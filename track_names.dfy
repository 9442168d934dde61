/**
 * getSafeTrackName: turning a user-typed track name into a file name. Every
 * slash becomes a dash, every space an underscore, and ".m4a" is appended
 * unless the name already ends with it.
 *
 * A string is a sequence of characters; the model compares characters one by
 * one, where Swift compares grapheme clusters.
 */
module TrackNames {
  const Extension: string := ".m4a"

  /** replacingOccurrences(of:with:) for a one-character pattern and replacement. */
  function ReplaceAll(s: string, from: char, to: char): (r: string)
    ensures |r| == |s|
    ensures forall i :: 0 <= i < |s| ==> r[i] == (if s[i] == from then to else s[i])
  {
    seq(|s|, i requires 0 <= i < |s| => if s[i] == from then to else s[i])
  }

  predicate HasSuffix(s: string, suffix: string)
  {
    |suffix| <= |s| && s[|s| - |suffix|..] == suffix
  }

  /** getSafeTrackName. */
  function GetSafeTrackName(input: string): (name: string)
    ensures '/' !in name && ' ' !in name
    ensures HasSuffix(name, Extension)
  {
    var sanitized := ReplaceAll(ReplaceAll(input, '/', '-'), ' ', '_');
    assert forall i :: 0 <= i < |sanitized| ==> sanitized[i] != '/' && sanitized[i] != ' ';
    if HasSuffix(sanitized, Extension) then sanitized
    else
      var name := sanitized + Extension;
      assert name[|name| - |Extension|..] == Extension;
      name
  }

  /** Replacing a character that does not occur changes nothing. */
  lemma ReplaceAbsent(s: string, from: char, to: char)
    requires from !in s
    ensures ReplaceAll(s, from, to) == s
  {
  }

  /**
   * Only slashes and spaces are rewritten: the name is the input with those
   * two replaced, followed by ".m4a" exactly when the rewritten input does not
   * already end with it; so it is as long as the input, or four longer.
   */
  lemma SafeNameShape(input: string)
    ensures var name := GetSafeTrackName(input);
      (|name| == |input| || |name| == |input| + |Extension|) &&
      forall i :: 0 <= i < |input| ==>
        name[i] == (if input[i] == '/' then '-' else if input[i] == ' ' then '_' else input[i])
    ensures |GetSafeTrackName(input)| == |input| <==> HasSuffix(ReplaceAll(ReplaceAll(input, '/', '-'), ' ', '_'), Extension)
  {
  }

  /** A name that is already safe comes back unchanged. */
  lemma SafeNameUnchanged(input: string)
    requires '/' !in input && ' ' !in input && HasSuffix(input, Extension)
    ensures GetSafeTrackName(input) == input
  {
    ReplaceAbsent(input, '/', '-');
    ReplaceAbsent(input, ' ', '_');
  }

  /** Sanitising twice is sanitising once. */
  lemma SafeNameIdempotent(input: string)
    ensures GetSafeTrackName(GetSafeTrackName(input)) == GetSafeTrackName(input)
  {
    SafeNameUnchanged(GetSafeTrackName(input));
  }
}
