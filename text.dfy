/**
  The string operations the plugin relies on: lower-casing (`String.ToLower`),
  ordinal substring search (`String.Contains`) and suffix test (`String.EndsWith`,
  modelled as an ordinal comparison).
  Lower-casing is modelled for the ASCII letters only.
 */
module Text {

  /** The lower-case form of one character: 'A'..'Z' become 'a'..'z', all others are kept. */
  function LowerChar(c: char): char
  {
    if 'A' <= c <= 'Z' then (c as int + 32) as char else c
  }

  /** `s.ToLower()`: every character replaced by its lower-case form. */
  function ToLower(s: string): (r: string)
    ensures |r| == |s|
    ensures forall i :: 0 <= i < |s| ==> r[i] == LowerChar(s[i])
  {
    if s == [] then [] else [LowerChar(s[0])] + ToLower(s[1..])
  }

  /** `s.Contains(sub)`, ordinal: a left-to-right search for an occurrence of `sub`. */
  function Contains(s: string, sub: string): (r: bool)
    ensures r <==> exists i :: 0 <= i <= |s| && sub <= s[i..]
    decreases |s|
  {
    if sub <= s then
      assert s[0..] == s;
      true
    else if s == [] then
      false
    else
      var r := Contains(s[1..], sub);
      assert forall i :: 1 <= i <= |s| ==> s[1..][i - 1..] == s[i..];
      r
  }

  /**
    `s.EndsWith(suffix)`, compared character by character. The library compares
    with the current culture, which also ignores some code points; that is not
    modelled.
   */
  predicate EndsWith(s: string, suffix: string)
  {
    |suffix| <= |s| && s[|s| - |suffix|..] == suffix
  }

  /** `pre` matches the start of `s` when case is ignored. */
  predicate PrefixIgnoringCase(pre: string, s: string)
  {
    |pre| <= |s| && forall j :: 0 <= j < |pre| ==> LowerChar(s[j]) == LowerChar(pre[j])
  }

  /** Reference definition of a case-insensitive substring search. */
  predicate ContainsIgnoringCase(s: string, sub: string)
  {
    exists i :: 0 <= i <= |s| && PrefixIgnoringCase(sub, s[i..])
  }

  /** `s` has no upper-case ASCII letter. */
  predicate IsLowerCase(s: string)
  {
    forall j :: 0 <= j < |s| ==> LowerChar(s[j]) == s[j]
  }

  /** Two strings that agree once lower-cased. */
  predicate EqualIgnoringCase(a: string, b: string)
  {
    |a| == |b| && forall j :: 0 <= j < |a| ==> LowerChar(a[j]) == LowerChar(b[j])
  }

  /**
    Lower-casing the text and then searching for an all-lower-case pattern,
    as the plugin does, is exactly a case-insensitive search.
   */
  lemma ContainsLowered(s: string, sub: string)
    requires IsLowerCase(sub)
    ensures Contains(ToLower(s), sub) <==> ContainsIgnoringCase(s, sub)
  {
    var t := ToLower(s);
    forall i | 0 <= i <= |s|
      ensures sub <= t[i..] <==> PrefixIgnoringCase(sub, s[i..])
    {
      if PrefixIgnoringCase(sub, s[i..]) {
        assert t[i..][..|sub|] == sub;
      }
    }
  }

  /** Lower-casing forgets case and nothing else: equal results exactly for case-variants. */
  lemma ToLowerEqualIff(a: string, b: string)
    ensures ToLower(a) == ToLower(b) <==> EqualIgnoringCase(a, b)
  {
  }
}
