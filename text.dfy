// Strings as the bots inspect them: ASCII case mapping and Python's
// substring test `sub in s`.
module Text {

  function UpperChar(c: char): char
  {
    if 'a' <= c <= 'z' then (c as int - 32) as char else c
  }

  function LowerChar(c: char): char
  {
    if 'A' <= c <= 'Z' then (c as int + 32) as char else c
  }

  /** `s.upper()` on ASCII letters; other characters are kept. */
  function Upper(s: string): (r: string)
    ensures |r| == |s|
    ensures forall i :: 0 <= i < |s| ==> r[i] == UpperChar(s[i])
  {
    if |s| == 0 then "" else [UpperChar(s[0])] + Upper(s[1..])
  }

  /** `s.lower()` on ASCII letters; other characters are kept. */
  function Lower(s: string): (r: string)
    ensures |r| == |s|
    ensures forall i :: 0 <= i < |s| ==> r[i] == LowerChar(s[i])
  {
    if |s| == 0 then "" else [LowerChar(s[0])] + Lower(s[1..])
  }

  /** Upper-casing twice is upper-casing once. */
  lemma UpperIdempotent(s: string)
    ensures Upper(Upper(s)) == Upper(s)
  {
  }

  /** Case mapping only looks at the letter: upper-casing forgets an earlier lower-casing. */
  lemma UpperOfLower(s: string)
    ensures Upper(Lower(s)) == Upper(s)
  {
  }

  lemma LowerOfUpper(s: string)
    ensures Lower(Upper(s)) == Lower(s)
  {
  }

  predicate StartsWith(s: string, prefix: string)
  {
    |prefix| <= |s| && s[..|prefix|] == prefix
  }

  /** Python's `sub in s`. */
  predicate Contains(s: string, sub: string)
    decreases |s|
  {
    StartsWith(s, sub) || (|s| > 0 && Contains(s[1..], sub))
  }

  /** Python's `any(k in s for k in keys)`, trying the keys in order. */
  predicate ContainsAny(s: string, keys: seq<string>)
  {
    |keys| > 0 && (Contains(s, keys[0]) || ContainsAny(s, keys[1..]))
  }

  /** `any` holds exactly when one of the keys occurs in `s`. */
  lemma {:induction false} ContainsAnyIsSome(s: string, keys: seq<string>)
    ensures ContainsAny(s, keys) <==> exists k :: k in keys && Contains(s, k)
  {
    if |keys| > 0 {
      ContainsAnyIsSome(s, keys[1..]);
      assert forall k :: k in keys <==> k == keys[0] || k in keys[1..];
      if Contains(s, keys[0]) {
        assert keys[0] in keys;
      }
    }
  }
}
