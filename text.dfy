/** The ASCII part of Python's `str.upper` and `str.lower`, which is all the game compares against. */
module Text {
  function UpperChar(c: char): char
  {
    if 'a' <= c <= 'z' then (c as int - 32) as char else c
  }

  function LowerChar(c: char): char
  {
    if 'A' <= c <= 'Z' then (c as int + 32) as char else c
  }

  function Upper(s: string): string
  {
    if s == [] then [] else [UpperChar(s[0])] + Upper(s[1..])
  }

  function Lower(s: string): string
  {
    if s == [] then [] else [LowerChar(s[0])] + Lower(s[1..])
  }

  /** Upper-casing keeps the length and works character by character. */
  lemma {:induction false} UpperAt(s: string)
    ensures |Upper(s)| == |s|
    ensures forall i :: 0 <= i < |s| ==> Upper(s)[i] == UpperChar(s[i])
  {
    if s != [] {
      UpperAt(s[1..]);
    }
  }

  /** Lower-casing keeps the length and works character by character. */
  lemma {:induction false} LowerAt(s: string)
    ensures |Lower(s)| == |s|
    ensures forall i :: 0 <= i < |s| ==> Lower(s)[i] == LowerChar(s[i])
  {
    if s != [] {
      LowerAt(s[1..]);
    }
  }

  /** The only replies that upper-case to a one-letter string `[u]` for an upper-case letter `u`
      are that letter and its lower-case form. */
  lemma UpperIsLetter(s: string, u: char)
    requires 'A' <= u <= 'Z'
    ensures Upper(s) == [u] <==> s == [u] || s == [(u as int + 32) as char]
  {
    UpperAt(s);
    if Upper(s) == [u] {
      assert |s| == 1 && UpperChar(s[0]) == u;
      assert s == [s[0]];
    }
  }

  /** The only replies that lower-case to `[l]` for a lower-case letter `l` are that letter and its
      upper-case form. */
  lemma LowerIsLetter(s: string, l: char)
    requires 'a' <= l <= 'z'
    ensures Lower(s) == [l] <==> s == [l] || s == [(l as int - 32) as char]
  {
    LowerAt(s);
    if Lower(s) == [l] {
      assert |s| == 1 && LowerChar(s[0]) == l;
      assert s == [s[0]];
    }
  }
}
