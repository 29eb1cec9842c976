/**
 * `protect`: the naive escaping helper that puts a backslash in front of
 * every single quote, so that the text can be pasted between single
 * quotes in a Cypher literal. Backslashes already in the text are left as
 * they are.
 */
module Escaping {

  const QUOTE: char := '\''
  const BACKSLASH: char := '\\'

  /** How many times `c` occurs in `s`. */
  function Occurrences(s: string, c: char): nat
  {
    if s == [] then 0 else (if s[0] == c then 1 else 0) + Occurrences(s[1..], c)
  }

  /**
   * Every character of `s` copied in order, except that each quote becomes
   * a backslash followed by the quote.
   */
  function Protect(s: string): (r: string)
    ensures |r| == |s| + Occurrences(s, QUOTE)
    ensures r == s <==> Occurrences(s, QUOTE) == 0
  {
    if s == [] then []
    else (if s[0] == QUOTE then [BACKSLASH, QUOTE] else [s[0]]) + Protect(s[1..])
  }

  /** The inverse of `Protect`: a backslash directly before a quote is dropped. */
  function Unprotect(s: string): (r: string)
    ensures |r| <= |s|
  {
    if s == [] then []
    else if |s| >= 2 && s[0] == BACKSLASH && s[1] == QUOTE then [QUOTE] + Unprotect(s[2..])
    else [s[0]] + Unprotect(s[1..])
  }

  /** Escaping works character by character: it distributes over concatenation. */
  lemma {:induction false} ProtectAppend(a: string, b: string)
    ensures Protect(a + b) == Protect(a) + Protect(b)
  {
    if a == [] {
      assert a + b == b;
    } else {
      assert (a + b)[0] == a[0];
      assert (a + b)[1..] == a[1..] + b;
      ProtectAppend(a[1..], b);
    }
  }

  /** An escaped text never starts with a quote. */
  lemma ProtectHead(s: string)
    requires s != []
    ensures Protect(s)[0] != QUOTE
  {
  }

  /** Unescaping an escaped text gives the original text back. */
  lemma {:induction false} UnprotectProtect(s: string)
    ensures Unprotect(Protect(s)) == s
  {
    if s != [] {
      var rest := Protect(s[1..]);
      UnprotectProtect(s[1..]);
      if s[0] == QUOTE {
        assert Protect(s) == [BACKSLASH, QUOTE] + rest;
        assert Protect(s)[2..] == rest;
      } else {
        assert Protect(s) == [s[0]] + rest;
        if s[1..] != [] {
          ProtectHead(s[1..]);
        }
        assert Protect(s)[1..] == rest;
      }
    }
  }

  /** So two texts that escape to the same text are the same text. */
  lemma ProtectInjective(s: string, t: string)
    requires Protect(s) == Protect(t)
    ensures s == t
  {
    UnprotectProtect(s);
    UnprotectProtect(t);
  }

  /** In an escaped text every quote comes right after a backslash. */
  lemma {:induction false} ProtectNoBareQuote(s: string)
    ensures forall i :: 0 <= i < |Protect(s)| && Protect(s)[i] == QUOTE ==>
      i > 0 && Protect(s)[i - 1] == BACKSLASH
  {
    if s != [] {
      ProtectNoBareQuote(s[1..]);
      var head := if s[0] == QUOTE then [BACKSLASH, QUOTE] else [s[0]];
      var rest := Protect(s[1..]);
      assert Protect(s) == head + rest;
      forall i | 0 <= i < |Protect(s)| && Protect(s)[i] == QUOTE
        ensures i > 0 && Protect(s)[i - 1] == BACKSLASH
      {
        if i >= |head| {
          assert Protect(s)[i] == rest[i - |head|];
        }
      }
    }
  }
}
