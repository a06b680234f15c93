/** The JavaScript string operations the handlers rely on, each given a
    characterising contract and, where one exists, its inverse: `split`
    with `join`, number-to-text with reading the digits back, and ASCII
    `toLowerCase`; plus a first-occurrence search that the model's own
    data-URI parser uses (the handlers themselves never call `indexOf`). */
module Strings {
  import opened Common

  /** `s.split(sep)` for a one-character separator: the pieces between
      separators, in order, with an empty piece wherever two separators
      touch or the text starts or ends with one. */
  function Split(s: string, sep: char): (parts: seq<string>)
    ensures |parts| >= 1
    ensures forall i :: 0 <= i < |parts| ==> sep !in parts[i]
    ensures sep !in s ==> parts == [s]
    ensures sep in s ==> |parts| >= 2
    decreases |s|
  {
    if s == [] then [[]]
    else if s[0] == sep then [[]] + Split(s[1..], sep)
    else
      var rest := Split(s[1..], sep);
      assert s == [s[0]] + s[1..];
      [[s[0]] + rest[0]] + rest[1..]
  }

  /** `parts.join(sep)`. */
  function Join(parts: seq<string>, sep: string): string
    decreases |parts|
  {
    if |parts| == 0 then []
    else if |parts| == 1 then parts[0]
    else parts[0] + sep + Join(parts[1..], sep)
  }

  /** Joining a list with a first piece in front adds that piece and one
      separator in front of the joined rest. */
  lemma JoinCons(first: string, rest: seq<string>, sep: string)
    requires |rest| >= 1
    ensures Join([first] + rest, sep) == first + sep + Join(rest, sep)
  {
    assert ([first] + rest)[1..] == rest;
  }

  /** Growing the first piece by one character in front grows the joined
      text by that character in front. */
  lemma {:induction false} JoinPrepend(c: char, parts: seq<string>, sep: string)
    requires |parts| >= 1
    ensures Join([[c] + parts[0]] + parts[1..], sep) == [c] + Join(parts, sep)
  {
    if |parts| > 1 {
      JoinCons([c] + parts[0], parts[1..], sep);
      JoinCons(parts[0], parts[1..], sep);
      assert [parts[0]] + parts[1..] == parts;
      assert ([c] + parts[0]) + sep + Join(parts[1..], sep) == [c] + (parts[0] + sep + Join(parts[1..], sep));
    }
  }

  /** Splitting and joining with the same separator gives the text back. */
  lemma {:induction false} JoinSplit(s: string, sep: char)
    ensures Join(Split(s, sep), [sep]) == s
    decreases |s|
  {
    if s == [] {
      assert Split(s, sep) == [[]];
    } else {
      var rest := Split(s[1..], sep);
      JoinSplit(s[1..], sep);
      if s[0] == sep {
        assert Split(s, sep) == [[]] + rest;
        JoinCons([], rest, [sep]);
      } else {
        assert Split(s, sep) == [[s[0]] + rest[0]] + rest[1..];
        JoinPrepend(s[0], rest, [sep]);
      }
      assert s == [s[0]] + s[1..];
    }
  }

  /** The last piece of `s.split(sep)` (what `.pop()` returns) is the text
      after the last separator, or all of `s` when there is none. */
  lemma {:induction false} LastOfSplit(s: string, sep: char)
    ensures var parts := Split(s, sep);
            var last := parts[|parts| - 1];
            && |last| <= |s|
            && last == s[|s| - |last|..]
            && (|last| == |s| || s[|s| - |last| - 1] == sep)
    decreases |s|
  {
    var parts := Split(s, sep);
    if s == [] {
      assert parts == [[]];
    } else {
      var rest := Split(s[1..], sep);
      if s[0] != sep && |rest| == 1 {
        assert parts == [[s[0]] + rest[0]];
        assert sep !in s[1..];
        assert s == [s[0]] + s[1..];
      } else {
        if s[0] == sep {
          assert parts == [[]] + rest;
        } else {
          assert parts == [[s[0]] + rest[0]] + rest[1..];
        }
        assert parts[|parts| - 1] == rest[|rest| - 1];
        LastOfSplit(s[1..], sep);
        TailSuffix(s, |rest[|rest| - 1]|);
      }
    }
  }

  /** A suffix of the tail of `s` is the suffix of `s` of the same length,
      with the same character before it. */
  lemma TailSuffix(s: string, k: nat)
    requires 1 <= |s| && k <= |s| - 1
    ensures s[1..][|s| - 1 - k..] == s[|s| - k..]
    ensures k < |s| - 1 ==> s[1..][|s| - 1 - k - 1] == s[|s| - k - 1]
  {
  }

  /** Cutting a text at three ascending points and gluing the four pieces
      back gives the text. */
  lemma Reassemble(s: string, n: nat, i: nat, j: nat)
    requires n <= |s| && i <= j <= |s| - n
    ensures s == s[..n] + s[n..][..i] + s[n..][i..j] + s[n..][j..]
  {
    var rest := s[n..];
    assert rest == rest[..i] + rest[i..j] + rest[j..];
    assert s == s[..n] + rest;
  }

  /** `toLowerCase` on one character, for the ASCII letters. */
  function LowerChar(c: char): char
  {
    if 'A' <= c <= 'Z' then (c as int + 32) as char else c
  }

  /** `s.toLowerCase()`, restricted to ASCII letters. */
  function ToLower(s: string): (r: string)
    ensures |r| == |s|
    ensures forall i :: 0 <= i < |s| ==> r[i] == LowerChar(s[i])
    decreases |s|
  {
    if s == [] then [] else [LowerChar(s[0])] + ToLower(s[1..])
  }

  /** Lower-casing leaves every character that is not an upper-case ASCII
      letter where it was, so it neither adds nor removes a given one. */
  lemma LowerKeepsOther(s: string, c: char)
    requires !('A' <= c <= 'Z') && !('a' <= c <= 'z')
    ensures c in ToLower(s) <==> c in s
  {
    var r := ToLower(s);
    if c in r {
      var i :| 0 <= i < |r| && r[i] == c;
      assert s[i] == c;
    }
    if c in s {
      var i :| 0 <= i < |s| && s[i] == c;
      assert r[i] == c;
    }
  }

  function DigitChar(d: nat): char
    requires d < 10
  {
    ('0' as int + d) as char
  }

  predicate IsDigit(c: char)
  {
    '0' <= c <= '9'
  }

  /** Template-literal rendering `${n}` of a non-negative integer. */
  function NatToString(n: nat): (r: string)
    ensures |r| >= 1
    ensures forall i :: 0 <= i < |r| ==> IsDigit(r[i])
    ensures r[0] == '0' <==> n == 0
    decreases n
  {
    if n < 10 then [DigitChar(n)] else NatToString(n / 10) + [DigitChar(n % 10)]
  }

  /** The number a string of decimal digits denotes. */
  function DigitsValue(s: string): nat
    requires forall i :: 0 <= i < |s| ==> IsDigit(s[i])
    decreases |s|
  {
    if s == [] then 0
    else
      assert IsDigit(s[|s| - 1]);
      DigitsValue(s[..|s| - 1]) * 10 + (s[|s| - 1] as int - '0' as int)
  }

  /** Reading the digits back gives the number that was rendered. */
  lemma {:induction false} NatToStringRoundTrip(n: nat)
    ensures DigitsValue(NatToString(n)) == n
    decreases n
  {
    var s := NatToString(n);
    if n >= 10 {
      NatToStringRoundTrip(n / 10);
      assert s[..|s| - 1] == NatToString(n / 10);
    }
    assert s[|s| - 1] as int - '0' as int == n % 10;
  }

  /** The first position holding `c`, or `None` (JavaScript's `indexOf`,
      with -1 as `None`); used only by the data-URI parser. */
  function IndexOf(s: string, c: char): (r: Option<nat>)
    ensures r.None? <==> c !in s
    ensures r.Some? ==> r.value < |s| && s[r.value] == c && c !in s[..r.value]
    decreases |s|
  {
    if s == [] then None
    else if s[0] == c then Some(0)
    else match IndexOf(s[1..], c)
      case None => None
      case Some(i) =>
        assert s[..i + 1] == [s[0]] + s[1..][..i];
        Some(i + 1)
  }
}
