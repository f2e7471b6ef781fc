/** Bytes and text, as far as several components share them. */
module Texts {

  type byte = x: int | 0 <= x < 256

  type Bytes = seq<byte>

  /** Lower case of the letters A to Z; the other characters that matter here have none. */
  function LowerChar(c: char): char {
    if 'A' <= c <= 'Z' then c - 'A' + 'a' else c
  }

  function Lower(s: string): (r: string)
    ensures |r| == |s| && forall i :: 0 <= i < |s| ==> r[i] == LowerChar(s[i])
  {
    seq(|s|, i requires 0 <= i < |s| => LowerChar(s[i]))
  }

  // ---- Text cut at a separator ----

  /** The parts between the separators, empty ones included. */
  function Cut(s: string, sep: char): (r: seq<string>)
    ensures r != []
  {
    if s == [] then [""]
    else
      var rest := Cut(s[1..], sep);
      if s[0] == sep then [""] + rest else [[s[0]] + rest[0]] + rest[1..]
  }

  lemma {:induction false} CutAt(a: string, sep: char, b: string)
    ensures Cut(a + [sep] + b, sep) == Cut(a, sep) + Cut(b, sep)
  {
    if a == [] {
      assert ([sep] + b)[1..] == b;
      assert [] + [sep] + b == [sep] + b;
    } else {
      assert (a + [sep] + b)[1..] == a[1..] + [sep] + b;
      CutAt(a[1..], sep, b);
    }
  }

  lemma {:induction false} CutNowhere(s: string, sep: char)
    requires sep !in s
    ensures Cut(s, sep) == [s]
  {
    if s != [] {
      CutNowhere(s[1..], sep);
      assert [s[0]] + s[1..] == s;
    }
  }

  /** The parts with the separator between them. */
  function JoinWith(parts: seq<string>, sep: char): string {
    if parts == [] then "" else if |parts| == 1 then parts[0] else parts[0] + [sep] + JoinWith(parts[1..], sep)
  }

  /** Parts without the separator can be had back. */
  lemma {:induction false} CutJoined(parts: seq<string>, sep: char)
    requires parts != [] && forall i :: 0 <= i < |parts| ==> sep !in parts[i]
    ensures Cut(JoinWith(parts, sep), sep) == parts
  {
    CutNowhere(parts[0], sep);
    if |parts| > 1 {
      CutJoined(parts[1..], sep);
      CutAt(parts[0], sep, JoinWith(parts[1..], sep));
      assert [parts[0]] + parts[1..] == parts;
    } else {
      assert [parts[0]] == parts;
    }
  }

  lemma {:induction false} JoinedAgain(s: string, sep: char)
    ensures JoinWith(Cut(s, sep), sep) == s
  {
    if s != [] {
      var rest := Cut(s[1..], sep);
      JoinedAgain(s[1..], sep);
      if s[0] == sep {
        assert ([""] + rest)[1..] == rest;
      } else {
        assert ([[s[0]] + rest[0]] + rest[1..])[1..] == rest[1..];
      }
    }
  }

  lemma {:induction false} JoinConcat(a: seq<string>, b: seq<string>, sep: char)
    requires a != [] && b != []
    ensures JoinWith(a + b, sep) == JoinWith(a, sep) + [sep] + JoinWith(b, sep)
  {
    if |a| == 1 {
      assert (a + b)[1..] == b;
    } else {
      assert (a + b)[1..] == a[1..] + b;
      JoinConcat(a[1..], b, sep);
    }
  }
}
