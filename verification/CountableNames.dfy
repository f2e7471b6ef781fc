/**
 Which names the blocked-name counter counts: what a name may be written as, what shape it has,
 and that no address is counted.
 */
module CountableNames {
  import opened Wrappers
  import opened Texts

  /** The overflow bucket's name. */
  const OTHER_NAMES: string := "(other names)"

  /** White space that trim removes, among the characters a Latin-1 line can hold. */
  predicate IsSpace(c: char) {
    c == ' ' || '\t' <= c <= '\r' || c == '\U{A0}'
  }

  function TrimStart(s: string): (r: string)
    ensures r != [] ==> !IsSpace(r[0])
  {
    if s != [] && IsSpace(s[0]) then TrimStart(s[1..]) else s
  }

  function TrimEnd(s: string): (r: string)
    ensures r != [] ==> !IsSpace(r[|r| - 1])
  {
    if s != [] && IsSpace(s[|s| - 1]) then TrimEnd(s[..|s| - 1]) else s
  }

  function DropDot(s: string): string {
    if s != [] && s[|s| - 1] == '.' then s[..|s| - 1] else s
  }

  predicate NameChar(c: char) {
    'a' <= c <= 'z' || '0' <= c <= '9' || c == '_' || c == '-'
  }

  /** One or more name characters, in parts separated by single dots. */
  predicate NameShaped(s: string) {
    && s != [] && NameChar(s[0]) && NameChar(s[|s| - 1])
    && (forall i :: 0 <= i < |s| ==> NameChar(s[i]) || s[i] == '.')
    && (forall i :: 0 <= i < |s| - 1 ==> NameChar(s[i]) || NameChar(s[i + 1]))
  }

  predicate EndsWith(s: string, end: string) {
    |s| >= |end| && s[|s| - |end|..] == end
  }

  predicate AddressShaped(s: string) {
    forall i :: 0 <= i < |s| ==> '0' <= s[i] <= '9' || s[i] == '.'
  }

  predicate Countable(name: string) {
    && 0 < |name| <= 253 && NameShaped(name)
    && !EndsWith(name, ".in-addr.arpa") && !EndsWith(name, ".ip6.arpa")
    && !AddressShaped(name)
  }

  /** A name without the case, the surrounding white space and the final dot. */
  function Plain(raw: string): string {
    DropDot(Lower(TrimEnd(TrimStart(raw))))
  }

  function CountableName(raw: string): Option<string> {
    if Countable(Plain(raw)) then Some(Plain(raw)) else None
  }

  // ---- The same by parts ----

  /** The white space of the Latin-1 characters: tab, line feed, vertical tab, form feed, carriage return, space, no-break space. */
  lemma SpacesAre(c: char)
    ensures IsSpace(c) <==> c as int in {9, 10, 11, 12, 13, 32, 160}
  {
  }

  predicate Digits(part: string) {
    forall i :: 0 <= i < |part| ==> part[i] in "0123456789"
  }

  /** A letter, a digit, an underscore or a hyphen, and at least one of them. */
  predicate Part(part: string) {
    part != "" && forall i :: 0 <= i < |part| ==>
      part[i] in "abcdefghijklmnopqrstuvwxyz" || part[i] in "0123456789" || part[i] in "_-"
  }

  lemma NameCharIs(c: char)
    ensures NameChar(c) <==> c in "abcdefghijklmnopqrstuvwxyz" || c in "0123456789" || c in "_-"
  {
  }

  predicate AllParts(parts: seq<string>) {
    forall i :: 0 <= i < |parts| ==> Part(parts[i])
  }

  predicate AllDigits(parts: seq<string>) {
    forall i :: 0 <= i < |parts| ==> Digits(parts[i])
  }

  /** What follows the first character, and the dot behind it where there is one. */
  function Behind(s: string): (r: string)
    requires s != ""
    ensures |r| < |s|
  {
    if |s| > 1 && s[1] == '.' then s[2..] else s[1..]
  }

  lemma ShapedStep(s: string)
    requires s != ""
    ensures NameShaped(s) <==> NameChar(s[0]) && (|s| == 1 || NameShaped(Behind(s)))
  {
    if |s| > 1 {
      var n := if s[1] == '.' then 2 else 1;
      var rest := Behind(s);
      assert forall i :: n <= i < |s| ==> s[i] == rest[i - n];
      assert rest != "" ==> rest[|rest| - 1] == s[|s| - 1];
      if NameChar(s[0]) && NameShaped(rest) {
        forall i | 0 <= i < |s| - 1 ensures NameChar(s[i]) || NameChar(s[i + 1]) {
          if i >= n {
            assert NameChar(rest[i - n]) || NameChar(rest[i - n + 1]);
          }
        }
      }
      if NameShaped(s) {
        assert rest != "" by { assert !NameChar('.'); }
        forall i | 0 <= i < |rest| - 1 ensures NameChar(rest[i]) || NameChar(rest[i + 1]) {
          assert NameChar(s[i + n]) || NameChar(s[i + n + 1]);
        }
      }
    }
  }

  lemma PartGrows(c: char, part: string)
    ensures Part([c] + part) <==> NameChar(c) && (part == "" || Part(part))
  {
    NameCharIs(c);
    var p := [c] + part;
    assert forall i :: 0 <= i < |part| ==> p[i + 1] == part[i];
    assert p[0] == c;
  }

  lemma PartsGrow(c: char, rest: seq<string>)
    requires rest != []
    ensures AllParts([[c] + rest[0]] + rest[1..]) <==> NameChar(c) && (rest[0] == "" || Part(rest[0])) && AllParts(rest[1..])
    ensures AllParts(rest) <==> Part(rest[0]) && AllParts(rest[1..])
  {
    PartGrows(c, rest[0]);
    var parts := [[c] + rest[0]] + rest[1..];
    assert parts[0] == [c] + rest[0];
    assert forall i :: 0 <= i < |rest| - 1 ==> rest[1..][i] == parts[i + 1] && rest[1..][i] == rest[i + 1];
  }

  lemma CutFirst(s: string)
    requires s != ""
    ensures s[0] == '.' ==> Cut(s, '.') == [""] + Cut(s[1..], '.')
    ensures s[0] != '.' ==> Cut(s, '.') == [[s[0]] + Cut(s[1..], '.')[0]] + Cut(s[1..], '.')[1..]
  {
  }

  lemma EmptyPart(rest: seq<string>)
    ensures !AllParts([""] + rest) && ([""] + rest)[1..] == rest && ([""] + rest)[0] == ""
  {
    assert ([""] + rest)[0] == "";
  }

  lemma DotThenParts(s: string)
    requires |s| > 1 && s[0] != '.' && s[1] == '.'
    ensures var rest := Cut(s[1..], '.'); rest[0] == "" && rest[1..] == Cut(s[2..], '.')
  {
    CutFirst(s[1..]);
    assert s[1..][1..] == s[2..];
    EmptyPart(Cut(s[2..], '.'));
  }

  lemma MoreOfPart(s: string)
    requires |s| > 1 && s[1] != '.'
    ensures Cut(s[1..], '.')[0] != ""
  {
    CutFirst(s[1..]);
  }

  lemma PartsStep(s: string)
    requires s != ""
    ensures AllParts(Cut(s, '.')) <==> NameChar(s[0]) && (|s| == 1 || AllParts(Cut(Behind(s), '.')))
  {
    CutFirst(s);
    if s[0] == '.' {
      EmptyPart(Cut(s[1..], '.'));
    } else {
      PartsGrow(s[0], Cut(s[1..], '.'));
      if |s| == 1 {
        assert Cut(s[1..], '.') == [""];
      } else if s[1] == '.' {
        DotThenParts(s);
      } else {
        MoreOfPart(s);
      }
    }
  }

  lemma {:induction false} ShapedIffParts(s: string)
    ensures NameShaped(s) <==> AllParts(Cut(s, '.'))
    decreases |s|
  {
    if s == "" {
      EmptyPart([]);
      assert Cut(s, '.') == [""] + [];
    } else {
      ShapedStep(s);
      PartsStep(s);
      if |s| > 1 {
        ShapedIffParts(Behind(s));
      }
    }
  }

  lemma {:induction false} AddressIffDigits(s: string)
    ensures AddressShaped(s) <==> AllDigits(Cut(s, '.'))
  {
    if s == "" {
      assert Cut(s, '.') == [""];
    } else {
      var rest := Cut(s[1..], '.');
      AddressIffDigits(s[1..]);
      CutFirst(s);
      DigitsGrow(s[0], rest);
      assert AddressShaped(s) <==> (s[0] in "0123456789" || s[0] == '.') && AddressShaped(s[1..]) by {
        assert forall i :: 0 < i < |s| ==> s[i] == s[1..][i - 1];
        assert s[0] in "0123456789" <==> '0' <= s[0] <= '9';
      }
    }
  }

  lemma DigitsGrow(c: char, rest: seq<string>)
    requires rest != []
    ensures AllDigits([[c] + rest[0]] + rest[1..]) <==> c in "0123456789" && AllDigits(rest)
    ensures AllDigits([""] + rest) <==> AllDigits(rest)
  {
    var parts := [[c] + rest[0]] + rest[1..];
    assert parts[0] == [c] + rest[0];
    assert forall i :: 0 <= i < |rest[0]| ==> parts[0][i + 1] == rest[0][i];
    assert parts[0][0] == c;
    assert forall i :: 0 < i < |rest| ==> parts[i] == rest[i];
    assert forall i :: 0 <= i < |rest| ==> ([""] + rest)[i + 1] == rest[i];
  }

  /** The name ends in these parts, with others before them. */
  predicate EndsInParts(parts: seq<string>, last: seq<string>) {
    |parts| > |last| && parts[|parts| - |last|..] == last
  }

  lemma EndCut(a: string, last: seq<string>)
    requires last != [] && forall i :: 0 <= i < |last| ==> '.' !in last[i]
    ensures EndsInParts(Cut(a + ['.'] + JoinWith(last, '.'), '.'), last)
  {
    CutAt(a, '.', JoinWith(last, '.'));
    CutJoined(last, '.');
  }

  lemma EndJoined(name: string, last: seq<string>)
    requires last != [] && EndsInParts(Cut(name, '.'), last)
    ensures EndsWith(name, ['.'] + JoinWith(last, '.'))
  {
    var parts := Cut(name, '.');
    var a := parts[..|parts| - |last|];
    assert parts == a + last;
    JoinConcat(a, last, '.');
    JoinedAgain(name, '.');
    Tail(JoinWith(a, '.'), ['.'] + JoinWith(last, '.'));
  }

  lemma Tail(a: string, b: string)
    ensures EndsWith(a + b, b)
  {
  }

  lemma EndsWithIff(name: string, last: seq<string>, end: string)
    requires last != [] && (forall i :: 0 <= i < |last| ==> '.' !in last[i]) && end == ['.'] + JoinWith(last, '.')
    ensures EndsWith(name, end) <==> EndsInParts(Cut(name, '.'), last)
  {
    if EndsWith(name, end) {
      var a := name[..|name| - |end|];
      assert name == a + ['.'] + JoinWith(last, '.');
      EndCut(a, last);
    }
    if EndsInParts(Cut(name, '.'), last) {
      EndJoined(name, last);
    }
  }

  lemma InAddr(name: string)
    ensures EndsWith(name, ".in-addr.arpa") <==> EndsInParts(Cut(name, '.'), ["in-addr", "arpa"])
  {
    var last := ["in-addr", "arpa"];
    assert JoinWith(last[1..], '.') == "arpa";
    EndsWithIff(name, last, ".in-addr.arpa");
  }

  lemma Ip6(name: string)
    ensures EndsWith(name, ".ip6.arpa") <==> EndsInParts(Cut(name, '.'), ["ip6", "arpa"])
  {
    var last := ["ip6", "arpa"];
    assert JoinWith(last[1..], '.') == "arpa";
    EndsWithIff(name, last, ".ip6.arpa");
  }

  /**
   What is counted, part by part: between the dots stand name characters, one at least; the parts
   are not numbers alone, as an address's are, and do not end in those of a reverse lookup.
   */
  lemma CountableIff(name: string)
    ensures var parts := Cut(name, '.');
      Countable(name) <==>
        && |name| <= 253 && AllParts(parts) && !AllDigits(parts)
        && !EndsInParts(parts, ["in-addr", "arpa"]) && !EndsInParts(parts, ["ip6", "arpa"])
  {
    ShapedIffParts(name);
    AddressIffDigits(name);
    InAddr(name);
    Ip6(name);
  }

  lemma LowerKeeps(s: string)
    requires forall i :: 0 <= i < |s| ==> NameChar(s[i]) || s[i] == '.'
    ensures Lower(s) == s
  {
  }

  lemma PlainKeeps(s: string)
    requires NameShaped(s)
    ensures Plain(s) == s && Plain(s + ".") == s
  {
    LowerKeeps(s);
    LowerKeeps(s + ".");
    assert !IsSpace(s[0]) && !IsSpace(s[|s| - 1]);
    assert TrimStart(s) == s && TrimEnd(s) == s;
    assert DropDot(s + ".") == s by { assert (s + ".")[..|s|] == s; }
    assert TrimStart(s + ".") == s + "." && TrimEnd(s + ".") == s + ".";
  }

  predicate AllSpace(s: string) {
    forall i :: 0 <= i < |s| ==> IsSpace(s[i])
  }

  lemma {:induction false} StartTrimmed(before: string, s: string)
    requires AllSpace(before)
    ensures TrimStart(before + s) == TrimStart(s)
  {
    if before == [] {
      assert before + s == s;
    } else {
      assert (before + s)[1..] == before[1..] + s;
      StartTrimmed(before[1..], s);
    }
  }

  lemma {:induction false} EndTrimmed(s: string, after: string)
    requires AllSpace(after)
    ensures TrimEnd(s + after) == TrimEnd(s)
    decreases |after|
  {
    if after == [] {
      assert s + after == s;
    } else {
      var n := |after| - 1;
      assert (s + after)[..|s + after| - 1] == s + after[..n];
      assert (s + after)[|s + after| - 1] == after[n];
      EndTrimmed(s, after[..n]);
    }
  }

  lemma TrimmedAround(before: string, s: string, after: string)
    requires AllSpace(before) && AllSpace(after)
    requires s != [] && !IsSpace(s[0]) && !IsSpace(s[|s| - 1])
    ensures TrimEnd(TrimStart(before + (s + after))) == s
  {
    StartTrimmed(before, s + after);
    EndTrimmed(s, after);
    assert (s + after)[0] == s[0];
  }

  lemma LowerOfName(s: string)
    requires NameShaped(Lower(s))
    ensures s != [] && !IsSpace(s[0]) && !IsSpace(s[|s| - 1]) && !IsSpace('.')
    ensures Lower(s + ".") == Lower(s) + "."
  {
    assert NameChar(LowerChar(s[0])) && NameChar(LowerChar(s[|s| - 1]));
  }

  /** What one name may be written as: in either case, with white space around it and a dot behind it. */
  predicate WrittenAs(raw: string, name: string, before: string, s: string, dot: string, after: string) {
    && raw == before + s + dot + after && Lower(s) == name
    && AllSpace(before) && AllSpace(after) && (dot == "" || dot == ".")
  }

  lemma InnerOfName(s: string, dot: string)
    requires NameShaped(Lower(s)) && (dot == "" || dot == ".")
    ensures var inner := s + dot;
      inner != [] && !IsSpace(inner[0]) && !IsSpace(inner[|inner| - 1]) && DropDot(Lower(inner)) == Lower(s)
  {
    LowerOfName(s);
    PlainKeeps(Lower(s));
    assert s + "" == s;
  }

  lemma PlainAround(before: string, s: string, after: string)
    requires AllSpace(before) && AllSpace(after)
    requires s != [] && !IsSpace(s[0]) && !IsSpace(s[|s| - 1])
    ensures Plain(before + (s + after)) == DropDot(Lower(s))
  {
    TrimmedAround(before, s, after);
  }

  lemma Assoc(a: string, b: string, c: string, d: string)
    ensures a + b + c + d == a + ((b + c) + d)
  {
  }

  /** Case, white space around it and one final dot do not make a different name. */
  lemma OneNameHoweverWritten(raw: string, name: string, before: string, s: string, dot: string, after: string)
    requires Countable(name) && WrittenAs(raw, name, before, s, dot, after)
    ensures CountableName(raw) == Some(name)
  {
    InnerOfName(s, dot);
    Assoc(before, s, dot, after);
    PlainAround(before, s + dot, after);
    assert Plain(raw) == name;
  }

  lemma {:induction false} TrimmedStart(s: string) returns (before: string)
    ensures AllSpace(before) && s == before + TrimStart(s)
  {
    before := [];
    if s != [] && IsSpace(s[0]) {
      var rest := TrimmedStart(s[1..]);
      before := [s[0]] + rest;
    }
  }

  lemma {:induction false} TrimmedEnd(s: string) returns (after: string)
    ensures AllSpace(after) && s == TrimEnd(s) + after
    decreases |s|
  {
    after := [];
    if s != [] && IsSpace(s[|s| - 1]) {
      var rest := TrimmedEnd(s[..|s| - 1]);
      after := rest + [s[|s| - 1]];
    }
  }

  /** And nothing else makes it: whatever is counted under a name is one of the ways to write it. */
  lemma OnlyItsOwnForms(raw: string) returns (before: string, s: string, dot: string, after: string)
    requires CountableName(raw).Some?
    ensures WrittenAs(raw, CountableName(raw).value, before, s, dot, after)
  {
    before := TrimmedStart(raw);
    after := TrimmedEnd(TrimStart(raw));
    var inner := TrimEnd(TrimStart(raw));
    dot := if inner != [] && inner[|inner| - 1] == '.' then "." else "";
    s := inner[..|inner| - |dot|];
    assert inner == s + dot;
    assert raw == before + (inner + after) == before + s + dot + after;
    assert Lower(inner)[|inner| - 1] == '.' <==> dot == ".";
    assert Lower(s) == Plain(raw);
  }

  /** What is counted is name-shaped, is no address and not the overflow bucket, and is counted as itself. */
  lemma CountedAsItself(raw: string)
    requires CountableName(raw).Some?
    ensures var name := CountableName(raw).value;
      Countable(name) && name != OTHER_NAMES && '\t' !in name && CountableName(name) == Some(name)
  {
    PlainKeeps(Plain(raw));
    ShapedNames(Plain(raw));
  }

  lemma ShapedNames(name: string)
    requires NameShaped(name)
    ensures name != OTHER_NAMES && '\t' !in name
  {
    assert OTHER_NAMES[0] == '(';
  }
}
