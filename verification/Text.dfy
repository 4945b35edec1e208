/** The few string operations the daemon's parsers are built from. */
module Text {

  function Index(s: string, c: char): int {
    if s == [] then -1
    else if s[0] == c then 0
    else var i := Index(s[1..], c); if i < 0 then -1 else i + 1
  }

  function LastIndex(s: string, c: char): int {
    if s == [] then -1
    else if s[|s| - 1] == c then |s| - 1
    else LastIndex(s[..|s| - 1], c)
  }

  function Split(s: string, c: char): seq<string> {
    if s == [] then [""]
    else
      var rest := Split(s[1..], c);
      if s[0] == c then [""] + rest
      else if rest == [] then [[s[0]]]
      else [[s[0]] + rest[0]] + rest[1..]
  }

  /** Unicode white space. */
  predicate IsSpace(c: char) {
    || '\t' <= c <= '\r' || c == ' ' || c == '\U{85}' || c == '\U{a0}' || c == '\U{1680}'
    || '\U{2000}' <= c <= '\U{200a}' || c == '\U{2028}' || c == '\U{2029}' || c == '\U{202f}'
    || c == '\U{205f}' || c == '\U{3000}'
  }

  function TrimSpace(s: string): string {
    if s == [] then s
    else if IsSpace(s[0]) then TrimSpace(s[1..])
    else if IsSpace(s[|s| - 1]) then TrimSpace(s[..|s| - 1])
    else s
  }

  predicate AllSpace(s: string) {
    forall i | 0 <= i < |s| :: IsSpace(s[i])
  }

  lemma TrimStep(s: string)
    requires s != []
    ensures TrimSpace(s) == if IsSpace(s[0]) then TrimSpace(s[1..])
                            else if IsSpace(s[|s| - 1]) then TrimSpace(s[..|s| - 1]) else s
  {
    hide IsSpace;
  }

  /** The kept text, with space before and behind it, makes up the whole. */
  predicate TrimmedTo(s: string, kept: string, front: string, back: string) {
    && s == front + kept + back && AllSpace(front) && AllSpace(back)
    && (kept != "" ==> !IsSpace(kept[0]) && !IsSpace(kept[|kept| - 1]))
  }

  lemma SpaceBefore(s: string, kept: string, front: string, back: string)
    requires s != [] && IsSpace(s[0]) && TrimmedTo(s[1..], kept, front, back)
    ensures TrimmedTo(s, kept, [s[0]] + front, back)
  {
    hide IsSpace;
    assert s == [s[0]] + s[1..];
    assert [s[0]] + (front + kept + back) == ([s[0]] + front) + kept + back;
  }

  lemma SpaceBehind(s: string, kept: string, front: string, back: string)
    requires s != [] && IsSpace(s[|s| - 1]) && TrimmedTo(s[..|s| - 1], kept, front, back)
    ensures TrimmedTo(s, kept, front, back + [s[|s| - 1]])
  {
    hide IsSpace;
    assert s == s[..|s| - 1] + [s[|s| - 1]];
    assert (front + kept + back) + [s[|s| - 1]] == front + kept + (back + [s[|s| - 1]]);
  }

  /** Trimming takes away space at both ends and nothing else, and all of it. */
  lemma {:induction false} TrimSpaceIs(s: string) returns (front: string, back: string)
    ensures TrimmedTo(s, TrimSpace(s), front, back)
  {
    front, back := "", "";
    if s == [] {
      assert s == "" + s + "";
    } else {
      TrimStep(s);
      hide IsSpace, TrimSpace;
      if IsSpace(s[0]) {
        hide TrimmedTo;
        front, back := TrimSpaceIs(s[1..]);
        SpaceBefore(s, TrimSpace(s), front, back);
        front := [s[0]] + front;
      } else if IsSpace(s[|s| - 1]) {
        hide TrimmedTo;
        front, back := TrimSpaceIs(s[..|s| - 1]);
        SpaceBehind(s, TrimSpace(s), front, back);
        back := back + [s[|s| - 1]];
      } else {
        assert s == "" + s + "";
      }
    }
  }

  lemma {:induction false} IndexBetween(a: string, c: char, b: string)
    requires c !in a
    ensures Index(a + [c] + b, c) == |a|
  {
    var s := a + [c] + b;
    if a != [] {
      assert s[1..] == a[1..] + [c] + b;
      IndexBetween(a[1..], c, b);
    }
  }

  lemma {:induction false} LastIndexBetween(a: string, c: char, b: string)
    requires c !in b
    ensures LastIndex(a + [c] + b, c) == |a|
  {
    var s := a + [c] + b;
    if b != [] {
      assert s[..|s| - 1] == a + [c] + b[..|b| - 1];
      LastIndexBetween(a, c, b[..|b| - 1]);
    } else {
      assert s == a + [c];
    }
  }

  lemma {:induction false} SplitNone(s: string, c: char)
    requires c !in s
    ensures Split(s, c) == [s]
  {
    if s != [] {
      SplitNone(s[1..], c);
      assert [s[0]] + s[1..] == s;
    }
  }

  /** The pieces of a text, each with its line feed; what follows the last one is a piece too. */
  function SplitAfter(data: string): (lines: seq<string>)
    ensures lines != []
  {
    if data == [] then [""]
    else
      var rest := SplitAfter(data[1..]);
      if data[0] == '\n' then ["\n"] + rest else [[data[0]] + rest[0]] + rest[1..]
  }

  /** The lines make up the text again; each but the last ends with the only line feed in it, and the last
      has none. */
  lemma {:induction false} SplitAfterIs(data: string)
    ensures Glued(SplitAfter(data)) == data && '\n' !in SplitAfter(data)[|SplitAfter(data)| - 1]
    ensures forall k | 0 <= k < |SplitAfter(data)| - 1 :: var line := SplitAfter(data)[k];
              line != "" && line[|line| - 1] == '\n' && '\n' !in line[..|line| - 1]
  {
    if data != [] {
      SplitAfterIs(data[1..]);
      var rest := SplitAfter(data[1..]);
      assert data == [data[0]] + data[1..];
      if data[0] == '\n' {
        assert (["\n"] + rest)[1..] == rest && "\n"[..0] == "";
      } else {
        assert ([[data[0]] + rest[0]] + rest[1..])[1..] == rest[1..];
        if |rest| > 1 {
          assert ([data[0]] + rest[0])[..|rest[0]|] == [data[0]] + rest[0][..|rest[0]| - 1];
        }
      }
    }
  }

  function Glued(lines: seq<string>): string {
    if lines == [] then "" else lines[0] + Glued(lines[1..])
  }

  /** Appending to a text leaves every finished line in place. */
  lemma {:induction false} AppendKeepsLines(a: string, b: string)
    ensures |SplitAfter(a)| <= |SplitAfter(a + b)|
    ensures SplitAfter(a + b)[..|SplitAfter(a)| - 1] == SplitAfter(a)[..|SplitAfter(a)| - 1]
  {
    if a != [] {
      assert (a + b)[1..] == a[1..] + b;
      AppendKeepsLines(a[1..], b);
    }
  }
}
