/** The callback data of the card keyboards: what the keyboards print, the poller parses back. */
module Callback {
  import opened Records
  import opened Decimal
  import opened Paging
  import opened Text

  datatype Action = PressApprove | PressDeny | PressAck | Pick | Toggle | Submit | Page

  datatype Parsed = Parsed(action: Action, rid: Rid, idxs: seq<int>)

  // ----- The parser ----------------------------------------------------------------------------------

  /** Every part must be a number and none negative. */
  function ParseIndices(parts: seq<string>): Option<seq<int>> {
    if parts == [] then Some([])
    else
      var n := Atoi(TrimSpace(parts[0]));
      var rest := ParseIndices(parts[1..]);
      if n.None? || n.value < 0 || rest.None? then None else Some([n.value] + rest.value)
  }

  function ParseOne(action: Action, rid: Rid, text: string): Option<Parsed> {
    var n := Atoi(text);
    if n.None? || n.value < 0 then None else Some(Parsed(action, rid, [n.value]))
  }

  function SplitAsk(rest: string): Option<Parsed> {
    var sep := Index(rest, ':');
    if sep <= 0 || sep >= |rest| then None
    else SplitTail(rest[..sep], rest[sep + 1..])
  }

  function SplitTail(rid: Rid, tail: string): Option<Parsed> {
    if "t:" <= tail then ParseOne(Toggle, rid, tail[2..])
    else if "s:" <= tail then ParseOne(Submit, rid, tail[2..])
    else
      var idxs := ParseIndices(Split(tail, ','));
      if idxs.None? || idxs.value == [] then None else Some(Parsed(Pick, rid, idxs.value))
  }

  function SplitPage(rest: string): Option<Parsed> {
    var i := LastIndex(rest, ':');
    if i <= 0 || i >= |rest| - 1 then None else ParseOne(Page, rest[..i], rest[i + 1..])
  }

  function SplitVerdict(data: string): Option<Parsed> {
    if "ask:" <= data then SplitAsk(data[4..])
    else if "page:" <= data then SplitPage(data[5..])
    else if "approve:" <= data then Some(Parsed(PressApprove, data[8..], []))
    else if "deny:" <= data then Some(Parsed(PressDeny, data[5..], []))
    else if "ack:" <= data then Some(Parsed(PressAck, data[4..], []))
    else None
  }

  // ----- The printers --------------------------------------------------------------------------------

  /** Request ids as the daemon draws them: not empty, and no colon. */
  predicate PlainRid(rid: Rid) {
    rid != "" && ':' !in rid
  }

  function AskData(rid: Rid, tag: string, i: int): string {
    "ask:" + rid + ":" + (tag + Itoa(i))
  }

  function PageData(rid: Rid, page: int): string {
    "page:" + rid + ":" + Itoa(page)
  }

  lemma Mismatch(p: string, s: string, k: nat)
    requires k < |p| && k < |s| && p[k] != s[k]
    ensures !(p <= s)
  {
  }

  lemma Front(p: string, t: string)
    ensures p <= p + t && (p + t)[|p|..] == t
  {
  }

  lemma {:induction false} DigitsTrim(s: string)
    requires AllDigits(s)
    ensures TrimSpace(s) == s
    ensures ',' !in s && ':' !in s && !("t:" <= s) && !("s:" <= s)
  {
    if s != [] {
      assert IsDigit(s[0]) && IsDigit(s[|s| - 1]);
      Mismatch("t:", s, 0);
      Mismatch("s:", s, 0);
    }
  }

  /** The first colon after the prefix ends the id. */
  lemma AskTail(rid: Rid, tail: string)
    requires PlainRid(rid)
    ensures SplitVerdict("ask:" + rid + ":" + tail) == SplitTail(rid, tail)
  {
    hide SplitTail, SplitPage;
    var data := "ask:" + rid + ":" + tail;
    Front("ask:", rid + ":" + tail);
    assert data == "ask:" + (rid + ":" + tail);
    IndexBetween(rid, ':', tail);
    var rest := rid + ":" + tail;
    assert rest[..|rid|] == rid && rest[|rid| + 1..] == tail;
  }

  lemma TailParses(rid: Rid, i: int)
    requires 0 <= i <= MAX64
    ensures SplitTail(rid, Itoa(i)) == Some(Parsed(Pick, rid, [i]))
    ensures SplitTail(rid, "t:" + Itoa(i)) == Some(Parsed(Toggle, rid, [i]))
    ensures SplitTail(rid, "s:" + Itoa(i)) == Some(Parsed(Submit, rid, [i]))
  {
    var digits := Itoa(i);
    ItoaParses(i);
    DigitsTrim(digits);
    hide Atoi, TrimSpace, Itoa, AllDigits;
    Front("t:", digits);
    Front("s:", digits);
    Mismatch("t:", "s:" + digits, 0);
    SplitNone(digits, ',');
    hide Split;
    assert ParseIndices([digits]) == Some([i]) by {
      assert [digits][0] == digits && [digits][1..] == [];
      assert [i] + [] == [i];
    }
  }

  lemma AskDataParses(rid: Rid, i: int)
    requires PlainRid(rid) && 0 <= i <= MAX64
    ensures SplitVerdict(AskData(rid, "", i)) == Some(Parsed(Pick, rid, [i]))
    ensures SplitVerdict(AskData(rid, "t:", i)) == Some(Parsed(Toggle, rid, [i]))
    ensures SplitVerdict(AskData(rid, "s:", i)) == Some(Parsed(Submit, rid, [i]))
  {
    TailParses(rid, i);
    var digits := Itoa(i);
    hide SplitVerdict, SplitTail, Itoa;
    AskTail(rid, digits);
    AskTail(rid, "t:" + digits);
    AskTail(rid, "s:" + digits);
    assert "" + digits == digits;
  }

  lemma PageDataParses(rid: Rid, page: int)
    requires rid != "" && 0 <= page <= MAX64
    ensures SplitVerdict(PageData(rid, page)) == Some(Parsed(Page, rid, [page]))
  {
    ItoaParses(page);
    DigitsTrim(Itoa(page));
    var data := PageData(rid, page);
    assert data[0] == 'p' && data[5..] == rid + ":" + Itoa(page);
    LastIndexBetween(rid, ':', Itoa(page));
    assert data[5..][|rid| + 1..] == Itoa(page) && data[5..][..|rid|] == rid;
  }

  lemma PlainDataParses(rid: Rid)
    ensures SplitVerdict("approve:" + rid) == Some(Parsed(PressApprove, rid, []))
    ensures SplitVerdict("deny:" + rid) == Some(Parsed(PressDeny, rid, []))
    ensures SplitVerdict("ack:" + rid) == Some(Parsed(PressAck, rid, []))
    ensures SplitVerdict("noop") == None
  {
    hide SplitAsk, SplitPage;
    Front("approve:", rid);
    Front("deny:", rid);
    Front("ack:", rid);
    Other("approve:" + rid, 1);
    Other("deny:" + rid, 0);
    Other("ack:" + rid, 1);
    Other("noop", 0);
    Mismatch("approve:", "deny:" + rid, 0);
    Mismatch("approve:", "ack:" + rid, 1);
    Mismatch("deny:", "ack:" + rid, 0);
    Mismatch("approve:", "noop", 0);
    Mismatch("deny:", "noop", 0);
    Mismatch("ack:", "noop", 0);
  }

  /** Neither a question nor a pager press. */
  lemma Other(s: string, k: nat)
    requires k < 2 && k < |s| && s[k] != "ask:"[k] && s[k] != "page:"[k]
    ensures !("ask:" <= s) && !("page:" <= s)
  {
    Mismatch("ask:", s, k);
    Mismatch("page:", s, k);
  }

  // ----- Keyboards -----------------------------------------------------------------------------------

  /** The approve and deny buttons, and the acknowledge button of a notice. */
  method ApprovalButtons(rid: Rid) returns (row: seq<string>)
    ensures |row| == 2
    ensures SplitVerdict(row[0]) == Some(Parsed(PressApprove, rid, []))
          && SplitVerdict(row[1]) == Some(Parsed(PressDeny, rid, []))
  {
    PlainDataParses(rid);
    row := ["approve:" + rid, "deny:" + rid];
  }

  method NotifyButton(rid: Rid) returns (data: string)
    ensures SplitVerdict(data) == Some(Parsed(PressAck, rid, []))
  {
    PlainDataParses(rid);
    data := "ack:" + rid;
  }

  lemma Spelled(rid: Rid, i: int)
    ensures "ask:" + rid + ":" + Itoa(i) == AskData(rid, "", i)
    ensures "ask:" + rid + ":t:" + Itoa(i) == AskData(rid, "t:", i)
    ensures "ask:" + rid + ":s:" + Itoa(i) == AskData(rid, "s:", i)
  {
    var digits := Itoa(i);
    hide Itoa;
    assert "" + digits == digits;
    assert ":t:" == ":" + "t:" && ":s:" == ":" + "s:";
    assert "ask:" + rid + ":t:" + digits == "ask:" + rid + ":" + ("t:" + digits);
    assert "ask:" + rid + ":s:" + digits == "ask:" + rid + ":" + ("s:" + digits);
  }

  lemma {:induction false} DistinctAtMost(s: seq<int>)
    ensures |set i | i in s| <= |s|
  {
    if s == [] {
      assert (set i | i in s) == {};
    } else {
      DistinctAtMost(s[1..]);
      assert (set i | i in s) == (set i | i in s[1..]) + {s[0]};
    }
  }

  /** One row per option, in order, and for a multi-select question a submit row with the count. */
  method AskButtons(rid: Rid, options: seq<string>, multi: bool, selected: seq<int>) returns (rows: seq<string>)
    requires |options| <= MAX64 && |selected| <= MAX64
    ensures |rows| == |options| + if multi then 1 else 0
    ensures PlainRid(rid) ==> forall i | 0 <= i < |options| ::
              SplitVerdict(rows[i]) == Some(Parsed(if multi then Toggle else Pick, rid, [i]))
    ensures PlainRid(rid) && multi ==>
              SplitVerdict(rows[|options|]) == Some(Parsed(Submit, rid, [|set i | i in selected|]))
  {
    hide AskData, SplitVerdict, PlainRid, Itoa;
    rows := [];
    var i := 0;
    while i < |options|
      invariant 0 <= i <= |options| && |rows| == i
      invariant forall k | 0 <= k < i :: rows[k] == AskData(rid, if multi then "t:" else "", k)
    {
      var data := "ask:" + rid + ":" + Itoa(i);
      if multi {
        data := "ask:" + rid + ":t:" + Itoa(i);
      }
      Spelled(rid, i);
      rows := rows + [data];
      i := i + 1;
    }
    var chosen := set i | i in selected;
    if multi {
      rows := rows + ["ask:" + rid + ":s:" + Itoa(|chosen|)];
      Spelled(rid, |chosen|);
    }
    if PlainRid(rid) {
      forall k | 0 <= k < |options|
        ensures SplitVerdict(rows[k]) == Some(Parsed(if multi then Toggle else Pick, rid, [k]))
      {
        AskDataParses(rid, k);
      }
      DistinctAtMost(selected);
      AskDataParses(rid, |chosen|);
    }
  }

  /** The pager row of a page, clamped into the list: previous, position, next. */
  method PagedButtons(rid: Rid, page: int, pages: int) returns (nav: seq<string>)
    requires pages <= MAX64
    ensures pages <= 1 ==> nav == []
    ensures pages > 1 && rid != "" ==>
              var cur := if page < 0 then 0 else if page >= pages then pages - 1 else page;
              && (forall b | b in nav :: b == "noop" || exists p | 0 <= p < pages && (p == cur - 1 || p == cur + 1) ::
                    SplitVerdict(b) == Some(Parsed(Page, rid, [p])))
              && (cur > 0 ==> PageData(rid, cur - 1) in nav)
              && (cur + 1 < pages ==> PageData(rid, cur + 1) in nav)
  {
    hide SplitVerdict, Itoa;
    nav := [];
    if pages <= 1 {
      return;
    }
    var cur := page;
    if cur < 0 {
      cur := 0;
    }
    if cur >= pages {
      cur := pages - 1;
    }
    if cur > 0 {
      nav := nav + ["page:" + rid + ":" + Itoa(cur - 1)];
      if rid != "" {
        PageDataParses(rid, cur - 1);
      }
    }
    nav := nav + ["noop"];
    if cur + 1 < pages {
      nav := nav + ["page:" + rid + ":" + Itoa(cur + 1)];
      if rid != "" {
        PageDataParses(rid, cur + 1);
      }
    }
  }

  lemma {:induction false} IndicesAreNatural(parts: seq<string>)
    ensures var r := ParseIndices(parts); r.Some? ==> |r.value| == |parts| && forall i | i in r.value :: i >= 0
  {
    if parts != [] {
      IndicesAreNatural(parts[1..]);
      hide Atoi, TrimSpace;
    }
  }

  /** Whatever is sent back, no parsed press names a negative index; a pick names at least one, and toggles,
      submits and page turns exactly one. */
  lemma ParsedIndices(data: string)
    ensures var v := SplitVerdict(data); v.Some? ==>
              && (forall i | i in v.value.idxs :: i >= 0)
              && (v.value.action == Pick ==> v.value.idxs != [])
              && (v.value.action in {Toggle, Submit, Page} ==> |v.value.idxs| == 1)
  {
    if "ask:" <= data {
      var rest := data[4..];
      var sep := Index(rest, ':');
      if 0 < sep < |rest| {
        IndicesAreNatural(Split(rest[sep + 1..], ','));
      }
    }
    hide Atoi, Index, LastIndex, Split, ParseIndices;
  }
}
