/** Paging through the append-only audit trail, newest event first. */
module Audit {
  import opened Records
  import opened Decimal
  import opened Text

  /** `time` is absent when the timestamp does not parse; `body` is everything no filter reads. */
  datatype AuditEvent = AuditEvent(ev: string, rid: Rid, uid: nat, time: Option<int>, body: string)

  datatype LogFile = Missing | Unreadable | Bytes(data: string)

  /** Empty strings and zeros leave a filter out. */
  datatype Filter = Filter(ev: string, id: string, uid: nat, since: int, until: int)

  datatype Reply = Reply(items: seq<AuditEvent>, next: string)

  /** What a line without its surrounding space decodes to, if it does. */
  type Decoder = string -> Option<AuditEvent>

  const DEFAULT_LIMIT := 50
  const MAX_LIMIT := 200

  /** The limit asked for where it is in bounds. */
  function Capped(limit: int): (n: nat)
    ensures 0 < n <= 200
    ensures 1 <= limit <= 200 ==> n == limit
    ensures (limit <= 0 ==> n == 50) && (limit > 200 ==> n == 200)
  {
    if limit <= 0 then DEFAULT_LIMIT else if limit > MAX_LIMIT then MAX_LIMIT else limit
  }

  predicate InWindow(time: Option<int>, f: Filter) {
    f.since != 0 || f.until != 0 ==>
      && time.Some?
      && (f.since == 0 || f.since <= time.value)
      && (f.until == 0 || time.value <= f.until)
  }

  predicate Matches(e: AuditEvent, f: Filter) {
    && (f.ev == "" || e.ev == f.ev)
    && (f.id == "" || e.rid == f.id)
    && (f.uid == 0 || e.uid == f.uid)
    && InWindow(e.time, f)
  }

  /** The event a line contributes to a filtered query. */
  function Hit(decode: Decoder, f: Filter, line: string): Option<AuditEvent> {
    var text := TrimSpace(line);
    if text == "" then None
    else
      var e := decode(text);
      if e.Some? && Matches(e.value, f) then e else None
  }

  /** All matching events of some lines, newest first. */
  function Hits(decode: Decoder, f: Filter, lines: seq<string>): seq<AuditEvent> {
    if lines == [] then []
    else
      var hit := Hit(decode, f, lines[|lines| - 1]);
      var older := Hits(decode, f, lines[..|lines| - 1]);
      if hit.Some? then [hit.value] + older else older
  }

  /** What a filter asks for: the event's kind, id and user, where they are given; and a time that parses and
      is within the bounds, where there are any. */
  predicate AskedFor(e: AuditEvent, f: Filter) {
    && (e.ev == f.ev || f.ev == "") && (e.rid == f.id || f.id == "") && (e.uid == f.uid || f.uid == 0)
    && (f.since != 0 ==> e.time.Some? && e.time.value >= f.since)
    && (f.until != 0 ==> e.time.Some? && e.time.value <= f.until)
  }

  lemma HitIs(decode: Decoder, f: Filter, line: string, e: AuditEvent)
    ensures Hit(decode, f, line) == Some(e) <==>
            TrimSpace(line) != "" && decode(TrimSpace(line)) == Some(e) && AskedFor(e, f)
  {
    hide TrimSpace;
  }

  /** The event stands in some line. */
  predicate Logged(decode: Decoder, lines: seq<string>, e: AuditEvent) {
    exists k | 0 <= k < |lines| :: TrimSpace(lines[k]) != "" && decode(TrimSpace(lines[k])) == Some(e)
  }

  lemma LoggedOnce(decode: Decoder, lines: seq<string>, e: AuditEvent)
    requires lines != []
    ensures var last := lines[|lines| - 1];
      Logged(decode, lines, e) <==>
        Logged(decode, lines[..|lines| - 1], e) || (TrimSpace(last) != "" && decode(TrimSpace(last)) == Some(e))
  {
    hide TrimSpace;
    assert forall k | 0 <= k < |lines| - 1 :: lines[..|lines| - 1][k] == lines[k];
  }

  /** Exactly the events of some line that the filter asks for are returned. */
  lemma {:induction false} HitsAre(decode: Decoder, f: Filter, lines: seq<string>, e: AuditEvent)
    ensures e in Hits(decode, f, lines) <==> Logged(decode, lines, e) && AskedFor(e, f)
  {
    if lines != [] {
      HitsAre(decode, f, lines[..|lines| - 1], e);
      HitIs(decode, f, lines[|lines| - 1], e);
      LoggedOnce(decode, lines, e);
      hide Hit, Logged, AskedFor, TrimSpace;
    }
  }

  /** How many lines lie below the n-th newest match. */
  function Below(decode: Decoder, f: Filter, lines: seq<string>, n: nat): nat {
    if n == 0 || lines == [] then |lines|
    else
      var hit := Hit(decode, f, lines[|lines| - 1]);
      Below(decode, f, lines[..|lines| - 1], if hit.Some? then n - 1 else n)
  }

  lemma {:induction false} BelowSplits(decode: Decoder, f: Filter, lines: seq<string>, n: nat)
    requires n <= |Hits(decode, f, lines)|
    ensures Below(decode, f, lines, n) <= |lines|
    ensures n > 0 ==> Below(decode, f, lines, n) < |lines|
    ensures Hits(decode, f, lines)
         == Hits(decode, f, lines)[..n] + Hits(decode, f, lines[..Below(decode, f, lines, n)])
  {
    if n == 0 || lines == [] {
      assert lines[..|lines|] == lines;
    } else {
      var init := lines[..|lines| - 1];
      var m: nat := if Hit(decode, f, lines[|lines| - 1]).Some? then n - 1 else n;
      BelowSplits(decode, f, init, m);
      assert init[..Below(decode, f, init, m)] == lines[..Below(decode, f, init, m)];
    }
  }

  /** One page over the lines still in reach of the cursor. */
  function PageOf(decode: Decoder, f: Filter, lines: seq<string>, n: nat): Reply {
    var hits := Hits(decode, f, lines);
    if |hits| < n then Reply(hits, "")
    else
      var left := Below(decode, f, lines, n);
      Reply(hits[..n], if left > 0 then Itoa(left - 1) else "")
  }

  /** The lines a cursor puts in reach: all of them for an empty one, those up to its number otherwise. */
  function Reach(lines: seq<string>, cursor: string): Option<seq<string>> {
    if cursor == "" then Some(lines)
    else
      var n := Atoi(cursor);
      if n.None? || n.value < 0 then None
      else if n.value >= |lines| then Some(lines)
      else Some(lines[..n.value + 1])
  }

  function Lines(log: LogFile): seq<string> {
    SplitAfter(if log.Bytes? then log.data else "")
  }

  function Answer(decode: Decoder, log: LogFile, f: Filter, limit: int, cursor: string): Reply {
    var reach := Reach(Lines(log), cursor);
    if log.Unreadable? || reach.None? then Reply([], "")
    else PageOf(decode, f, reach.value, Capped(limit))
  }

  lemma Opened(log: LogFile, cursor: string, start: int)
    requires var n := Atoi(cursor); var top := |Lines(log)| - 1;
      if cursor == "" then start == top
      else n.Some? && n.value >= 0 && start == if n.value > top then top else n.value
    ensures Reach(Lines(log), cursor) == Some(Lines(log)[..start + 1])
  {
    assert Lines(log)[..|Lines(log)|] == Lines(log);
  }

  lemma Filled(decode: Decoder, f: Filter, reach: seq<string>, items: seq<AuditEvent>, i: nat)
    requires i <= |reach| && items + Hits(decode, f, reach[..i]) == Hits(decode, f, reach)
    requires Below(decode, f, reach, |items|) == i
    ensures PageOf(decode, f, reach, |items|) == Reply(items, if i > 0 then Itoa(i - 1) else "")
  {
    hide Hits, Below;
  }

  lemma Short(decode: Decoder, f: Filter, reach: seq<string>, room: nat)
    requires |Hits(decode, f, reach)| < room
    ensures PageOf(decode, f, reach, room) == Reply(Hits(decode, f, reach), "")
  {
  }

  /** Walks the lines from the newest down until the page is full. */
  method ScanDown(decode: Decoder, lines: seq<string>, f: Filter, room: nat) returns (reply: Reply)
    requires room > 0
    ensures reply == PageOf(decode, f, lines, room)
  {
    hide Hit, PageOf;
    var items := [];
    var i := |lines| - 1;
    assert lines[..i + 1] == lines;
    while i >= 0
      invariant -1 <= i < |lines|
      invariant |items| < room
      invariant items + Hits(decode, f, lines[..i + 1]) == Hits(decode, f, lines)
      invariant Below(decode, f, lines[..i + 1], room - |items|) == Below(decode, f, lines, room)
      decreases i
    {
      assert lines[..i + 1][..i] == lines[..i];
      var hit := Hit(decode, f, lines[i]);
      if hit.Some? {
        items := items + [hit.value];
        if |items| == room {
          Filled(decode, f, lines, items, i);
          return Reply(items, if i > 0 then Itoa(i - 1) else "");
        }
      }
      i := i - 1;
    }
    assert lines[..0] == [];
    Short(decode, f, lines, room);
    reply := Reply(items, "");
  }

  method AuditQuery(decode: Decoder, log: LogFile, f: Filter, limit: int, cursor: string) returns (reply: Reply)
    ensures reply == Answer(decode, log, f, limit, cursor)
  {
    var room := limit;
    if room <= 0 {
      room := DEFAULT_LIMIT;
    }
    if room > MAX_LIMIT {
      room := MAX_LIMIT;
    }
    if log.Unreadable? {
      return Reply([], "");
    }
    var lines := Lines(log);
    var start := |lines| - 1;
    if cursor != "" {
      var n := Atoi(cursor);
      if n.None? || n.value < 0 {
        return Reply([], "");
      }
      start := n.value;
    }
    if start >= |lines| {
      start := |lines| - 1;
    }
    Opened(log, cursor, start);
    reply := ScanDown(decode, lines[..start + 1], f, room);
  }

  // ----- Following the cursor ------------------------------------------------------------------------

  /** Pages fetched one after the other, each from where the one before stopped; the log as it was at
      one page is a prefix of the log at the next. */
  predicate Chain(decode: Decoder, f: Filter, logs: seq<string>, limits: seq<int>, replies: seq<Reply>) {
    && |logs| == |limits| == |replies| > 0
    && var k := |replies| - 1;
       if k == 0 then replies[0] == Answer(decode, Bytes(logs[0]), f, limits[0], "")
       else
         && Chain(decode, f, logs[..k], limits[..k], replies[..k])
         && logs[k - 1] <= logs[k]
         && replies[k - 1].next != ""
         && replies[k] == Answer(decode, Bytes(logs[k]), f, limits[k], replies[k - 1].next)
  }

  function Gathered(replies: seq<Reply>): seq<AuditEvent> {
    if replies == [] then [] else Gathered(replies[..|replies| - 1]) + replies[|replies| - 1].items
  }

  /** How many of the first log's lines a reply leaves for later. */
  function Left(reply: Reply): int {
    if reply.next == "" then 0
    else
      var n := Atoi(reply.next);
      if n.Some? then n.value + 1 else 0
  }

  lemma PageLeaves(decode: Decoder, f: Filter, lines: seq<string>, n: nat)
    requires n > 0 && |lines| <= MAX64
    ensures var reply := PageOf(decode, f, lines, n);
      && |reply.items| <= n
      && (reply.next != "" ==>
         |reply.items| == n && 0 < Left(reply) < |lines| && Atoi(reply.next) == Some(Left(reply) - 1))
      && (reply.next == "" ==> Left(reply) == 0)
      && 0 <= Left(reply) <= |lines|
      && reply.items + Hits(decode, f, lines[..Left(reply)]) == Hits(decode, f, lines)
  {
    var hits := Hits(decode, f, lines);
    if n <= |hits| {
      BelowSplits(decode, f, lines, n);
      var left := Below(decode, f, lines, n);
      if left > 0 {
        ItoaParses(left - 1);
        hide Atoi, Itoa, Hits, Below;
        assert Itoa(left - 1) != "" && Left(PageOf(decode, f, lines, n)) == left;
      }
    }
    assert lines[..0] == [];
  }

  lemma FirstReach(decode: Decoder, f: Filter, log: string, limit: int)
    ensures Answer(decode, Bytes(log), f, limit, "") == PageOf(decode, f, SplitAfter(log), Capped(limit))
  {
  }

  /** A cursor into finished lines reaches the same lines in any longer log. */
  lemma SameReach(decode: Decoder, f: Filter, log: string, longer: string, limit: int, cursor: string, n: nat)
    requires log <= longer && Atoi(cursor) == Some(n) && n + 1 < |SplitAfter(log)|
    ensures Answer(decode, Bytes(longer), f, limit, cursor)
          == PageOf(decode, f, SplitAfter(log)[..n + 1], Capped(limit))
  {
    assert cursor != "";
    hide Hits, Below, PageOf, Atoi;
    assert longer == log + longer[|log|..];
    AppendKeepsLines(log, longer[|log|..]);
    var old_, now := SplitAfter(log), SplitAfter(longer);
    assert now[..n + 1] == now[..|old_| - 1][..n + 1] == old_[..n + 1];
  }

  /** What the pages so far hold, together with what the cursor still leads to, is the first log. */
  lemma {:induction false} ChainSoFar(decode: Decoder, f: Filter, logs: seq<string>, limits: seq<int>,
      replies: seq<Reply>)
    requires Chain(decode, f, logs, limits, replies)
    requires |SplitAfter(logs[0])| <= MAX64
    ensures var lines := SplitAfter(logs[0]); var last := replies[|replies| - 1];
      && logs[0] <= logs[|logs| - 1]
      && 0 <= Left(last) && |replies| <= |lines|
      && (last.next != "" ==> Left(last) + |replies| <= |lines|)
      && (last.next != "" ==> Atoi(last.next) == Some(Left(last) - 1) && Left(last) > 0)
      && (|replies| > 1 ==> Left(last) < Left(replies[|replies| - 2]))
      && Gathered(replies) + Hits(decode, f, lines[..Left(last)]) == Hits(decode, f, lines)
  {
    hide Hits, PageOf, SplitAfter, Atoi, Left, Reach, Answer;
    var lines, k := SplitAfter(logs[0]), |replies| - 1;
    if k == 0 {
      FirstReach(decode, f, logs[0], limits[0]);
      PageLeaves(decode, f, lines, Capped(limits[0]));
      assert Gathered(replies[..0]) == [];
      assert Gathered(replies) == replies[0].items;
    } else {
      ChainSoFar(decode, f, logs[..k], limits[..k], replies[..k]);
      var before := replies[k - 1];
      var left := Left(before);
      SameReach(decode, f, logs[0], logs[k], limits[k], before.next, left - 1);
      PageLeaves(decode, f, lines[..left], Capped(limits[k]));
      assert lines[..left][..Left(replies[k])] == lines[..Left(replies[k])];
    }
  }

  /** Following the cursor to its end yields exactly the events the trail held at the first query,
      newest first and each once, whatever is appended meanwhile and whatever the limits. */
  lemma ChainIsComplete(decode: Decoder, f: Filter, logs: seq<string>, limits: seq<int>, replies: seq<Reply>)
    requires Chain(decode, f, logs, limits, replies)
    requires |SplitAfter(logs[0])| <= MAX64
    requires replies[|replies| - 1].next == ""
    ensures Gathered(replies) == Hits(decode, f, SplitAfter(logs[0]))
  {
    ChainSoFar(decode, f, logs, limits, replies);
    assert SplitAfter(logs[0])[..0] == [];
  }

  /** The cursor strictly falls, so a chain has no more pages than the first log has lines. */
  lemma ChainEnds(decode: Decoder, f: Filter, logs: seq<string>, limits: seq<int>, replies: seq<Reply>)
    requires Chain(decode, f, logs, limits, replies)
    requires |SplitAfter(logs[0])| <= MAX64
    ensures |replies| <= |SplitAfter(logs[0])|
    ensures |replies| > 1 ==> Left(replies[|replies| - 1]) < Left(replies[|replies| - 2])
  {
    hide Chain, Left, SplitAfter;
    ChainSoFar(decode, f, logs, limits, replies);
  }
}
