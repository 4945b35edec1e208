/** The on-disk store as the daemon drives it, and the cancel call that is built on it. */
module Store {
  import opened Records
  import opened Protocol
  import opened Invariant
  import opened Queries
  import opened Cancelling

  datatype PendingItem = PendingItem(id: Rid, expiresIn: int, step: RecStep)

  datatype RecentItem = RecentItem(id: Rid, decision: string)

  function StepShown(rec: PendingRecord): RecStep {
    if rec.petition.step == Confirm then Confirm else Initial
  }

  /** The rows of a listing, in directory order. */
  function ListRows(d: Disk, dir: seq<Rid>, now: int): seq<PendingItem> {
    if dir == [] then []
    else
      var last := dir[|dir| - 1];
      var rest := ListRows(d, dir[..|dir| - 1], now);
      if Listed(d, now, last)
      then rest + [PendingItem(last, d.recs[last].petition.expires - now, StepShown(d.recs[last]))]
      else rest
  }

  /** Exactly the ids the listing filter passes have a row, in directory order and with the time they have
      left. */
  lemma {:induction false} ListRowsAre(d: Disk, dir: seq<Rid>, now: int)
    ensures forall rid :: (exists k | 0 <= k < |ListRows(d, dir, now)| :: ListRows(d, dir, now)[k].id == rid) <==>
                          rid in dir && Listed(d, now, rid)
    ensures forall k | 0 <= k < |ListRows(d, dir, now)| :: var row := ListRows(d, dir, now)[k];
              row.id in d.recs && row.expiresIn == d.recs[row.id].petition.expires - now > 0
  {
    if dir != [] {
      var init, last := dir[..|dir| - 1], dir[|dir| - 1];
      var rest, rows := ListRows(d, init, now), ListRows(d, dir, now);
      ListRowsAre(d, init, now);
      assert forall rid :: rid in dir <==> rid in init || rid == last;
      assert forall k | 0 <= k < |rest| :: rows[k] == rest[k];
      if Listed(d, now, last) {
        assert rows[|rest|].id == last;
      }
    }
  }

  /** Any number of exclusive writers, one after the other. */
  function Attempts<T>(files: map<Rid, Once<T>>, rid: Rid, contents: seq<T>): map<Rid, Once<T>> {
    if contents == [] then files else WriteOnce(Attempts(files, rid, contents[..|contents| - 1]), rid,
      contents[|contents| - 1])
  }

  /** The first writer's content stays, and a file that was there keeps what it had. */
  lemma {:induction false} FirstWriterWins<T>(files: map<Rid, Once<T>>, rid: Rid, contents: seq<T>)
    ensures Attempts(files, rid, contents)
         == if rid in files || contents == [] then files else files[rid := Holds(contents[0])]
  {
    if contents != [] {
      FirstWriterWins(files, rid, contents[..|contents| - 1]);
    }
  }

  /** Updates one after the other; one whose guard fails changes nothing. */
  function AllEdited(rec: PendingRecord, edits: seq<Edit>): PendingRecord {
    if edits == [] then rec
    else
      var before := AllEdited(rec, edits[..|edits| - 1]);
      var after := Edited(before, edits[|edits| - 1]);
      if after.Some? then after.value else before
  }

  /** The first URL that is not empty, if any. */
  function FirstUrl(edits: seq<Edit>): string {
    if edits == [] then ""
    else
      var earlier := FirstUrl(edits[..|edits| - 1]);
      var last := edits[|edits| - 1];
      if earlier == "" && last.SetAuthUrl? then last.url else earlier
  }

  /** Whatever updates follow each other, the petition and the pin stay, and the first challenge URL wins. */
  lemma {:induction false} EditsKeep(rec: PendingRecord, edits: seq<Edit>)
    ensures var after := AllEdited(rec, edits);
      && after.petition == rec.petition && after.suspend == rec.suspend
      && after.authUrl == if rec.authUrl != "" then rec.authUrl else FirstUrl(edits)
  {
    if edits != [] {
      EditsKeep(rec, edits[..|edits| - 1]);
    }
  }

  /** The history rows of the chosen file groups, in their order. */
  function RecentRows(d: Disk, dir: seq<Rid>, chosen: seq<(Rid, int)>): seq<RecentItem> {
    if chosen == [] then []
    else
      var (rid, _) := chosen[|chosen| - 1];
      var rest := RecentRows(d, dir, chosen[..|chosen| - 1]);
      var decision := RecentDecision(d, dir, rid);
      if decision.Some? then rest + [RecentItem(rid, decision.value)] else rest
  }

  // ----- Newest first ----------------------------------------------------------------------------

  predicate NewestFirst(s: seq<(Rid, int)>) {
    forall i, j | 0 <= i < j < |s| :: s[i].1 >= s[j].1
  }

  function InsertByAge(s: seq<(Rid, int)>, x: (Rid, int)): seq<(Rid, int)> {
    if s == [] then [x]
    else if x.1 > s[0].1 then [x] + s
    else [s[0]] + InsertByAge(s[1..], x)
  }

  /** Sorting by modification time, newest first. */
  function SortByAge(s: seq<(Rid, int)>): seq<(Rid, int)> {
    if s == [] then [] else InsertByAge(SortByAge(s[..|s| - 1]), s[|s| - 1])
  }

  function Newest(s: seq<(Rid, int)>, x: (Rid, int)): int {
    if s == [] || s[0].1 < x.1 then x.1 else s[0].1
  }

  lemma {:induction false} InsertKeepsOrder(s: seq<(Rid, int)>, x: (Rid, int))
    requires NewestFirst(s)
    ensures var r := InsertByAge(s, x); NewestFirst(r) && forall k | 0 <= k < |r| :: r[k].1 <= Newest(s, x)
  {
    if s != [] && x.1 <= s[0].1 {
      InsertKeepsOrder(s[1..], x);
    }
  }

  lemma {:induction false} InsertKeepsAll(s: seq<(Rid, int)>, x: (Rid, int))
    ensures multiset(InsertByAge(s, x)) == multiset(s) + multiset{x}
  {
    if s != [] && x.1 <= s[0].1 {
      InsertKeepsAll(s[1..], x);
      assert s == [s[0]] + s[1..];
    }
  }

  lemma {:induction false} SortSorts(s: seq<(Rid, int)>)
    ensures multiset(SortByAge(s)) == multiset(s) && NewestFirst(SortByAge(s))
  {
    if s != [] {
      var init := s[..|s| - 1];
      SortSorts(init);
      InsertKeepsOrder(SortByAge(init), s[|s| - 1]);
      InsertKeepsAll(SortByAge(init), s[|s| - 1]);
      assert s == init + [s[|s| - 1]];
    }
  }

  predicate DistinctIds(s: seq<(Rid, int)>) {
    forall i, j | 0 <= i < j < |s| :: s[i].0 != s[j].0
  }

  function Ids(s: seq<(Rid, int)>): set<Rid> {
    set i | 0 <= i < |s| :: s[i].0
  }

  // ----- The store -----------------------------------------------------------------------------------

  class Store {
    var recs: map<Rid, PendingRecord>
    var verdicts: map<Rid, Once<VerdictRecord>>
    var cancels: map<Rid, Once<CancelRecord>>
    var acks: map<Rid, Once<AckRecord>>
    var selections: map<Rid, Once<SelectionRecord>>
    var results: map<Rid, RunResult>

    function View(): Disk
      reads this
    {
      Disk(recs, verdicts, cancels, acks, selections, results)
    }

    constructor ()
      ensures View() == EmptyDisk
    {
      recs, verdicts, cancels, acks, selections, results := map[], map[], map[], map[], map[], map[];
    }

    method Save(rec: PendingRecord, rid: Rid)
      modifies this`recs
      ensures View() == SaveRec(old(View()), rid, rec)
    {
      recs := recs[rid := rec];
    }

    /** The body of the helpers that load, change and save back; `edit` says which. */
    method Update(rid: Rid, edit: Edit) returns (saved: bool)
      modifies this`recs
      ensures saved <==> rid in old(recs) && Edited(old(recs)[rid], edit).Some?
      ensures View() == if saved then SaveRec(old(View()), rid, Edited(old(recs)[rid], edit).value) else old(View())
    {
      if rid !in recs {
        return false;
      }
      var rec := recs[rid];
      match edit {
        case AttachPager(chat, msg) => rec := rec.(chatId := chat, msgId := msg);
        case SetAuthUrl(url) =>
          if url == "" || rec.authUrl != "" {
            return false;
          }
          rec := rec.(authUrl := url);
        case SetPageList(title, lines) => rec := rec.(summary := title, pageLines := lines);
        case SetSelectedIdxs(idxs) =>
          if rec.petition.kind != Ask || !rec.petition.multiSelect {
            return false;
          }
          rec := rec.(selectedIdxs := idxs);
      }
      Save(rec, rid);
      return true;
    }

    /** One verdict wins: the exclusive create fails for every later one. */
    method Consume(rid: Rid, decision: Decision, who: string) returns (won: bool)
      modifies this`verdicts
      ensures won <==> rid !in old(verdicts)
      ensures View() == Cancelling.Consume(old(View()), rid, VerdictRecord(decision, who))
    {
      won := rid !in verdicts;
      if won {
        verdicts := verdicts[rid := Holds(VerdictRecord(decision, who))];
      }
    }

    /** First acknowledgement wins, on notices only. */
    method Ack(rid: Rid, who: string) returns (won: bool)
      modifies this`acks
      ensures won <==> rid in recs && recs[rid].petition.kind == Notify && rid !in old(acks)
      ensures View() == old(View()).(acks := if won then old(acks)[rid := Holds(AckRecord(who))] else old(acks))
    {
      won := rid in recs && recs[rid].petition.kind == Notify && rid !in acks;
      if won {
        acks := acks[rid := Holds(AckRecord(who))];
      }
    }

    /** First answer wins, on questions only. */
    method Select(rid: Rid, sel: SelectionRecord) returns (won: bool)
      modifies this`selections
      ensures won <==> rid in recs && recs[rid].petition.kind == Ask && rid !in old(selections)
      ensures View() == old(View()).(selections := if won then old(selections)[rid := Holds(sel)] else old(selections))
    {
      won := rid in recs && recs[rid].petition.kind == Ask && rid !in selections;
      if won {
        selections := selections[rid := Holds(sel)];
      }
    }

    method Cancel(rid: Rid, who: string, reason: string) returns (won: bool)
      modifies this`cancels
      ensures won <==> rid in recs && rid !in old(cancels)
      ensures View() == FileCancel(old(View()), rid, CancelRecord(who, reason))
    {
      won := rid in recs && rid !in cancels;
      if won {
        cancels := cancels[rid := Holds(CancelRecord(who, reason))];
      }
    }

    method SaveResult(rid: Rid, exit: int, output: string)
      modifies this`results
      ensures View() == Records.SaveResult(old(View()), rid, exit, output)
    {
      results := results[rid := RunResult(exit, Truncated(output))];
    }

    /** Walks the directory for the first record confirming `parent`. */
    method FindConfirmation(dir: seq<Rid>, parent: Rid) returns (child: Option<Rid>)
      ensures child == Queries.FindConfirmation(View(), dir, parent)
    {
      var i := 0;
      while i < |dir|
        invariant 0 <= i <= |dir|
        invariant Queries.FindConfirmation(View(), dir, parent) == Queries.FindConfirmation(View(), dir[i..], parent)
      {
        if dir[i] in recs && recs[dir[i]].petition.confirmOf == Some(parent) {
          return Some(dir[i]);
        }
        i := i + 1;
      }
      return None;
    }

    method List(dir: seq<Rid>, now: int) returns (out: seq<PendingItem>)
      ensures out == ListRows(View(), dir, now)
      ensures forall rid :: (exists k | 0 <= k < |out| :: out[k].id == rid) <==> rid in dir && Listed(View(), now, rid)
    {
      ListRowsAre(View(), dir, now);
      out := [];
      var i := 0;
      while i < |dir|
        invariant 0 <= i <= |dir|
        invariant out == ListRows(View(), dir[..i], now)
      {
        var rid := dir[i];
        assert dir[..i + 1][..i] == dir[..i];
        i := i + 1;
        if Read(verdicts, rid).Some? || Read(acks, rid).Some? || Read(selections, rid).Some?
           || Read(cancels, rid).Some? || rid !in recs || recs[rid].petition.expires <= now {
          continue;
        }
        out := out + [PendingItem(rid, recs[rid].petition.expires - now, StepShown(recs[rid]))];
      }
      assert dir[..i] == dir;
    }

    /** The decided petitions, newest first. `files` are the verdict, acknowledgement, selection and
        cancel files in directory order with their modification times. */
    method Recent(files: seq<(Rid, int)>, dir: seq<Rid>, limit: int)
      returns (out: seq<RecentItem>, chosen: seq<(Rid, int)>)
      ensures out == RecentRows(View(), dir, chosen)
      ensures NewestFirst(chosen) && DistinctIds(chosen)
      ensures |chosen| == AtMost(RecentCap(limit), |Ids(files)|)
      ensures forall c | c in chosen :: FirstOf(files, c)
      ensures forall c, f | c in chosen && FirstOf(files, f) && f !in chosen :: c.1 >= f.1
    {
      chosen := NewestOf(files, RecentCap(limit));
      out := [];
      var i := 0;
      while i < |chosen|
        invariant 0 <= i <= |chosen|
        invariant out == RecentRows(View(), dir, chosen[..i])
      {
        assert chosen[..i + 1][..i] == chosen[..i];
        var decision := RecentDecision(View(), dir, chosen[i].0);
        if decision.Some? {
          out := out + [RecentItem(chosen[i].0, decision.value)];
        }
        i := i + 1;
      }
      assert chosen[..i] == chosen;
    }
  }

  function RecentCap(limit: int): nat {
    if limit <= 0 || limit > 50 then 10 else limit
  }

  function AtMost(cap: nat, n: nat): nat {
    if n > cap then cap else n
  }

  /** The first entry of its id in directory order. */
  ghost predicate FirstOf(files: seq<(Rid, int)>, c: (Rid, int)) {
    exists i | 0 <= i < |files| :: files[i] == c && forall j | 0 <= j < i :: files[j].0 != c.0
  }

  lemma NextFirst(files: seq<(Rid, int)>, i: nat, c: (Rid, int))
    requires i < |files|
    ensures FirstOf(files[..i + 1], c) <==> FirstOf(files[..i], c) || (c == files[i] && c.0 !in Ids(files[..i]))
  {
    var before, now := files[..i], files[..i + 1];
    assert forall k | 0 <= k < i :: before[k] == now[k];
    assert now[i] == files[i];
    if FirstOf(before, c) {
      var k :| 0 <= k < |before| && before[k] == c && forall j | 0 <= j < k :: before[j].0 != c.0;
      assert now[k] == c;
    }
    if FirstOf(now, c) {
      var k :| 0 <= k < |now| && now[k] == c && forall j | 0 <= j < k :: now[j].0 != c.0;
      if k < i {
        assert before[k] == c;
      }
    }
    if c == files[i] && c.0 !in Ids(before) {
      assert now[i] == c;
      assert forall j | 0 <= j < i :: before[j].0 in Ids(before);
    }
  }

  /** One entry per id, the first one met in the directory. */
  method OnePerId(files: seq<(Rid, int)>) returns (found: seq<(Rid, int)>)
    ensures DistinctIds(found) && Ids(found) == Ids(files)
    ensures forall c :: c in found <==> FirstOf(files, c)
  {
    found := [];
    var i := 0;
    while i < |files|
      invariant 0 <= i <= |files|
      invariant DistinctIds(found) && Ids(found) == Ids(files[..i])
      invariant forall c :: c in found <==> FirstOf(files[..i], c)
    {
      var dup := false;
      var k := 0;
      while k < |found| && !dup
        invariant 0 <= k <= |found|
        invariant dup <==> exists j | 0 <= j < k :: found[j].0 == files[i].0
      {
        dup := found[k].0 == files[i].0;
        k := k + 1;
      }
      AddId(files, i);
      forall c ensures FirstOf(files[..i + 1], c)
        <==> FirstOf(files[..i], c) || (c == files[i] && c.0 !in Ids(files[..i])) {
        NextFirst(files, i, c);
      }
      hide FirstOf;
      if !dup {
        GrowIds(found, files[i]);
        found := found + [files[i]];
      }
      i := i + 1;
    }
    assert files[..i] == files;
  }

  method NewestOf(files: seq<(Rid, int)>, cap: nat) returns (chosen: seq<(Rid, int)>)
    ensures NewestFirst(chosen) && DistinctIds(chosen)
    ensures |chosen| == AtMost(cap, |Ids(files)|)
    ensures forall c | c in chosen :: FirstOf(files, c)
    ensures forall c, f | c in chosen && FirstOf(files, f) && f !in chosen :: c.1 >= f.1
  {
    var found := OnePerId(files);
    var sorted := SortByAge(found);
    SortSorts(found);
    SameIds(found, sorted);
    CountIds(sorted);
    hide FirstOf, SortByAge, Ids, NewestFirst, DistinctIds;
    SameEntries(found, sorted);
    var n := if |sorted| > cap then cap else |sorted|;
    TopIsNewest(sorted, n);
    chosen := sorted[..n];
  }

  lemma SameEntries(s: seq<(Rid, int)>, t: seq<(Rid, int)>)
    requires multiset(s) == multiset(t)
    ensures forall c :: c in t <==> c in s
  {
    forall c ensures c in t <==> c in s {
      assert c in t <==> c in multiset(t);
      assert c in s <==> c in multiset(s);
    }
  }

  lemma TopIsNewest(s: seq<(Rid, int)>, n: nat)
    requires NewestFirst(s) && DistinctIds(s) && n <= |s|
    ensures NewestFirst(s[..n]) && DistinctIds(s[..n]) && |s[..n]| == n
    ensures forall c | c in s[..n] :: c in s
    ensures forall c, f | c in s[..n] && f in s && f !in s[..n] :: c.1 >= f.1
  {
    assert forall k | 0 <= k < n :: s[k] in s[..n];
    forall c, f | c in s[..n] && f in s && f !in s[..n] ensures c.1 >= f.1 {
      var i :| 0 <= i < n && s[..n][i] == c;
      var j :| 0 <= j < |s| && s[j] == f;
      assert s[i] == c && n <= j;
    }
  }

  // ----- Facts about ids ------------------------------------------------------------------------------

  lemma AddId(files: seq<(Rid, int)>, i: nat)
    requires i < |files|
    ensures Ids(files[..i + 1]) == Ids(files[..i]) + {files[i].0}
  {
    assert files[..i + 1] == files[..i] + [files[i]];
    GrowIds(files[..i], files[i]);
  }

  lemma GrowIds(s: seq<(Rid, int)>, x: (Rid, int))
    ensures Ids(s + [x]) == Ids(s) + {x.0}
  {
    forall r | r in Ids(s) + {x.0} ensures r in Ids(s + [x]) {
      if r in Ids(s) {
        var i :| 0 <= i < |s| && s[i].0 == r;
        assert (s + [x])[i].0 == r;
      } else {
        assert (s + [x])[|s|].0 == r;
      }
    }
  }

  lemma SameIds(s: seq<(Rid, int)>, t: seq<(Rid, int)>)
    requires multiset(s) == multiset(t) && DistinctIds(s)
    ensures Ids(s) == Ids(t) && DistinctIds(t)
  {
    assert forall x :: x in s <==> x in multiset(s);
    assert forall x :: x in t <==> x in multiset(t);
    forall r ensures r in Ids(s) <==> r in Ids(t) {
      if r in Ids(s) {
        var i :| 0 <= i < |s| && s[i].0 == r;
        assert s[i] in t;
      }
      if r in Ids(t) {
        var i :| 0 <= i < |t| && t[i].0 == r;
        assert t[i] in s;
      }
    }
    forall i, j | 0 <= i < j < |t| ensures t[i].0 != t[j].0 {
      if t[i].0 == t[j].0 {
        assert t[i] in s && t[j] in s;
        assert t[i] == t[j];
        assert t == t[..j] + [t[j]] + t[j + 1..];
        assert t[i] in t[..j];
        assert multiset(t)[t[j]] >= 2;
        OnceOnly(s, t[j]);
      }
    }
  }

  lemma {:induction false} OnceOnly(s: seq<(Rid, int)>, x: (Rid, int))
    requires DistinctIds(s)
    ensures multiset(s)[x] <= 1
  {
    if s != [] {
      var init := s[..|s| - 1];
      assert s == init + [s[|s| - 1]];
      OnceOnly(init, x);
      if x == s[|s| - 1] {
        assert x !in init;
      }
    }
  }

  lemma {:induction false} CountIds(s: seq<(Rid, int)>)
    requires DistinctIds(s)
    ensures |Ids(s)| == |s|
  {
    if s != [] {
      var init := s[..|s| - 1];
      assert s == init + [s[|s| - 1]];
      CountIds(init);
      GrowIds(init, s[|s| - 1]);
      assert s[|s| - 1].0 !in Ids(init);
    } else {
      assert Ids(s) == {};
    }
  }

  // ----- The cancel call --------------------------------------------------------------------------------

  class Service {
    const store: Store
    const daemon: nat
    /** Process groups the daemon holds stopped. */
    var stopped: set<nat>

    constructor (store: Store, daemon: nat)
      ensures this.store == store && this.daemon == daemon && stopped == {}
    {
      this.store := store;
      this.daemon := daemon;
      this.stopped := {};
    }

    method ResumeStored(rid: Rid)
      modifies this`stopped
      ensures stopped == old(stopped) - StoredPin(store.View(), rid)
    {
      if rid !in store.recs {
        return;
      }
      var pin := store.recs[rid].suspend;
      if pin.Some? && pin.value.suspended {
        stopped := stopped - {pin.value.pgid};
      }
    }

    /** Files the cancellation of one record and resumes the group stored on it. */
    method CancelRecordOf(rid: Rid, q: CancelRequest)
      modifies this`stopped, store
      ensures store.View() == CancelOne(old(store.View()), rid, q)
      ensures stopped == old(stopped) - StoredPin(old(store.View()), rid)
    {
      var _ := store.Cancel(rid, q.who, q.reason);
      var _ := store.Consume(rid, Cancelled, q.who);
      store.SaveResult(rid, -1, "cancelled");
      ResumeStored(rid);
    }

    /** Ends a pending, confirming or waiting petition. */
    method Cancel(q: CancelRequest, dir: seq<Rid>, now: int) returns (response: CancelResponse)
      requires q.daemon == daemon
      modifies this`stopped, store
      ensures var o := CancelOutcome(old(store.View()), dir, q, now);
        response == o.response && store.View() == o.disk && stopped == old(stopped) - o.resumed
      ensures q.rid != "" && q.rid in old(store.recs) ==>
                (response.error == "unauthorized" <==>
                 q.caller != 0 && q.caller != daemon && q.caller != old(store.recs[q.rid].petition.uid))
      ensures response.error == "unauthorized" ==>
                !response.cancelled && store.View() == old(store.View()) && stopped == old(stopped)
    {
      if q.rid != "" && q.rid in store.recs {
        UnauthorizedIff(store.View(), dir, q, now);
      } else {
        UnknownIsNotFound(store.View(), dir, q, now);
      }
      hide CancelConfirm, CancelInitial, CancelOne, FindConfirmation;
      var rid := q.rid;
      if rid == "" {
        return CancelResponse(false, "missing id");
      }
      if rid !in store.recs {
        return CancelResponse(false, "not found");
      }
      var rec := store.recs[rid];
      if !IsAdmin(q) && q.caller != rec.petition.uid {
        return CancelResponse(false, "unauthorized");
      }
      if Read(store.cancels, rid).Some? {
        return CancelResponse(true, "");
      }
      var v := Read(store.verdicts, rid);
      if v.Some? && v.value.decision == Cancelled {
        return CancelResponse(true, "");
      }
      if rec.petition.step == Confirm && rec.petition.confirmOf.Some? {
        if Read(store.cancels, rec.petition.confirmOf.value).Some? {
          return CancelResponse(true, "");
        }
      }
      if rec.petition.step == Initial {
        var child := store.FindConfirmation(dir, rid);
        if child.Some? && Read(store.cancels, child.value).Some? {
          return CancelResponse(true, "");
        }
      }
      if rec.petition.kind == Ask {
        if Read(store.selections, rid).Some? {
          return CancelResponse(false, "already decided");
        }
        if rec.petition.expires <= now {
          return CancelResponse(false, "already expired");
        }
        var _ := store.Cancel(rid, q.who, q.reason);
        return CancelResponse(true, "");
      }
      if rec.petition.kind == Notify {
        if Read(store.acks, rid).Some? {
          return CancelResponse(false, "already acknowledged");
        }
        if rec.petition.expires <= now {
          return CancelResponse(false, "already expired");
        }
        var _ := store.Cancel(rid, q.who, q.reason);
        return CancelResponse(true, "");
      }
      if rec.petition.step == Confirm {
        response := CancelConfirming(q, dir, now);
      } else {
        response := CancelWaiting(q, dir, now);
      }
    }

    method CancelConfirming(q: CancelRequest, dir: seq<Rid>, now: int) returns (response: CancelResponse)
      requires q.rid in store.recs
      modifies this`stopped, store
      ensures var o := CancelConfirm(old(store.View()), q, now);
        response == o.response && store.View() == o.disk && stopped == old(stopped) - o.resumed
    {
      var rec := store.recs[q.rid];
      var v := Read(store.verdicts, q.rid);
      if v.Some? && v.value.decision != Cancelled {
        return CancelResponse(false, "already decided");
      }
      if rec.petition.expires <= now {
        return CancelResponse(false, "already expired");
      }
      CancelRecordOf(q.rid, q);
      if rec.petition.confirmOf.Some? {
        CancelRecordOf(rec.petition.confirmOf.value, q);
      }
      return CancelResponse(true, "");
    }

    method CancelWaiting(q: CancelRequest, dir: seq<Rid>, now: int) returns (response: CancelResponse)
      requires q.rid in store.recs
      modifies this`stopped, store
      ensures var o := CancelInitial(old(store.View()), dir, q, now);
        response == o.response && store.View() == o.disk && stopped == old(stopped) - o.resumed
    {
      var v := Read(store.verdicts, q.rid);
      if v.Some? {
        if v.value.decision == Deny {
          return CancelResponse(false, "already denied");
        }
        if v.value.decision == Approve {
          var child := store.FindConfirmation(dir, q.rid);
          FoundIsChild(store.View(), dir, q.rid);
          if child.None? {
            return CancelResponse(false, "already executed");
          }
          var cv := Read(store.verdicts, child.value);
          if cv.Some? && cv.value.decision != Cancelled {
            return CancelResponse(false, "already decided");
          }
          if store.recs[child.value].petition.expires <= now {
            return CancelResponse(false, "already expired");
          }
          CancelRecordOf(child.value, q);
        }
      } else if store.recs[q.rid].petition.expires <= now {
        return CancelResponse(false, "already expired");
      }
      CancelRecordOf(q.rid, q);
      return CancelResponse(true, "");
    }
  }
}
