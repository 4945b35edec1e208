/** Result texts that status takes for decisions: who can have left the word `cancelled` or a drift gate's
    text, and that it stays once it is there. */
module Texts {
  import opened Records
  import opened Protocol
  import opened Invariant
  import opened Preserve
  import opened Guarantees
  import opened Queries
  import opened Cancelling
  import opened Refinement
  import opened Cancellation

  /** A result that status reads as a decision: the word, or a drift gate's text at exit code -1. */
  predicate Loud(r: RunResult) {
    r.output == WORD || (r.exit == -1 && Drifted(r.output))
  }

  /** The record has a command, is approved, and so is its confirmation if it has one. */
  ghost predicate Excused(d: Disk, rid: Rid) {
    && rid in d.recs && Approved(d, rid) && d.recs[rid].petition.argv != []
    && forall c | ChildOf(d, c, rid) :: Approved(d, c)
  }

  function Ids(todo: seq<(Rid, RunResult)>): set<Rid> {
    set x | x in todo :: x.0
  }

  /** What a waiter still has to record: each id once, of its own family, and a loud result only for a
      cancelled petition or an approved one. */
  ghost predicate TodoOk(d: Disk, w: Waiter, todo: seq<(Rid, RunResult)>) {
    && (forall i, j | 0 <= i < j < |todo| :: todo[i].0 != todo[j].0)
    && (forall x | x in todo :: x.0 == w.rid || x.0 == w.root)
    && (forall x | x in todo && Loud(x.1) && CancelInfo(d, x.0).None? :: Excused(d, x.0))
  }

  ghost predicate WaiterSays(d: Disk, w: Waiter) {
    && (Chained(w) ==> ChildOf(d, w.rid, w.root))
    && (w.pc.Report? ==> TodoOk(d, w, w.pc.todo))
    && (w.pc.File? ==> TodoOk(d, w, w.pc.after))
  }

  /** A loud result of a petition that no cancel file marks. */
  predicate Bare(d: Disk, rid: Rid) {
    rid in d.results && Loud(d.results[rid]) && CancelInfo(d, rid).None?
  }

  /** Nobody of the family is going to write over it. */
  ghost predicate LastWord(s: State, rid: Rid) {
    && Excused(s.disk, rid)
    && forall i | i in s.waiters && s.waiters[i].root == Root(s.disk, rid) ::
         s.waiters[i].pc.Report? && rid !in Ids(s.waiters[i].pc.todo)
  }

  ghost predicate Voiced(s: State) {
    && (forall i | i in s.waiters :: WaiterSays(s.disk, s.waiters[i]))
    && (forall r | Bare(s.disk, r) :: LastWord(s, r))
  }

  // ----- Frames --------------------------------------------------------------------------------------

  lemma ExcusedStays(d: Disk, d': Disk, rid: Rid)
    requires DiskGrows(d, d') && Excused(d, rid)
    ensures Excused(d', rid)
  {
    forall c | ChildOf(d', c, rid) ensures Approved(d', c) {
      assert ChildOf(d, c, rid);
    }
  }

  lemma TodoStays(d: Disk, d': Disk, w: Waiter, todo: seq<(Rid, RunResult)>)
    requires DiskGrows(d, d') && TodoOk(d, w, todo)
    ensures TodoOk(d', w, todo)
  {
    forall x | x in todo && Loud(x.1) && CancelInfo(d', x.0).None?
      ensures Excused(d', x.0)
    {
      ExcusedStays(d, d', x.0);
    }
  }

  lemma SaysStays(d: Disk, d': Disk, w: Waiter)
    requires DiskGrows(d, d') && WaiterSays(d, w)
    ensures WaiterSays(d', w)
  {
    hide TodoOk;
    if w.pc.Report? {
      TodoStays(d, d', w, w.pc.todo);
    }
    if w.pc.File? {
      TodoStays(d, d', w, w.pc.after);
    }
  }

  /** Every bare result of the new disk was there before. */
  ghost predicate NoNewWord(d: Disk, d': Disk) {
    forall r | Bare(d', r) :: Bare(d, r)
  }

  /** Files are added, waiters at most go, and a loud result appears only with a cancel file. */
  lemma FrameVoices(s: State, s': State)
    requires Voiced(s) && DiskGrows(s.disk, s'.disk) && NoNewWord(s.disk, s'.disk)
    requires forall i | i in s'.waiters :: i in s.waiters && s'.waiters[i] == s.waiters[i]
    ensures Voiced(s')
  {
    forall i | i in s'.waiters ensures WaiterSays(s'.disk, s'.waiters[i]) {
      SaysStays(s.disk, s'.disk, s.waiters[i]);
    }
    forall r | Bare(s'.disk, r) ensures LastWord(s', r) {
      ExcusedStays(s.disk, s'.disk, r);
    }
  }

  /** A record without parent is added, perhaps with a waiter of its own. */
  lemma GainVoices(s: State, s': State, rid: Rid, rec: PendingRecord)
    requires Inv(s) && Voiced(s) && DiskGains(s.disk, s'.disk, rid, rec) && rec.petition.confirmOf.None?
    requires forall i | i in s'.waiters :: (i in s.waiters && s'.waiters[i] == s.waiters[i])
                                           || (s'.waiters[i].root == rid && s'.waiters[i].pc.Hold?
                                              && !Chained(s'.waiters[i]))
    ensures Voiced(s')
  {
    hide SpawnsOk, QueueOk, NoneForgotten, PinsOk, PetitionsKept, WaitersOk, Shaped;
    assert forall c, p :: ChildOf(s'.disk, c, p) <==> ChildOf(s.disk, c, p);
    assert forall r :: Excused(s.disk, r) ==> Excused(s'.disk, r);
    forall i | i in s'.waiters ensures WaiterSays(s'.disk, s'.waiters[i]) {
      if i in s.waiters && s'.waiters[i] == s.waiters[i] {
        assert WaiterSays(s.disk, s.waiters[i]);
      }
    }
    forall r | Bare(s'.disk, r) ensures LastWord(s', r) {
      assert Bare(s.disk, r) && LastWord(s, r);
      RootsAreSaved(s.disk, r);
    }
  }

  lemma AdoptVoices(s: State, s': State, rid: Rid, wid: nat)
    requires Inv(s) && Voiced(s) && Adopts(s, s', rid, wid)
    ensures Voiced(s')
  {
    hide SpawnsOk, QueueOk, NoneForgotten, PinsOk, PetitionsKept, WaitersOk;
    forall r | Bare(s'.disk, r) ensures LastWord(s', r) {
      assert LastWord(s, r);
      if Root(s.disk, r) == Root(s.disk, rid) && r != rid {
        FamilyUndecided(s.disk, rid, r);
      }
    }
    forall i | i in s'.waiters ensures WaiterSays(s'.disk, s'.waiters[i]) {
      if i != wid {
        assert WaiterSays(s.disk, s.waiters[i]);
      }
    }
  }

  /** One waiter moves on in whose family nothing loud is recorded yet. */
  lemma MoverVoices(s: State, s': State, wid: nat)
    requires Voiced(s) && wid in s.waiters && wid in s'.waiters
    requires s'.disk == s.disk && s'.waiters == s.waiters[wid := s'.waiters[wid]]
    requires s'.waiters[wid].root == s.waiters[wid].root && !s.waiters[wid].pc.Report?
    requires WaiterSays(s'.disk, s'.waiters[wid])
    ensures Voiced(s')
  {
    forall i | i in s'.waiters ensures WaiterSays(s'.disk, s'.waiters[i]) {
      if i != wid {
        assert WaiterSays(s.disk, s.waiters[i]);
      }
    }
    forall r | Bare(s'.disk, r) ensures LastWord(s', r) {
      assert LastWord(s, r);
    }
  }

  // ----- Moves ---------------------------------------------------------------------------------------

  lemma QuietTexts()
    ensures !Loud(RunResult(-1, "")) && !Loud(RunResult(0, "")) && !Loud(RunResult(-1, LOST_RECORD))
    ensures !Loud(RunResult(-1, "client_aborted")) && !Loud(RunResult(-1, "confirmation_timeout"))
  {
    PlainTexts();
    assert WORD[0] == 'c' && "client_aborted"[1] != WORD[1] && "confirmation_timeout"[1] != WORD[1];
  }

  lemma PairIds(a: (Rid, RunResult), b: (Rid, RunResult))
    ensures a in [a] && forall x | x in [a] :: x == a
    ensures [a] + [b] == [a, b] && forall x | x in [a, b] :: x == a || x == b
    ensures [a] + [] == [a]
  {
  }

  lemma QuietSays(d: Disk, w: Waiter, pc: Pc)
    requires WaiterSays(d, w) && !pc.Report? && !pc.File?
    ensures WaiterSays(d, w.(pc := pc))
  {
  }

  lemma CloseSays(d: Disk, w: Waiter, decision: Decision)
    requires Chained(w) ==> ChildOf(d, w.rid, w.root) && w.rid != w.root
    requires decision == Cancelled ==> CancelInfo(d, w.rid).Some? && (Chained(w) ==> CancelInfo(d, w.root).Some?)
    ensures WaiterSays(d, w.(pc := Close(w, decision)))
  {
    QuietTexts();
    hide Excused;
  }

  lemma RefuseSays(d: Disk, w: Waiter, reason: string)
    requires Chained(w) ==> ChildOf(d, w.rid, w.root) && w.rid != w.root
    requires Loud(RunResult(-1, reason)) ==> Excused(d, w.rid)
    ensures WaiterSays(d, w.(pc := Refuse(w, reason)))
  {
    QuietTexts();
    PairIds(Denied(w.rid, reason), (w.root, RunResult(0, "")));
    hide Excused;
  }

  lemma FinishSays(d: Disk, w: Waiter, exit: int, output: string)
    requires Chained(w) ==> ChildOf(d, w.rid, w.root) && w.rid != w.root
    requires Excused(d, w.rid) && (Chained(w) ==> Excused(d, w.root))
    ensures WaiterSays(d, w.(pc := Finish(w, exit, output)))
  {
    PairIds((w.rid, RunResult(exit, output)), (w.root, RunResult(exit, output)));
    hide Excused;
  }

  lemma GateIsExcused(s: State, wid: nat)
    requires Inv(s) && wid in s.waiters && s.waiters[wid].pc.Gate? && WaiterSays(s.disk, s.waiters[wid])
    ensures var w := s.waiters[wid]; Excused(s.disk, w.rid) && (Chained(w) ==> Excused(s.disk, w.root))
  {
    hide SpawnsOk, QueueOk, NoneForgotten, PinsOk, PetitionsKept;
    var w := s.waiters[wid];
    assert WaiterOk(s, w);
    if s.disk.recs[w.rid].petition.confirmOf.Some? {
      forall c ensures !ChildOf(s.disk, c, w.rid) {
      }
    }
  }

  lemma ChainedApart(s: State, w: Waiter)
    requires Families(s.disk) && Shaped(s.disk) && WaiterSays(s.disk, w)
    ensures Chained(w) ==> ChildOf(s.disk, w.rid, w.root) && w.rid != w.root
  {
  }

  lemma BranchSays(s: State, wid: nat)
    requires Settling(s.disk) && CancelsSeen(s) && Families(s.disk) && Shaped(s.disk)
    requires wid in s.waiters && s.waiters[wid].pc.Decided? && WaiterSays(s.disk, s.waiters[wid])
    ensures WaiterSays(s.disk, s.waiters[wid].(pc := Branched(s.cfg, s.waiters[wid])))
  {
    var w := s.waiters[wid];
    ChainedApart(s, w);
    hide Families, Shaped;
    if w.pc.decision != Approve {
      CloseSays(s.disk, w, w.pc.decision);
    }
    hide Close, Settling, CancelsSeen, TodoOk;
  }

  lemma LoadSays(s: State, w: Waiter)
    requires Families(s.disk) && Shaped(s.disk) && WaiterSays(s.disk, w) && w.rid in s.disk.recs
    ensures WaiterSays(s.disk, w.(pc := RunLoaded(s, w)))
    ensures WaiterSays(s.disk, w.(pc := Report([])))
    ensures WaiterSays(s.disk, w.(pc := Refuse(w, LOST_RECORD)))
  {
    QuietTexts();
    ChainedApart(s, w);
    RefuseSays(s.disk, w, LOST_RECORD);
    hide Families, Shaped, Refuse;
  }

  lemma PlainSays(s: State, w: Waiter, m: Move)
    requires Families(s.disk) && Shaped(s.disk) && WaiterSays(s.disk, w) && w.rid in s.disk.recs
    requires Local(m) && MoveEnabled(s, w, m) && !m.Branch? && !m.Blocks? && !m.Declines?
    ensures WaiterSays(s.disk, w.(pc := NextPc(s, w, m)))
  {
    if m.LoadFails? || m.RunLoads? {
      LoadSays(s, w);
      hide Families, Shaped, TodoOk, Refuse, RunLoaded, WaiterSays;
    } else {
      QuietSays(s.disk, w, NextPc(s, w, m));
      hide WaiterSays, Families, Shaped, TodoOk;
    }
  }

  lemma LocalSays(s: State, wid: nat, m: Move)
    requires CoarseInv(s) && wid in s.waiters && Local(m) && MoveEnabled(s, s.waiters[wid], m)
    requires WaiterSays(s.disk, s.waiters[wid])
    ensures WaiterSays(s.disk, s.waiters[wid].(pc := NextPc(s, s.waiters[wid], m)))
  {
    var w := s.waiters[wid];
    ChainedApart(s, w);
    assert WaiterOk(s, w);
    if m.Branch? {
      BranchSays(s, wid);
    } else if m.Blocks? {
      GateIsExcused(s, wid);
      RefuseSays(s.disk, w, m.reason);
    } else if m.Declines? {
      GateIsExcused(s, wid);
      FinishSays(s.disk, w, m.exit, m.output);
    } else {
      PlainSays(s, w, m);
      hide NextPc;
    }
    hide CoarseInv, TodoOk, Close, Refuse, Finish, RunLoaded, Branched, WaiterOk, Excused, ChildOf;
  }

  lemma RootTwice(d: Disk, rid: Rid)
    requires Shaped(d) && Families(d)
    ensures Root(d, Root(d, rid)) == Root(d, rid)
  {
    if rid in d.recs && d.recs[rid].petition.confirmOf.Some? {
      assert ChildOf(d, rid, Root(d, rid));
    }
  }

  lemma LoudIsShort(r: RunResult)
    ensures Loud(RunResult(r.exit, Truncated(r.output))) <==> Loud(r)
  {
    if |r.output| > 8192 {
      var text := Truncated(r.output);
      assert |text| > |WORD| && text[..8192] == r.output[..8192];
      assert forall prefix: string | |prefix| <= 10 + 1 :: prefix <= text <==> prefix <= text[..8192];
      assert forall prefix: string | |prefix| <= 10 + 1 :: prefix <= r.output <==> prefix <= r.output[..8192];
    }
  }

  lemma RestIds(todo: seq<(Rid, RunResult)>)
    requires todo != [] && forall i, j | 0 <= i < j < |todo| :: todo[i].0 != todo[j].0
    ensures todo[0].0 !in Ids(todo[1..]) && Ids(todo[1..]) <= Ids(todo)
  {
    assert forall x | x in todo[1..] :: x in todo && exists k | 0 < k < |todo| :: todo[k] == x;
  }

  lemma SameExcuse(d: Disk, d': Disk, rid: Rid)
    requires d'.recs == d.recs && d'.verdicts == d.verdicts
    ensures Excused(d', rid) == Excused(d, rid)
  {
    assert forall c, p :: ChildOf(d', c, p) == ChildOf(d, c, p);
  }

  lemma RestSays(d: Disk, d': Disk, w: Waiter)
    requires d'.recs == d.recs && d'.verdicts == d.verdicts && d'.cancels == d.cancels
    requires WaiterSays(d, w) && w.pc.Report? && w.pc.todo != []
    ensures WaiterSays(d', w.(pc := Report(w.pc.todo[1..])))
  {
    forall x ensures Excused(d', x) == Excused(d, x) {
      SameExcuse(d, d', x);
    }
    hide Excused;
    assert forall x | x in w.pc.todo[1..] :: x in w.pc.todo;
  }

  lemma OthersSaySo(s: State, wid: nat)
    requires Voiced(s) && wid in s.waiters && s.waiters[wid].pc.Report? && s.waiters[wid].pc.todo != []
    ensures var s' := Reported(s, wid); forall i | i in s'.waiters && i != wid :: WaiterSays(s'.disk, s'.waiters[i])
  {
    var s' := Reported(s, wid);
    hide WaiterSays, LastWord, Bare, Truncated;
    forall i | i in s'.waiters && i != wid ensures WaiterSays(s'.disk, s'.waiters[i]) {
      SameSays(s.disk, s'.disk, s.waiters[i]);
    }
  }

  lemma ReportsVoices(s: State, wid: nat)
    requires Inv(s) && Voiced(s) && wid in s.waiters && s.waiters[wid].pc.Report? && s.waiters[wid].pc.todo != []
    ensures Voiced(Reported(s, wid))
  {
    var w, s' := s.waiters[wid], Reported(s, wid);
    var (x, res) := w.pc.todo[0];
    assert WaiterOk(s, w) && WaiterSays(s.disk, w);
    RootTwice(s.disk, w.rid);
    LoudIsShort(res);
    RestIds(w.pc.todo);
    RestSays(s.disk, s'.disk, w);
    assert w.pc.todo[0] in w.pc.todo;
    assert forall i | i in s.waiters && s.waiters[i].root == w.root :: i == wid;
    hide Inv, Truncated;
    OthersSaySo(s, wid);
    forall r | Bare(s'.disk, r) ensures LastWord(s', r) {
      SameExcuse(s.disk, s'.disk, r);
      if r != x {
        assert LastWord(s, r);
      } else {
        assert Root(s.disk, x) == w.root;
      }
      hide Excused, WaiterSays;
    }
  }

  /** A report never falls on a bare result. */
  lemma ReportsSpare(s: State, wid: nat)
    requires Inv(s) && Voiced(s) && wid in s.waiters && s.waiters[wid].pc.Report? && s.waiters[wid].pc.todo != []
    ensures forall r | Bare(s.disk, r) :: Reported(s, wid).disk.results[r] == s.disk.results[r]
  {
    var w := s.waiters[wid];
    var x := w.pc.todo[0].0;
    assert WaiterOk(s, w) && WaiterSays(s.disk, w);
    RootTwice(s.disk, w.rid);
    assert w.pc.todo[0] in w.pc.todo;
    hide Inv, Truncated, Excused;
    forall r | Bare(s.disk, r) ensures Reported(s, wid).disk.results[r] == s.disk.results[r] {
      assert LastWord(s, r);
      assert x in Ids(w.pc.todo) && Root(s.disk, x) == w.root;
    }
  }

  lemma SameSays(d: Disk, d': Disk, w: Waiter)
    requires d'.recs == d.recs && d'.verdicts == d.verdicts && d'.cancels == d.cancels && WaiterSays(d, w)
    ensures WaiterSays(d', w)
  {
    forall x ensures Excused(d', x) == Excused(d, x) {
      SameExcuse(d, d', x);
    }
    hide Excused;
  }

  lemma LocalVoices(s: State, wid: nat, m: Move)
    requires CoarseInv(s) && Voiced(s) && wid in s.waiters && Local(m) && MoveEnabled(s, s.waiters[wid], m)
    ensures Voiced(MovedLocally(s, wid, m))
  {
    LocalSays(s, wid, m);
    hide CoarseInv, WaiterSays, LastWord, NextPc;
    MoverVoices(s.(lapsed := MovedLocally(s, wid, m).lapsed), MovedLocally(s, wid, m), wid);
  }

  lemma SpawnVoices(s: State, wid: nat, exit: int, output: string)
    requires Inv(s) && Voiced(s) && wid in s.waiters && s.waiters[wid].pc.Gate?
    ensures Voiced(Spawned(s, wid, exit, output))
  {
    var w := s.waiters[wid];
    GateIsExcused(s, wid);
    ChainedApart(s, w);
    hide Inv, Excused;
    FinishSays(s.disk, w, exit, output);
    hide WaiterSays, LastWord, Finish;
    var s' := Spawned(s, wid, exit, output);
    MoverVoices(s.(spawns := s'.spawns), s', wid);
  }

  lemma FreezeVoices(s: State, wid: nat, g: nat)
    requires Voiced(s) && wid in s.waiters && s.waiters[wid].pc.Hold?
    ensures Voiced(Frozen(s, wid, g))
  {
    var s' := Frozen(s, wid, g);
    assert WaiterSays(s'.disk, s'.waiters[wid]) by {
      assert WaiterSays(s.disk, s.waiters[wid]);
    }
    hide WaiterSays, LastWord;
    MoverVoices(s.(stopped := s'.stopped), s', wid);
  }

  lemma PinVoices(s: State, wid: nat)
    requires Inv(s) && Voiced(s) && wid in s.waiters && s.waiters[wid].pc.PinSave?
    ensures Voiced(Pinned(s, wid))
  {
    var w := s.waiters[wid];
    var mid := s.(disk := SaveRec(s.disk, w.rid, w.pc.pinned));
    assert WaiterOk(s, w);
    hide Inv;
    SaveIsMute(s.disk, w.rid, w.pc.pinned);
    hide DiskGrows, NoNewWord, WaiterSays, LastWord, Bare, WaiterOk;
    FrameVoices(s, mid);
    QuietSays(mid.disk, w, PollVerdict);
    MoverVoices(mid, Pinned(s, wid), wid);
  }

  lemma SaveIsMute(d: Disk, rid: Rid, rec: PendingRecord)
    requires rid in d.recs && rec.petition == d.recs[rid].petition
    ensures DiskGrows(d, SaveRec(d, rid, rec)) && NoNewWord(d, SaveRec(d, rid, rec))
  {
  }

  /** Adding a confirmation of `parent` leaves what others say alone. */
  lemma OthersSay(d: Disk, d': Disk, child: Rid, rec: PendingRecord, parent: Rid, w: Waiter)
    requires DiskGains(d, d', child, rec) && rec.petition.confirmOf == Some(parent)
    requires WaiterSays(d, w) && w.rid != parent && w.root != parent
    ensures WaiterSays(d', w)
  {
    forall r | r != parent && Excused(d, r) ensures Excused(d', r) {
      ExcusedBut(d, d', child, rec, parent, r);
    }
    hide Excused;
  }

  lemma ExcusedBut(d: Disk, d': Disk, child: Rid, rec: PendingRecord, parent: Rid, rid: Rid)
    requires DiskGains(d, d', child, rec) && rec.petition.confirmOf == Some(parent)
    requires rid != parent && Excused(d, rid)
    ensures Excused(d', rid)
  {
    forall c | ChildOf(d', c, rid) ensures Approved(d', c) {
      assert ChildOf(d, c, rid);
    }
  }

  lemma ConfirmerIsRoot(s: State, wid: nat)
    requires Inv(s) && wid in s.waiters && s.waiters[wid].pc.ConfirmSave?
    ensures var w := s.waiters[wid];
      && w.root == w.rid && w.rid in s.disk.recs && s.disk.recs[w.rid].petition.confirmOf.None?
      && forall i | i in s.waiters && i != wid :: s.waiters[i].rid != w.rid && s.waiters[i].root != w.rid
  {
    hide SpawnsOk, QueueOk, NoneForgotten, PinsOk, PetitionsKept, Families;
    assert WaiterOk(s, s.waiters[wid]);
    forall i | i in s.waiters && i != wid ensures s.waiters[i].rid != s.waiters[wid].rid {
      assert WaiterOk(s, s.waiters[i]);
    }
  }

  lemma ConfirmVoices(s: State, wid: nat, child: Rid, expires: int, git: int, fd: int, seal: int)
    requires Inv(s) && Voiced(s) && Unused(s.disk, child) && wid in s.waiters && s.waiters[wid].pc.ConfirmSave?
    ensures Voiced(Confirming(s, wid, child, expires, git, fd, seal))
  {
    var w, s' := s.waiters[wid], Confirming(s, wid, child, expires, git, fd, seal);
    var rec := ChildRecord(w, w.pc.parent, expires, git, fd, seal);
    ConfirmerIsRoot(s, wid);
    hide Inv, Excused;
    forall i | i in s'.waiters && i != wid ensures WaiterSays(s'.disk, s'.waiters[i]) {
      OthersSay(s.disk, s'.disk, child, rec, w.rid, s.waiters[i]);
    }
    assert WaiterSays(s'.disk, s'.waiters[wid]);
    forall r | Bare(s'.disk, r) ensures LastWord(s', r) {
      assert LastWord(s, r);
      assert r != w.rid;
      ExcusedBut(s.disk, s'.disk, child, rec, w.rid, r);
      ExcusedIsSaved(s.disk, r);
    }
  }

  lemma ExcusedIsSaved(d: Disk, rid: Rid)
    requires Excused(d, rid)
    ensures rid in d.recs
  {
  }

  lemma MoveVoices(s: State, wid: nat, m: Move)
    requires CoarseInv(s) && Voiced(s) && wid in s.waiters && MoveEnabled(s, s.waiters[wid], m) && !m.Files?
    ensures Voiced(Moved(s, wid, m))
  {
    hide Inv, Settling, CancelsSeen, Voiced;
    match m {
      case Freeze(g) => FreezeVoices(s, wid, g);
      case PinSaves => PinVoices(s, wid);
      case ConfirmSaves(child, expires, git, fd, seal) => ConfirmVoices(s, wid, child, expires, git, fd, seal);
      case Spawns(exit, output) => SpawnVoices(s, wid, exit, output);
      case Files =>
      case Reports => ReportsVoices(s, wid);
      case Ends(readable) => FrameEnds(s, wid, readable);
      case _ => LocalVoices(s, wid, m);
    }
  }

  lemma FrameEnds(s: State, wid: nat, readable: bool)
    requires Voiced(s) && wid in s.waiters
    ensures Voiced(Ended(s, wid, readable))
  {
    hide Voiced;
    FrameVoices(s, Ended(s, wid, readable));
  }

  // ----- Operations ----------------------------------------------------------------------------------

  lemma DeedVoices(s: State, deed: Deed)
    requires CoarseInv(s) && Voiced(s) && DeedEnabled(s, deed) && Whole(Do(deed))
    ensures Voiced(Done(s, deed))
  {
    DeedIsCalm(s, deed);
    DeedSameFiles(s, deed);
    hide Voiced, DiskGrows, CoarseInv;
    FrameVoices(s, Done(s, deed));
  }

  lemma LookVoices(s: State, look: Look)
    requires CoarseInv(s) && Voiced(s) && LookEnabled(s, look)
    ensures Voiced(Looked(s, look))
  {
    if look.AdoptExpired? {
      ExpiryBranchIsDead(s, look.rid);
      assert false;
    } else if look.AdoptWait? {
      hide CoarseInv, Inv, Voiced;
      AdoptVoices(s, Looked(s, look), look.rid, look.wid);
    } else {
      hide CoarseInv, Voiced;
      FrameVoices(s, Looked(s, look));
    }
  }

  lemma SmallVoices(s: State, st: Step)
    requires CoarseInv(s) && Voiced(s) && Enabled(s, st) && Whole(st)
    ensures Voiced(Apply(s, st))
  {
    hide Inv, Settling, CancelsSeen, Voiced, Moved, Done, Looked;
    match st {
      case NewRun(rid, wid, p, detached) => GainVoices(s, Apply(s, st), rid, NewRecord(p));
      case NewOther(rid, p) => GainVoices(s, Apply(s, st), rid, NewRecord(p));
      case Do(deed) => DeedVoices(s, deed);
      case Crash => CrashVoices(s);
      case Scan(look) => LookVoices(s, look);
      case Act(wid, m) => MoveVoices(s, wid, m);
    }
  }

  lemma CrashVoices(s: State)
    requires CoarseInv(s) && Voiced(s)
    ensures Voiced(Crashed(s))
  {
    CrashLeavesWritten(s.disk);
    hide CoarseInv, Voiced;
    FrameVoices(s, Crashed(s));
  }

  lemma AnswerVoices(s: State, rid: Rid, slip: Slip)
    requires CoarseInv(s) && Voiced(s) && OpEnabled(s, Answer(rid, slip))
    ensures Voiced(OpApply(s, Answer(rid, slip)))
  {
    hide CoarseInv, Voiced;
    FrameVoices(s, OpApply(s, Answer(rid, slip)));
  }

  lemma ConsumeIsMute(d: Disk, rid: Rid, v: VerdictRecord)
    ensures DiskGrows(d, Consume(d, rid, v)) && NoNewWord(d, Consume(d, rid, v))
  {
  }

  lemma FiledSays(d: Disk, w: Waiter)
    requires w.pc.File? && WaiterSays(d, w)
    ensures WaiterSays(d, w.(pc := Report(w.pc.after)))
  {
    hide Excused;
  }

  lemma FilesVoices(s: State, wid: nat)
    requires Voiced(s) && OpEnabled(s, WaiterFiles(wid))
    ensures Voiced(OpApply(s, WaiterFiles(wid)))
  {
    var w := s.waiters[wid];
    var mid := s.(disk := Consume(s.disk, w.rid, VerdictRecord(w.pc.filed, "")));
    ConsumeIsMute(s.disk, w.rid, VerdictRecord(w.pc.filed, ""));
    hide Consume, DiskGrows, NoNewWord, WaiterSays, LastWord, Bare;
    FrameVoices(s, mid);
    FiledSays(mid.disk, w);
    MoverVoices(mid, OpApply(s, WaiterFiles(wid)), wid);
  }

  lemma OneWords(d: Disk, rid: Rid, q: CancelRequest)
    requires NoDrafts(d.cancels) && rid in d.recs
    ensures NoDrafts(CancelOne(d, rid, q).cancels) && NoNewWord(d, CancelOne(d, rid, q))
    ensures CancelOne(d, rid, q).recs == d.recs
  {
  }

  lemma ConfirmWords(d: Disk, q: CancelRequest, now: int)
    requires NoDrafts(d.cancels) && Families(d) && q.rid in d.recs
    ensures NoNewWord(d, CancelConfirm(d, q, now).disk)
  {
    hide CancelOne, Bare;
    OneWords(d, q.rid, q);
    if d.recs[q.rid].petition.confirmOf.Some? {
      assert ChildOf(d, q.rid, d.recs[q.rid].petition.confirmOf.value);
      OneWords(CancelOne(d, q.rid, q), d.recs[q.rid].petition.confirmOf.value, q);
    }
  }

  lemma InitialWords(d: Disk, dir: seq<Rid>, q: CancelRequest, now: int)
    requires NoDrafts(d.cancels) && q.rid in d.recs
    ensures NoNewWord(d, CancelInitial(d, dir, q, now).disk)
  {
    hide CancelOne, Bare;
    OneWords(d, q.rid, q);
    var child := FindConfirmation(d, dir, q.rid);
    if child.Some? && child.value in d.recs {
      OneWords(d, child.value, q);
      OneWords(CancelOne(d, child.value, q), q.rid, q);
    }
  }

  lemma CallWords(d: Disk, dir: seq<Rid>, q: CancelRequest, now: int)
    requires NoDrafts(d.cancels) && Families(d)
    ensures NoNewWord(d, CancelOutcome(d, dir, q, now).disk)
  {
    CallDisks(d, dir, q, now);
    if q.rid in d.recs {
      ConfirmWords(d, q, now);
      InitialWords(d, dir, q, now);
    }
    hide CancelOutcome, CancelConfirm, CancelInitial, Families;
  }

  lemma CallVoices(s: State, q: CancelRequest, dir: seq<Rid>)
    requires CoarseInv(s) && Voiced(s)
    ensures Voiced(Called(s, q, dir))
  {
    CallWords(s.disk, dir, q, s.now);
    CallAdds(s.disk, dir, q, s.now);
    hide CancelOutcome, CoarseInv, Voiced;
    FrameVoices(s, Called(s, q, dir));
  }

  ghost predicate Spoken(s: State) {
    CoarseInv(s) && Voiced(s)
  }

  lemma OpSpeaks(s: State, op: Op)
    requires Spoken(s) && OpEnabled(s, op)
    ensures Spoken(OpApply(s, op))
  {
    OpKeeps(s, op);
    hide CoarseInv, Voiced, Apply, Called, Whole;
    match op {
      case Small(st) => SmallVoices(s, st);
      case Answer(rid, slip) => AnswerVoices(s, rid, slip);
      case WaiterFiles(wid) => FilesVoices(s, wid);
      case CancelCall(q, dir) => CallVoices(s, q, dir);
    }
  }

  lemma {:induction false} OpsSpeak(s: State, ops: seq<Op>)
    requires Spoken(s) && CanDo(s, ops)
    ensures Spoken(DoAll(s, ops))
    decreases |ops|
  {
    if ops != [] {
      OpSpeaks(s, ops[0]);
      hide Spoken;
      OpsSpeak(OpApply(s, ops[0]), ops[1..]);
    }
  }

  lemma SpokenFromBoot(now: int, cfg: Config, ops: seq<Op>)
    requires CanDo(Boot(now, cfg), ops)
    ensures Spoken(DoAll(Boot(now, cfg), ops))
  {
    BootIsGood(now, cfg);
    assert CoarseInv(Boot(now, cfg));
    OpsSpeak(Boot(now, cfg), ops);
  }

  // ----- A bare result stays -------------------------------------------------------------------------

  /** Neither the cancel file nor the result of `rid` changes. */
  ghost predicate Spares(d: Disk, d': Disk, rid: Rid) {
    && CancelInfo(d', rid) == CancelInfo(d, rid)
    && (rid in d.results ==> rid in d'.results && d'.results[rid] == d.results[rid])
  }

  lemma OneSpares(d: Disk, other: Rid, q: CancelRequest, rid: Rid)
    requires rid != other
    ensures Spares(d, CancelOne(d, other, q), rid)
  {
  }

  lemma TwoSpare(d: Disk, a: Rid, b: Rid, q: CancelRequest, rid: Rid)
    requires rid != a && rid != b
    ensures Spares(d, CancelOne(CancelOne(d, a, q), b, q), rid)
  {
    hide CancelOne;
    OneSpares(d, a, q, rid);
    OneSpares(CancelOne(d, a, q), b, q, rid);
  }

  lemma ConfirmSpares(d: Disk, q: CancelRequest, now: int, rid: Rid)
    requires Excused(d, rid) && q.rid in d.recs
    ensures Spares(d, CancelConfirm(d, q, now).disk, rid)
  {
    hide CancelOne, Spares;
    SameSpares(d, rid);
    var parent := d.recs[q.rid].petition.confirmOf;
    if q.rid != rid && (parent.None? || parent.value != rid) {
      OneSpares(d, q.rid, q, rid);
      if parent.Some? {
        TwoSpare(d, q.rid, parent.value, q, rid);
      }
    } else if q.rid != rid {
      assert ChildOf(d, q.rid, rid);
    }
  }

  lemma SameSpares(d: Disk, rid: Rid)
    ensures Spares(d, d, rid)
  {
  }

  lemma InitialSpares(d: Disk, dir: seq<Rid>, q: CancelRequest, now: int, rid: Rid)
    requires Excused(d, rid) && q.rid in d.recs
    ensures Spares(d, CancelInitial(d, dir, q, now).disk, rid)
  {
    hide CancelOne, Spares;
    SameSpares(d, rid);
    FoundIsChild(d, dir, q.rid);
    var child := FindConfirmation(d, dir, q.rid);
    if q.rid != rid {
      OneSpares(d, q.rid, q, rid);
      if child.Some? && child.value != rid {
        TwoSpare(d, child.value, q.rid, q, rid);
      }
    }
  }

  /** A cancel call leaves an approved petition alone whose confirmation, if it has one, is approved. */
  lemma CallSpares(d: Disk, dir: seq<Rid>, q: CancelRequest, now: int, rid: Rid)
    requires Shaped(d) && Excused(d, rid)
    ensures Spares(d, CancelOutcome(d, dir, q, now).disk, rid)
  {
    CallDisks(d, dir, q, now);
    SameSpares(d, rid);
    hide CancelOutcome, CancelConfirm, CancelInitial;
    if q.rid in d.recs {
      ConfirmSpares(d, q, now, rid);
      InitialSpares(d, dir, q, now, rid);
    }
  }

  lemma OtherResults(s: State, st: Step)
    requires Inv(s) && Enabled(s, st) && Whole(st) && !(st.Act? && st.move.Reports?)
    ensures Apply(s, st).disk.results == s.disk.results
  {
    if st.Act? {
      hide Inv;
      MoveResults(s, st.wid, st.move);
      hide Moved;
    } else if st.Scan? {
      if st.look.AdoptExpired? {
        ExpiryBranchIsDead(s, st.look.rid);
        assert false;
      }
      hide Inv;
    } else {
      DeedResults(s, st);
      hide Inv, Apply, Enabled;
    }
  }

  lemma DeedResults(s: State, st: Step)
    requires Enabled(s, st) && Whole(st) && !st.Act? && !st.Scan?
    ensures Apply(s, st).disk.results == s.disk.results
  {
  }

  lemma MoveResults(s: State, wid: nat, m: Move)
    requires wid in s.waiters && MoveEnabled(s, s.waiters[wid], m) && !m.Reports? && !m.Files?
    ensures Moved(s, wid, m).disk.results == s.disk.results
  {
  }

  lemma SmallCancels(s: State, st: Step)
    requires PetitionsKept(s) && WaitersOk(s) && Written(s.disk) && Enabled(s, st) && Whole(st)
    ensures Apply(s, st).disk.cancels == s.disk.cancels
  {
    if !Saving(st) {
      SmallSameFiles(s, st);
      hide Apply;
    }
  }

  lemma SmallSpares(s: State, st: Step, rid: Rid)
    requires Inv(s) && Voiced(s) && Written(s.disk) && Enabled(s, st) && Whole(st) && Bare(s.disk, rid)
    ensures Spares(s.disk, Apply(s, st).disk, rid)
  {
    assert Apply(s, st).disk.cancels == s.disk.cancels by {
      hide Apply, Bare, Voiced, Enabled;
      SmallCancels(s, st);
    }
    SmallResults(s, st, rid);
    hide Inv, Voiced, Written, Apply, Enabled;
  }

  lemma SmallResults(s: State, st: Step, rid: Rid)
    requires Inv(s) && Voiced(s) && Enabled(s, st) && Whole(st) && Bare(s.disk, rid)
    ensures rid in Apply(s, st).disk.results && Apply(s, st).disk.results[rid] == s.disk.results[rid]
  {
    hide Inv, Voiced;
    if st.Act? && st.move.Reports? {
      ReportsSpare(s, st.wid);
    } else {
      OtherResults(s, st);
      hide Apply, Enabled;
    }
  }

  lemma QuietOpSpares(s: State, op: Op, rid: Rid)
    requires OpEnabled(s, op) && (op.Answer? || op.WaiterFiles?)
    ensures Spares(s.disk, OpApply(s, op).disk, rid)
  {
  }

  lemma CalledSpares(s: State, q: CancelRequest, dir: seq<Rid>, rid: Rid)
    requires Inv(s) && Voiced(s) && Bare(s.disk, rid)
    ensures Spares(s.disk, Called(s, q, dir).disk, rid)
  {
    assert Shaped(s.disk) && LastWord(s, rid);
    hide Inv, Voiced, Bare, Spares, CancelOutcome, Shaped;
    CallSpares(s.disk, dir, q, s.now, rid);
  }

  lemma OpSpares(s: State, op: Op, rid: Rid)
    requires Inv(s) && Voiced(s) && Written(s.disk) && OpEnabled(s, op) && Bare(s.disk, rid)
    ensures Spares(s.disk, OpApply(s, op).disk, rid)
  {
    hide Inv, Voiced, Written, Apply, Enabled, Bare, Spares, Called;
    match op {
      case Small(st) => SmallSpares(s, st, rid);
      case Answer(_, _) => QuietOpSpares(s, op, rid);
      case WaiterFiles(_) => QuietOpSpares(s, op, rid);
      case CancelCall(q, dir) => CalledSpares(s, q, dir, rid);
    }
  }

  lemma BareStays(s: State, op: Op, rid: Rid)
    requires Spoken(s) && OpEnabled(s, op) && Bare(s.disk, rid)
    ensures var d' := OpApply(s, op).disk; Bare(d', rid) && d'.results[rid] == s.disk.results[rid]
  {
    hide Inv, Voiced, CancelsSeen, OpApply, OpEnabled, Loud;
    OpSpares(s, op, rid);
  }

  /** Status has its last word: there is a cancel file, or the loud result of an approved run. */
  ghost predicate OnRecord(d: Disk, rid: Rid) {
    rid in d.recs && (CancelInfo(d, rid).Some? || (Bare(d, rid) && Excused(d, rid)))
  }

  /** The text that status goes by: the reason on the cancel file, or the result's output. */
  function FinalText(d: Disk, rid: Rid): string
    requires OnRecord(d, rid)
  {
    if CancelInfo(d, rid).Some? then CancelInfo(d, rid).value.reason else d.results[rid].output
  }

  /** A response whose status word is cancelled, or denied for a drift. */
  predicate Final(st: StatusResponse) {
    st.status == WORD || (st.status == "denied" && st.decision != "deny")
  }

  lemma OnRecordReads(d: Disk, files: seq<Rid>, rid: Rid, time: int)
    requires Settling(d) && Shaped(d) && OnRecord(d, rid)
    ensures var st := Status(d, files, rid, time);
      && Final(st) && st.status == ReasonWord(FinalText(d, rid))
      && st.decision == if Drifted(FinalText(d, rid)) then DriftOf(FinalText(d, rid)) else WORD
  {
    PlainTexts();
    FoundIsChild(d, files, rid);
    StatusIs(d, files, rid, time);
    hide Drifted, DriftOf, Status;
    assert |DriftOf(FinalText(d, rid))| > |"deny"| by {
      DriftIsLong(FinalText(d, rid));
    }
  }

  lemma DriftIsLong(text: string)
    ensures |DriftOf(text)| > 4
  {
  }

  /** The other words a status can be. */
  lemma StatusWords()
    ensures "pending" != WORD && "timeout" != WORD && "not_found" != WORD && "denied" != WORD
    ensures "selected" != WORD && "acked" != WORD && "running" != WORD && "deny" != WORD
    ensures "completed" != WORD && "confirming" != WORD && "client_aborted" != WORD && "confirmation_timeout" != WORD
  {
    assert WORD[0] == 'c' && WORD[1] == 'a';
    assert "completed"[1] != 'a' && "confirming"[1] != 'a' && "client_aborted"[1] != 'a'
      && "confirmation_timeout"[1] != 'a';
  }

  lemma DeniedIsDeny(d: Disk, dir: seq<Rid>, rid: Rid, time: int)
    ensures var st := StoreStatus(d, dir, rid, time); st.status == "denied" ==> st.decision == "deny"
  {
    assert "denied"[0] == 'd' && "deny"[3] != "denied"[3];
    assert "pending"[0] != 'd' && "timeout"[0] != 'd' && "not_found"[0] != 'd' && "cancelled"[0] != 'd'
      && "selected"[0] != 'd';
    assert "acked"[0] != 'd' && "running"[0] != 'd' && "completed"[0] != 'd' && "confirming"[0] != 'd';
    assert "client_aborted"[0] != 'd' && "confirmation_timeout"[0] != 'd';
  }

  lemma FinalIsInStore(d: Disk, dir: seq<Rid>, rid: Rid, time: int)
    requires Final(Status(d, dir, rid, time))
    ensures var st := StoreStatus(d, dir, rid, time); st.status == WORD || Blocked(st)
  {
    StatusIs(d, dir, rid, time);
    DeniedIsDeny(d, dir, rid, time);
    hide StoreStatus, Status, Blocked, DriftOf;
  }

  lemma WordIsOnRecord(d: Disk, dir: seq<Rid>, rid: Rid, time: int)
    requires Settling(d) && Shaped(d) && StoreStatus(d, dir, rid, time).status == WORD
    ensures rid in d.recs && (CancelInfo(d, rid).Some? || (rid in d.results && d.results[rid].output == WORD))
  {
    StatusWords();
    FoundIsChild(d, dir, rid);
  }

  lemma BlockedIsOnRecord(d: Disk, dir: seq<Rid>, rid: Rid, time: int)
    requires Settling(d) && Shaped(d) && Blocked(StoreStatus(d, dir, rid, time))
    ensures rid in d.recs
    ensures CancelInfo(d, rid).Some? || (rid in d.results && d.results[rid].exit == -1
          && Drifted(d.results[rid].output))
  {
    PlainTexts();
    FoundIsChild(d, dir, rid);
    hide Drifted, DecisionName;
  }

  lemma FinalIsOnRecord(d: Disk, dir: seq<Rid>, rid: Rid, time: int)
    requires Settling(d) && Shaped(d) && Final(Status(d, dir, rid, time))
    ensures rid in d.recs && (CancelInfo(d, rid).Some? || Bare(d, rid))
  {
    FinalIsInStore(d, dir, rid, time);
    hide Final, Status, Settling, Shaped, StoreStatus, Blocked;
    if Blocked(StoreStatus(d, dir, rid, time)) {
      BlockedIsOnRecord(d, dir, rid, time);
    } else {
      WordIsOnRecord(d, dir, rid, time);
    }
  }

  lemma {:induction false} OnRecordStays(s: State, ops: seq<Op>, rid: Rid)
    requires Spoken(s) && CanDo(s, ops) && OnRecord(s.disk, rid)
    ensures var s' := DoAll(s, ops);
      OnRecord(s'.disk, rid) && FinalText(s'.disk, rid) == FinalText(s.disk, rid) && Spoken(s')
    decreases |ops|
  {
    if ops != [] {
      var s' := OpApply(s, ops[0]);
      OpStaysOnRecord(s, ops[0], rid);
      OpSpeaks(s, ops[0]);
      hide Spoken, OnRecord, FinalText, OpApply, OpEnabled;
      OnRecordStays(s', ops[1..], rid);
    }
  }

  lemma OpStaysOnRecord(s: State, op: Op, rid: Rid)
    requires Spoken(s) && OpEnabled(s, op) && OnRecord(s.disk, rid)
    ensures var d' := OpApply(s, op).disk; OnRecord(d', rid) && FinalText(d', rid) == FinalText(s.disk, rid)
  {
    var s' := OpApply(s, op);
    var steps := OpIsRun(s, op);
    RunIsLater(s, steps);
    OpSpeaks(s, op);
    RecordIsKept(s, s', rid);
    hide OpApply, OpEnabled, Later, RunTo, CanRun;
    if CancelInfo(s.disk, rid).None? {
      BareStays(s, op, rid);
      assert LastWord(s', rid);
    }
    hide Spoken, Excused, Loud;
  }

  lemma RecordIsKept(s: State, s': State, rid: Rid)
    requires Inv(s) && Inv(s') && Later(s, s') && rid in s.disk.recs
    ensures rid in s'.disk.recs
    ensures CancelInfo(s.disk, rid).Some? ==> CancelInfo(s'.disk, rid) == CancelInfo(s.disk, rid)
  {
    hide WaitersOk, SpawnsOk, QueueOk, NoneForgotten, PinsOk, Families, Shaped;
    assert rid in s.first;
  }
}
