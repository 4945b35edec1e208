/** What a restart does for the process groups the daemon held stopped, and what a chained confirmation
    leaves on its parent. */
module Restart {
  import opened Records
  import opened Protocol
  import opened Invariant
  import opened Preserve
  import opened Guarantees

  // ----- Pins that stay on record --------------------------------------------------------------------

  /** The pin is on the record, and no writer is left who loaded the record without it. */
  ghost predicate Pinning(s: State, rid: Rid, g: nat) {
    var pin := Some(SuspendPin(g, true));
    && rid in s.disk.recs && s.disk.recs[rid].suspend == pin
    && (forall e | e in s.edits && e.0 == rid :: e.1.suspend == pin)
    && (forall i | i in s.waiters && s.waiters[i].rid == rid ::
          !s.waiters[i].pc.Hold? && !s.waiters[i].pc.PinLoad? && !s.waiters[i].pc.PinSave?)
  }

  lemma NextPcPins(s: State, w: Waiter, m: Move)
    requires Local(m) && MoveEnabled(s, w, m) && !w.pc.Hold? && !w.pc.PinLoad? && !w.pc.PinSave?
    ensures var pc := NextPc(s, w, m); !pc.Hold? && !pc.PinLoad? && !pc.PinSave?
  {
  }

  lemma LocalPins(s: State, wid: nat, m: Move, rid: Rid, g: nat)
    requires Pinning(s, rid, g) && wid in s.waiters && MoveEnabled(s, s.waiters[wid], m) && Local(m)
    ensures Pinning(MovedLocally(s, wid, m), rid, g)
  {
    if s.waiters[wid].rid == rid {
      NextPcPins(s, s.waiters[wid], m);
    }
    hide NextPc, MoveEnabled, Local;
  }

  lemma MovePins(s: State, wid: nat, m: Move, rid: Rid, g: nat)
    requires Pinning(s, rid, g) && wid in s.waiters && MoveEnabled(s, s.waiters[wid], m)
    ensures Pinning(Moved(s, wid, m), rid, g)
  {
    hide MovedLocally;
    if Local(m) {
      LocalPins(s, wid, m, rid, g);
      hide MoveEnabled, Pinning;
    }
  }

  lemma EditKeepsPin(rec: PendingRecord, e: Edit)
    ensures Edited(rec, e).Some? ==> Edited(rec, e).value.suspend == rec.suspend
  {
  }

  lemma EditPins(s: State, r: Rid, e: Edit, rid: Rid, g: nat)
    requires Pinning(s, rid, g) && DeedEnabled(s, EditLoad(r, e))
    ensures Pinning(Done(s, EditLoad(r, e)), rid, g)
  {
    EditKeepsPin(s.disk.recs[r], e);
    hide Edited;
  }

  lemma FilesKeepRecords(d: Disk, rid: Rid, slip: Slip, file: SlipKind)
    ensures WithCreated(d, rid, slip).recs == d.recs
    ensures WithFilled(d, rid, file).recs == d.recs && WithTorn(d, rid, file).recs == d.recs
  {
    hide Create, Fill, Tear;
  }

  lemma OtherDeed(s: State, deed: Deed)
    requires DeedEnabled(s, deed) && !deed.EditLoad? && !deed.EditSave?
    ensures Done(s, deed).disk.recs == s.disk.recs && Done(s, deed).edits == s.edits
          && Done(s, deed).waiters == s.waiters
  {
    hide WithCreated, WithFilled, WithTorn, Edited, SlipAllowed;
    match deed {
      case CreateSlip(rid, slip) => FilesKeepRecords(s.disk, rid, slip, VerdictFile);
      case FillSlip(rid, file) => FilesKeepRecords(s.disk, rid, AckSlip(AckRecord("")), file);
      case TearSlip(rid, file) => FilesKeepRecords(s.disk, rid, AckSlip(AckRecord("")), file);
      case _ =>
    }
  }

  lemma DeedPins(s: State, deed: Deed, rid: Rid, g: nat)
    requires Pinning(s, rid, g) && DeedEnabled(s, deed)
    ensures Pinning(Done(s, deed), rid, g)
  {
    hide WithCreated, WithFilled, WithTorn, Edited;
    match deed {
      case EditLoad(r, e) => EditPins(s, r, e, rid, g);
      case EditSave(r, rec) =>
      case _ =>
        OtherDeed(s, deed);
        hide Done;
    }
  }

  lemma LookPins(s: State, look: Look, rid: Rid, g: nat)
    requires Pinning(s, rid, g) && LookEnabled(s, look)
    ensures Pinning(Looked(s, look), rid, g)
  {
  }

  lemma StepPins(s: State, st: Step, rid: Rid, g: nat)
    requires Pinning(s, rid, g) && Enabled(s, st)
    ensures Pinning(Apply(s, st), rid, g)
  {
    hide Done, Moved, Looked;
    match st {
      case NewRun(_, _, _, _) =>
      case NewOther(_, _) =>
      case Do(deed) => DeedPins(s, deed, rid, g);
      case Crash =>
      case Scan(look) => LookPins(s, look, rid, g);
      case Act(wid, m) => MovePins(s, wid, m, rid, g);
    }
  }

  // ----- Who will release them -----------------------------------------------------------------------

  /** The id waits to be adopted, or an adopted waiter was started for it. */
  ghost predicate TakenCare(s: State, rid: Rid) {
    rid in Queue(s.phase) || exists i :: AdoptedFor(s, i, rid)
  }

  predicate AdoptedFor(s: State, i: nat, rid: Rid) {
    i in s.waiters && s.waiters[i].origin == Adopted && s.waiters[i].home == rid
  }

  /** The scan drops the id without starting a waiter for it. */
  predicate PassesOver(st: Step, rid: Rid) {
    || st == Scan(ListSkip(rid)) || st == Scan(ListUnreadable(rid))
    || st == Scan(AdoptUnreadable(rid)) || st == Scan(AdoptDecided(rid))
  }

  /** A waiter ends and cannot load the record that holds the pin. */
  predicate EndsBlind(st: Step) {
    st.Act? && st.move == Ends(false)
  }

  /** At some moment of the run the group is not stopped. */
  predicate Released(s: State, steps: seq<Step>, g: nat)
    requires CanRun(s, steps)
    decreases |steps|
  {
    g !in s.stopped || (steps != [] && Released(Apply(s, steps[0]), steps[1..], g))
  }

  lemma MoveCares(s: State, wid: nat, m: Move, rid: Rid, g: nat, i: nat)
    requires Pinning(s, rid, g) && AdoptedFor(s, i, rid) && wid in s.waiters && MoveEnabled(s, s.waiters[wid], m)
    requires m != Ends(false)
    ensures AdoptedFor(Moved(s, wid, m), i, rid) || g !in Moved(s, wid, m).stopped
  {
    if Local(m) {
      hide NextPc;
      assert Moved(s, wid, m) == MovedLocally(s, wid, m);
    } else {
      hide MovedLocally;
    }
  }

  lemma LookCares(s: State, look: Look, rid: Rid, g: nat)
    requires Pinning(s, rid, g) && TakenCare(s, rid) && LookEnabled(s, look) && !PassesOver(Scan(look), rid)
    ensures TakenCare(Looked(s, look), rid) || g !in Looked(s, look).stopped
  {
    var s' := Looked(s, look);
    if i :| AdoptedFor(s, i, rid) {
      assert AdoptedFor(s', i, rid);
    } else if look.AdoptWait? && look.rid == rid {
      assert AdoptedFor(s', look.wid, rid);
    }
  }

  lemma StepCares(s: State, st: Step, rid: Rid, g: nat)
    requires Pinning(s, rid, g) && TakenCare(s, rid) && Enabled(s, st) && !PassesOver(st, rid) && !EndsBlind(st)
    ensures TakenCare(Apply(s, st), rid) || g !in Apply(s, st).stopped
  {
    var s' := Apply(s, st);
    match st {
      case Scan(look) =>
        LookCares(s, look, rid, g);
        hide TakenCare, Looked;
      case Crash =>
      case Act(wid, m) =>
        if i :| AdoptedFor(s, i, rid) {
          MoveCares(s, wid, m, rid, g, i);
          hide Moved, AdoptedFor;
        } else {
          MovePhaseSame(s, wid, m);
          hide Moved;
        }
      case _ =>
        hide Done;
        OtherCares(s, st, rid);
    }
  }

  lemma MovePhaseSame(s: State, wid: nat, m: Move)
    requires wid in s.waiters && MoveEnabled(s, s.waiters[wid], m)
    ensures Moved(s, wid, m).phase == s.phase
  {
  }

  lemma OtherCares(s: State, st: Step, rid: Rid)
    requires TakenCare(s, rid) && Enabled(s, st) && (st.NewRun? || st.NewOther? || st.Do?)
    ensures TakenCare(Apply(s, st), rid)
  {
    if i :| AdoptedFor(s, i, rid) {
      assert AdoptedFor(Apply(s, st), i, rid);
    }
  }

  lemma {:induction false} Cared(s: State, steps: seq<Step>, rid: Rid, g: nat)
    requires Pinning(s, rid, g) && TakenCare(s, rid) && CanRun(s, steps)
    requires forall st | st in steps :: !PassesOver(st, rid) && !EndsBlind(st)
    ensures Pinning(RunTo(s, steps), rid, g)
    ensures TakenCare(RunTo(s, steps), rid) || Released(s, steps, g)
    decreases |steps|
  {
    if steps != [] {
      var s' := Apply(s, steps[0]);
      StepPins(s, steps[0], rid, g);
      StepCares(s, steps[0], rid, g);
      hide Pinning, TakenCare, PassesOver, EndsBlind, Apply, Enabled;
      if TakenCare(s', rid) {
        Cared(s', steps[1..], rid, g);
      } else {
        PinsOn(s', steps[1..], rid, g);
        assert Released(s', steps[1..], g);
      }
    }
  }

  lemma {:induction false} PinsOn(s: State, steps: seq<Step>, rid: Rid, g: nat)
    requires Pinning(s, rid, g) && CanRun(s, steps)
    ensures Pinning(RunTo(s, steps), rid, g)
    decreases |steps|
  {
    if steps != [] {
      StepPins(s, steps[0], rid, g);
      hide Pinning;
      PinsOn(Apply(s, steps[0]), steps[1..], rid, g);
    }
  }

  /** A group whose pin was saved on a record before the crash is released by the restart: unless the scan
      passes the record over, the pin stays on it and the id stays queued or has an adopted waiter until
      the group has run again; so once the scan and all waiters are done it has. */
  lemma RestartReleases(now: int, cfg: Config, before: seq<Step>, next: seq<Step>, rid: Rid, g: nat)
    requires CanRun(Boot(now, cfg), before) && StoredPin(RunTo(Boot(now, cfg), before).disk, rid) == {g}
    requires CanRun(Crashed(RunTo(Boot(now, cfg), before)), next)
    requires forall st | st in next :: !PassesOver(st, rid) && !EndsBlind(st)
    ensures var s := Crashed(RunTo(Boot(now, cfg), before));
      var s' := RunTo(s, next);
      && StoredPin(s'.disk, rid) == {g}
      && (rid in Queue(s'.phase) || (exists i :: AdoptedFor(s', i, rid)) || Released(s, next, g))
      && (s'.waiters == map[] && Queue(s'.phase) == {} ==> Released(s, next, g))
  {
    var s0 := RunTo(Boot(now, cfg), before);
    var s := Crashed(s0);
    assert g in StoredPin(s0.disk, rid);
    assert Pinning(s, rid, g);
    Cared(s, next, rid, g);
  }

  /** The scan passes over only what is decided, cancelled, had expired when it began, or cannot be read. */
  lemma PassedOverOnlyIf(s: State, st: Step, rid: Rid)
    requires Inv(s) && Enabled(s, st) && PassesOver(st, rid) && s.disk.recs[rid].petition.kind == Exec
    ensures st == Scan(ListUnreadable(rid)) || st == Scan(AdoptUnreadable(rid))
            || Verdict(s.disk, rid).Some? || CancelInfo(s.disk, rid).Some?
               || s.disk.recs[rid].petition.expires <= s.phase.at
  {
    hide WaitersOk, SpawnsOk, NoneForgotten, PinsOk, PetitionsKept, Families;
  }

  // ----- A parent's result ---------------------------------------------------------------------------

  /** The run was refused before there was a process: by the gate, or for want of a readable record with a
      command. */
  predicate RefusedRun(s: State, w: Waiter, m: Move) {
    m.Blocks? || (m.LoadFails? && w.pc.RunLoad?)
    || (m.RunLoads? && w.rid in s.disk.recs && s.disk.recs[w.rid].petition.argv == [])
  }

  /** Moves that end a confirmation's wait: the run, its refusal, or any verdict but an approval. */
  predicate Concludes(s: State, w: Waiter, m: Move) {
    RefusedRun(s, w, m) || m.Declines? || m.Spawns? || (m.Branch? && w.pc.Decided? && w.pc.decision != Approve)
  }

  /** Nothing left to do but to file a verdict, record results and end. */
  predicate Closing(s: State, wid: nat) {
    wid in s.waiters && (s.waiters[wid].pc.File? || s.waiters[wid].pc.Report?)
  }

  /** The waiter neither ends nor is lost in a crash. */
  predicate Stays(st: Step, wid: nat) {
    st != Crash && !(st.Act? && st.wid == wid && st.move.Ends?)
  }

  function Saved(x: (Rid, RunResult)): (Rid, RunResult) {
    (x.0, RunResult(x.1.exit, Truncated(x.1.output)))
  }

  function AllSaved(todo: seq<(Rid, RunResult)>): seq<(Rid, RunResult)> {
    seq(|todo|, k requires 0 <= k < |todo| => Saved(todo[k]))
  }

  /** What a report of the waiter leaves on disk. */
  function OneRecorded(s: State, st: Step, wid: nat): seq<(Rid, RunResult)>
    requires Enabled(s, st)
  {
    if st != Act(wid, Reports) then []
    else
      var rid := s.waiters[wid].pc.todo[0].0;
      ReportIsSaved(s, wid);
      [(rid, Apply(s, st).disk.results[rid])]
  }

  /** The results that the waiter's reports leave on disk, report by report. */
  function Recorded(s: State, steps: seq<Step>, wid: nat): seq<(Rid, RunResult)>
    requires CanRun(s, steps)
    decreases |steps|
  {
    if steps == [] then [] else OneRecorded(s, steps[0], wid) + Recorded(Apply(s, steps[0]), steps[1..], wid)
  }

  lemma ReportIsSaved(s: State, wid: nat)
    requires Enabled(s, Act(wid, Reports))
    ensures var x := s.waiters[wid].pc.todo[0]; var d' := Apply(s, Act(wid, Reports)).disk;
      x.0 in d'.results && (x.0, d'.results[x.0]) == Saved(x)
  {
    hide Truncated;
  }

  lemma OthersLeave(s: State, st: Step, wid: nat)
    requires Enabled(s, st) && wid in s.waiters && st != Crash && !(st.Act? && st.wid == wid)
    ensures wid in Apply(s, st).waiters && Apply(s, st).waiters[wid] == s.waiters[wid]
  {
    match st {
      case Act(i, m) =>
        MoveLeavesOthers(s, i, m, wid);
        hide Moved, MoveEnabled;
      case Do(deed) =>
        DeedLeavesWaiters(s, deed);
        hide Done, DeedEnabled;
      case Scan(look) =>
      case NewRun(_, _, _, _) =>
      case NewOther(_, _) =>
    }
  }

  lemma DeedLeavesWaiters(s: State, deed: Deed)
    requires DeedEnabled(s, deed)
    ensures Done(s, deed).waiters == s.waiters
  {
  }

  lemma MoveLeavesOthers(s: State, i: nat, m: Move, wid: nat)
    requires i in s.waiters && wid in s.waiters && MoveEnabled(s, s.waiters[i], m) && i != wid
    ensures wid in Moved(s, i, m).waiters && Moved(s, i, m).waiters[wid] == s.waiters[wid]
  {
    hide NextPc;
  }

  lemma StepRecords(s: State, st: Step, wid: nat)
    requires Enabled(s, st) && Closing(s, wid) && Stays(st, wid)
    ensures Closing(Apply(s, st), wid)
    ensures var before, after := Pending(s.waiters[wid].pc), Pending(Apply(s, st).waiters[wid].pc);
      if st == Act(wid, Reports) then before != [] && after == before[1..] else after == before
  {
    if !(st.Act? && st.wid == wid) {
      OthersLeave(s, st, wid);
      hide Apply, Enabled;
    }
  }

  /** What the waiter has still to record. */
  function Held(s: State, wid: nat): seq<(Rid, RunResult)> {
    if wid in s.waiters then Pending(s.waiters[wid].pc) else []
  }

  lemma SavedTail(todo: seq<(Rid, RunResult)>)
    requires todo != []
    ensures AllSaved(todo) == [Saved(todo[0])] + AllSaved(todo[1..])
  {
  }

  lemma StepSaves(s: State, st: Step, wid: nat)
    requires Enabled(s, st) && Closing(s, wid) && Stays(st, wid)
    ensures Closing(Apply(s, st), wid)
    ensures AllSaved(Held(s, wid)) == OneRecorded(s, st, wid) + AllSaved(Held(Apply(s, st), wid))
  {
    StepRecords(s, st, wid);
    if st == Act(wid, Reports) {
      ReportIsSaved(s, wid);
      SavedTail(Held(s, wid));
    } else {
      assert AllSaved(Held(s, wid)) == [] + AllSaved(Held(s, wid));
    }
    hide Apply, Enabled, Saved, AllSaved, Pending;
  }

  /** However its steps interleave with others', a closing waiter records what it holds, in order. */
  lemma {:induction false} RecordsPending(s: State, steps: seq<Step>, wid: nat)
    requires CanRun(s, steps) && Closing(s, wid) && forall st | st in steps :: Stays(st, wid)
    ensures Closing(RunTo(s, steps), wid)
    ensures Recorded(s, steps, wid) + AllSaved(Held(RunTo(s, steps), wid)) == AllSaved(Held(s, wid))
    decreases |steps|
  {
    if steps != [] {
      assert steps[0] in steps;
      StepSaves(s, steps[0], wid);
      hide Apply, Enabled, Closing, Stays, Held, AllSaved, OneRecorded;
      var s', rest := Apply(s, steps[0]), steps[1..];
      RecordsPending(s', rest, wid);
      FirstOfAll(s, steps, wid);
      hide CanRun, RunTo, Recorded;
      Regroup(OneRecorded(s, steps[0], wid), Recorded(s', rest, wid), AllSaved(Held(RunTo(s', rest), wid)));
    }
  }

  lemma FirstOfAll(s: State, steps: seq<Step>, wid: nat)
    requires steps != [] && CanRun(s, steps)
    ensures var s', rest := Apply(s, steps[0]), steps[1..];
      && CanRun(s', rest) && RunTo(s, steps) == RunTo(s', rest)
      && Recorded(s, steps, wid) == OneRecorded(s, steps[0], wid) + Recorded(s', rest, wid)
  {
    hide Apply, Enabled, OneRecorded;
  }

  lemma Regroup<T>(a: seq<T>, b: seq<T>, c: seq<T>)
    ensures (a + b) + c == a + (b + c)
  {
  }

  /** Two results pending, for the confirmation and then for its parent: the refusal's, or the same. */
  predicate PendsBoth(w: Waiter, pc: Pc, refused: bool) {
    && (pc.File? || pc.Report?) && |Pending(pc)| == 2
    && var a, b := Pending(pc)[0], Pending(pc)[1];
       && a.0 == w.rid && b.0 == w.root
       && if refused then b.1 == RunResult(0, "") && a.1.exit == -1 else a.1 == b.1
  }

  lemma ClosePends(w: Waiter, d: Decision)
    requires Chained(w)
    ensures PendsBoth(w, Close(w, d), false)
  {
  }

  lemma RefusePends(w: Waiter, reason: string)
    requires Chained(w)
    ensures PendsBoth(w, Refuse(w, reason), true)
  {
  }

  lemma FinishPends(w: Waiter, exit: int, output: string)
    requires Chained(w)
    ensures PendsBoth(w, Finish(w, exit, output), false)
  {
  }

  lemma Concluded(s: State, wid: nat, m: Move)
    requires wid in s.waiters && Chained(s.waiters[wid])
    requires MoveEnabled(s, s.waiters[wid], m) && Concludes(s, s.waiters[wid], m)
    ensures var w, s1 := s.waiters[wid], Moved(s, wid, m);
      Closing(s1, wid) && PendsBoth(w, s1.waiters[wid].pc, RefusedRun(s, w, m))
  {
    var w := s.waiters[wid];
    if m.Branch? {
      ClosePends(w, w.pc.decision);
    } else if m.Declines? || m.Spawns? {
      FinishPends(w, m.exit, m.output);
    } else if m.Blocks? {
      RefusePends(w, m.reason);
    } else {
      RefusePends(w, LOST_RECORD);
    }
    assert PendsBoth(w, Moved(s, wid, m).waiters[wid].pc, RefusedRun(s, w, m)) by {
      hide Close, Refuse, Finish, PendsBoth;
    }
    hide Moved, Pending;
  }

  /** A confirmation's waiter that ends, by a run, a refusal, a denial, a timeout, a cancellation or its
      caller's disconnect, records one result on the confirmation and then one on its parent, whatever
      happens in between; and they are the same exactly unless the run was refused: then the parent gets
      exit code 0 and no output. */
  lemma ParentResultIff(s: State, wid: nat, m: Move, next: seq<Step>)
    requires wid in s.waiters && Chained(s.waiters[wid])
    requires MoveEnabled(s, s.waiters[wid], m) && Concludes(s, s.waiters[wid], m)
    requires CanRun(Apply(s, Act(wid, m)), next) && forall st | st in next :: Stays(st, wid)
    requires var s' := RunTo(Apply(s, Act(wid, m)), next); wid in s'.waiters && s'.waiters[wid].pc == Report([])
    ensures var w := s.waiters[wid]; var done := Recorded(Apply(s, Act(wid, m)), next, wid);
      && |done| == 2 && done[0].0 == w.rid && done[1].0 == w.root
      && (done[1].1 == done[0].1 <==> !RefusedRun(s, w, m))
      && (RefusedRun(s, w, m) ==> done[1].1 == RunResult(0, "") && done[0].1.exit == -1)
  {
    Concluded(s, wid, m);
    var s1 := Apply(s, Act(wid, m));
    RecordsPending(s1, next, wid);
    var todo, done := Pending(s1.waiters[wid].pc), Recorded(s1, next, wid);
    hide Moved, Concludes, RefusedRun, RunTo, CanRun, Recorded, Closing;
    assert PendsBoth(s.waiters[wid], s1.waiters[wid].pc, RefusedRun(s, s.waiters[wid], m));
    assert done + AllSaved([]) == done;
    assert done == AllSaved(todo) && done[0] == Saved(todo[0]) && done[1] == Saved(todo[1]);
    assert Truncated("") == "";
    hide Truncated;
  }

  /** And it always can: from wherever others have left the disk, the waiter's own steps finish it. */
  lemma {:induction false} CanFinish(s: State, wid: nat) returns (steps: seq<Step>)
    requires Closing(s, wid)
    ensures CanRun(s, steps) && (forall st | st in steps :: Stays(st, wid))
    ensures var s' := RunTo(s, steps); wid in s'.waiters && s'.waiters[wid].pc == Report([])
    decreases |Pending(s.waiters[wid].pc)|, s.waiters[wid].pc.File?
  {
    var pc := s.waiters[wid].pc;
    if pc == Report([]) {
      steps := [];
    } else {
      var m := if pc.File? then Files else Reports;
      assert Enabled(s, Act(wid, m));
      StepRecords(s, Act(wid, m), wid);
      assert !Apply(s, Act(wid, m)).waiters[wid].pc.File?;
      var rest := CanFinish(Apply(s, Act(wid, m)), wid);
      steps := [Act(wid, m)] + rest;
      assert steps[1..] == rest;
    }
  }
}
