/** What status reads after a cancel call that files, with its own writes torn or not and with any other
    writer under way: at once, for good, and until somebody records another result. */
module TornReads {
  import opened Records
  import opened Protocol
  import opened Invariant
  import opened Preserve
  import opened Guarantees
  import opened Queries
  import opened Cancelling
  import opened TornCalls
  import Refinement

  // ----- Drift results belong to approved petitions --------------------------------------------------

  predicate DriftResult(r: RunResult) {
    r.exit == -1 && Drifted(r.output)
  }

  /** What is pending at `pc` from a drift gate belongs to approved petitions. */
  predicate GatedPc(d: Disk, pc: Pc) {
    forall x | x in Pending(pc) && DriftResult(x.1) :: Approved(d, x.0)
  }

  predicate Gated(s: State) {
    forall i | i in s.waiters :: GatedPc(s.disk, s.waiters[i].pc)
  }

  lemma PlainResults()
    ensures !DriftResult(RunResult(-1, "")) && !DriftResult(RunResult(0, ""))
          && !DriftResult(RunResult(-1, LOST_RECORD))
    ensures !DriftResult(RunResult(-1, "client_aborted")) && !DriftResult(RunResult(-1, "confirmation_timeout"))
    ensures !DriftResult(RunResult(-1, "cancelled"))
  {
    PlainTexts();
  }

  lemma CloseIsGated(d: Disk, w: Waiter, decision: Decision)
    ensures GatedPc(d, Close(w, decision))
  {
    PlainResults();
    hide DriftResult;
  }

  lemma RefuseIsGated(d: Disk, w: Waiter, reason: string)
    requires Approved(d, w.rid) || !Drifted(reason)
    ensures GatedPc(d, Refuse(w, reason))
  {
    PlainResults();
    var own, parent := Denied(w.rid, reason), (w.root, RunResult(0, ""));
    assert forall x | x in Pending(Refuse(w, reason)) :: x == own || x == parent;
  }

  lemma FinishIsGated(d: Disk, w: Waiter, exit: int, output: string)
    requires Approved(d, w.rid) && Approved(d, w.root)
    ensures GatedPc(d, Finish(w, exit, output))
  {
    assert forall x | x in Pending(Finish(w, exit, output)) :: x.0 == w.rid || x.0 == w.root;
  }

  lemma ArmedIsApproved(s: State, wid: nat)
    requires Inv(s) && wid in s.waiters && Armed(s.waiters[wid].pc)
    ensures Approved(s.disk, s.waiters[wid].rid) && Approved(s.disk, s.waiters[wid].root)
  {
    hide SpawnsOk, QueueOk, NoneForgotten, PinsOk, PetitionsKept, Shaped;
    var w := s.waiters[wid];
    assert WaiterOk(s, w);
    if w.rid != w.root {
      assert ChildOf(s.disk, w.rid, w.root);
    }
  }

  lemma GateIsGated(s: State, wid: nat, m: Move)
    requires Inv(s) && wid in s.waiters && (m.Blocks? || m.Declines?) && MoveEnabled(s, s.waiters[wid], m)
    ensures GatedPc(s.disk, NextPc(s, s.waiters[wid], m))
  {
    var w := s.waiters[wid];
    ArmedIsApproved(s, wid);
    hide Inv, Drifted, DriftResult, GatedPc, Refuse, Finish;
    if m.Blocks? {
      RefuseIsGated(s.disk, w, m.reason);
    } else {
      FinishIsGated(s.disk, w, m.exit, m.output);
    }
  }

  lemma NextPcIsGated(s: State, wid: nat, m: Move)
    requires Inv(s) && wid in s.waiters && Local(m) && MoveEnabled(s, s.waiters[wid], m)
    ensures GatedPc(s.disk, NextPc(s, s.waiters[wid], m))
  {
    var w := s.waiters[wid];
    if m.Blocks? || m.Declines? {
      GateIsGated(s, wid, m);
      hide Inv, NextPc, GatedPc;
    } else {
      hide Inv, Close, Refuse, DriftResult, Drifted, Approved;
      if m.Branch? {
        CloseIsGated(s.disk, w, w.pc.decision);
      } else {
        PlainTexts();
        RefuseIsGated(s.disk, w, LOST_RECORD);
      }
    }
  }

  lemma MoveLeavesOthers(s: State, wid: nat, m: Move)
    requires wid in s.waiters && MoveEnabled(s, s.waiters[wid], m)
    ensures forall i | i in Moved(s, wid, m).waiters && i != wid ::
              i in s.waiters && Moved(s, wid, m).waiters[i] == s.waiters[i]
  {
    hide NextPc;
  }

  lemma OwnPcIsGated(s: State, wid: nat, m: Move)
    requires wid in s.waiters && MoveEnabled(s, s.waiters[wid], m) && !Local(m) && !m.Spawns?
    requires GatedPc(s.disk, s.waiters[wid].pc)
    ensures wid in Moved(s, wid, m).waiters ==> GatedPc(s.disk, Moved(s, wid, m).waiters[wid].pc)
  {
    if m.Reports? {
      assert forall x | x in s.waiters[wid].pc.todo[1..] :: x in s.waiters[wid].pc.todo;
    }
    hide DriftResult, Approved, MovedLocally;
  }

  lemma MoveIsGated(s: State, wid: nat, m: Move)
    requires Inv(s) && Gated(s) && wid in s.waiters && MoveEnabled(s, s.waiters[wid], m)
    ensures wid in Moved(s, wid, m).waiters ==> GatedPc(s.disk, Moved(s, wid, m).waiters[wid].pc)
  {
    assert GatedPc(s.disk, s.waiters[wid].pc);
    hide GatedPc;
    if Local(m) {
      NextPcIsGated(s, wid, m);
      assert Moved(s, wid, m) == MovedLocally(s, wid, m);
      hide Inv, NextPc, Moved;
    } else if m.Spawns? {
      ArmedIsApproved(s, wid);
      FinishIsGated(s.disk, s.waiters[wid], m.exit, m.output);
      hide Inv, Finish, MovedLocally;
    } else {
      hide Inv, Moved;
      OwnPcIsGated(s, wid, m);
    }
  }

  lemma ApprovedStays(s: State, s': State, pc: Pc)
    requires Later(s, s') && GatedPc(s.disk, pc)
    ensures GatedPc(s'.disk, pc)
  {
  }

  lemma OthersArePlain(s: State, st: Step)
    requires Enabled(s, st) && !st.Act?
    ensures forall i | i in Apply(s, st).waiters ::
              (i in s.waiters && Apply(s, st).waiters[i] == s.waiters[i]) || Pending(Apply(s, st).waiters[i].pc) == []
  {
  }

  lemma PlainIsGated(d: Disk, pc: Pc)
    ensures Pending(pc) == [] ==> GatedPc(d, pc)
  {
  }

  lemma StepIsGated(s: State, st: Step)
    requires Inv(s) && Gated(s) && Enabled(s, st)
    ensures Gated(Apply(s, st))
  {
    var s' := Apply(s, st);
    StepIsLater(s, st);
    hide Later, Moved, Done, Looked, Crashed, Petitioned, Pending, GatedPc;
    if st.Act? {
      MoveIsGated(s, st.wid, st.move);
      MoveLeavesOthers(s, st.wid, st.move);
    } else {
      OthersArePlain(s, st);
    }
    hide Inv, Enabled;
    forall i | i in s'.waiters ensures GatedPc(s'.disk, s'.waiters[i].pc) {
      PlainIsGated(s.disk, s'.waiters[i].pc);
      assert GatedPc(s.disk, s'.waiters[i].pc);
      ApprovedStays(s, s', s'.waiters[i].pc);
    }
  }

  lemma {:induction false} RunIsGated(s: State, steps: seq<Step>)
    requires Inv(s) && Gated(s) && CanRun(s, steps)
    ensures Gated(RunTo(s, steps))
    decreases |steps|
  {
    if steps != [] {
      StepIsGated(s, steps[0]);
      StepKeeps(s, steps[0]);
      hide Inv, Gated, Apply, Enabled;
      RunIsGated(Apply(s, steps[0]), steps[1..]);
    }
  }

  // ----- Right after the call ------------------------------------------------------------------------

  /** The call has been at this record: cancel, verdict and result are filed, and no denial was there. */
  predicate Touched(d: Disk, rid: Rid) {
    && rid in d.cancels && rid in d.verdicts && rid in d.results && d.results[rid].output == "cancelled"
    && (d.verdicts[rid].Holds? ==> d.verdicts[rid].content.decision != Deny)
  }

  lemma OneTouches(d: Disk, rid: Rid, q: CancelRequest, other: Rid)
    requires rid in d.recs && (Verdict(d, rid).Some? ==> Verdict(d, rid).value.decision != Deny)
    ensures Touched(CancelOne(d, rid, q), rid)
    ensures Touched(d, other) ==> Touched(CancelOne(d, rid, q), other)
  {
  }

  lemma FilingTouches(d: Disk, dir: seq<Rid>, q: CancelRequest, now: int, rid: Rid)
    requires Shaped(d) && Families(d) && q.rid in d.recs && d.recs[q.rid].petition.kind == Exec
    requires !KnownCancelled(d, dir, q.rid) && CancelOutcome(d, dir, q, now).response.cancelled
    requires rid in d.recs && InFamily(d, rid, Root(d, q.rid))
    ensures Touched(CancelOutcome(d, dir, q, now).disk, rid)
  {
    hide KnownCancelled, CancelOne, Touched;
    FoundIsChild(d, dir, q.rid);
    var p := d.recs[q.rid].petition;
    if p.step == Confirm {
      var parent := p.confirmOf.value;
      assert ChildOf(d, q.rid, parent) && rid in {q.rid, parent};
      OneTouches(d, q.rid, q, parent);
      OneAdds(d, q.rid, q);
      OneTouches(CancelOne(d, q.rid, q), parent, q, q.rid);
    } else if Approved(d, q.rid) {
      var child := FindConfirmation(d, dir, q.rid).value;
      assert ChildOf(d, child, q.rid) && rid in {q.rid, child};
      OneTouches(d, child, q, q.rid);
      OneAdds(d, child, q);
      OneTouches(CancelOne(d, child, q), q.rid, q, child);
    } else {
      assert forall c :: !ChildOf(d, c, q.rid);
      assert rid == q.rid;
      OneTouches(d, q.rid, q, q.rid);
    }
  }

  /** No drift is read off the cancel file, now or when its write is finished. */
  predicate CleanFile(d: Disk, rid: Rid) {
    rid in d.cancels && match d.cancels[rid]
                        case Creating(c) => !Drifted(c.reason)
                        case Holds(c) => !Drifted(c.reason)
                        case Torn => true
  }

  lemma TouchedReads(d: Disk, files: seq<Rid>, rid: Rid, time: int)
    requires Touched(d, rid) && rid in d.recs && d.recs[rid].petition.kind == Exec
    ensures Status(d, files, rid, time).status == "cancelled" <==>
            if CancelInfo(d, rid).Some? then !Drifted(CancelInfo(d, rid).value.reason) else Verdict(d, rid).Some?
  {
    StatusIs(d, files, rid, time);
    PlainTexts();
    hide Status, Drifted, DriftOf;
    assert "pending"[0] != "cancelled"[0] && "timeout"[0] != "cancelled"[0] && "denied"[0] != "cancelled"[0];
  }

  lemma FilingReads(s: State, q: CancelRequest, dir: seq<Rid>, f: Faults, rid: Rid)
    requires Inv(s) && CancelOutcome(s.disk, dir, q, s.now).response.cancelled
    requires q.rid in s.disk.recs && s.disk.recs[q.rid].petition.kind == Exec && !KnownCancelled(s.disk, dir, q.rid)
    requires rid in s.disk.recs && InFamily(s.disk, rid, Root(s.disk, q.rid))
    ensures var d := CalledTorn(s, q, dir, f).disk;
      Touched(d, rid) && rid in d.recs && d.recs[rid].petition == s.disk.recs[rid].petition
  {
    CallAdds(s.disk, dir, q, s.now);
    FilingTouches(s.disk, dir, q, s.now, rid);
    hide CancelOutcome, KnownCancelled, Inv, InFamily;
  }

  // ----- Until another result is recorded ------------------------------------------------------------

  /** A readable verdict that is no denial, and the word as the result. */
  predicate Worded(d: Disk, rid: Rid) {
    && rid in d.recs && d.recs[rid].petition.kind == Exec
    && Verdict(d, rid).Some? && Verdict(d, rid).value.decision != Deny
    && rid in d.results && d.results[rid].output == WORD
  }

  /** A waiter records another text on the petition. */
  predicate Overwrites(s: State, st: Step, rid: Rid) {
    && st.Act? && st.move.Reports? && st.wid in s.waiters
    && var pc := s.waiters[st.wid].pc; pc.Report? && pc.todo != [] && pc.todo[0].0 == rid && pc.todo[0].1.output != WORD
  }

  predicate Overwritten(s: State, steps: seq<Step>, rid: Rid)
    requires CanRun(s, steps)
    decreases |steps|
  {
    steps != [] && (Overwrites(s, steps[0], rid) || Overwritten(Apply(s, steps[0]), steps[1..], rid))
  }

  /** What a step can make of a result: the cancel call's, or the one a waiter reports. */
  ghost predicate Replaced(s: State, st: Step, d': Disk, rid: Rid) {
    && rid in s.disk.results && rid in d'.results
    && (d'.results[rid] == s.disk.results[rid] || d'.results[rid] == RunResult(-1, WORD) || IsReport(s, st, d', rid))
  }

  predicate IsReport(s: State, st: Step, d': Disk, rid: Rid) {
    && st.Act? && st.move.Reports? && st.wid in s.waiters && rid in d'.results
    && var pc := s.waiters[st.wid].pc;
       && pc.Report? && pc.todo != [] && pc.todo[0].0 == rid
       && d'.results[rid] == RunResult(pc.todo[0].1.exit, Truncated(pc.todo[0].1.output))
  }

  lemma ResultChanges(s: State, st: Step, rid: Rid)
    requires Inv(s) && Enabled(s, st) && rid in s.disk.results
    ensures Replaced(s, st, Apply(s, st).disk, rid)
    ensures st.Act? && st.move.Reports? && s.waiters[st.wid].pc.todo[0].0 == rid
          ==> IsReport(s, st, Apply(s, st).disk, rid)
  {
    if st.Act? && st.move.Reports? {
      hide Inv;
      ReportReplaces(s, st.wid, rid);
      hide Replaced, IsReport, Moved;
    } else {
      OtherStepResults(s, st);
      hide Apply, Enabled, Inv;
    }
  }

  lemma ReportReplaces(s: State, wid: nat, rid: Rid)
    requires wid in s.waiters && MoveEnabled(s, s.waiters[wid], Reports) && rid in s.disk.results
    ensures Replaced(s, Act(wid, Reports), Moved(s, wid, Reports).disk, rid)
    ensures s.waiters[wid].pc.todo[0].0 == rid ==> IsReport(s, Act(wid, Reports), Moved(s, wid, Reports).disk, rid)
  {
    hide Truncated, NextPc;
  }

  lemma OtherStepResults(s: State, st: Step)
    requires Inv(s) && Enabled(s, st) && !(st.Act? && st.move.Reports?)
    ensures var d' := Apply(s, st).disk; forall r | r in s.disk.results ::
              r in d'.results && (d'.results[r] == s.disk.results[r] || d'.results[r] == RunResult(-1, WORD))
  {
    match st {
      case NewRun(_, _, _, _) => hide Inv;
      case NewOther(_, _) => hide Inv;
      case Crash => hide Inv;
      case Do(deed) =>
        hide Inv, Done, DeedEnabled;
        DeedResults(s, deed);
      case Scan(look) =>
        LookResults(s, look);
        hide Inv, Looked, LookEnabled;
      case Act(wid, m) =>
        hide Inv, Moved, MoveEnabled;
        MoveLeavesResults(s, wid, m);
    }
  }

  lemma DeedResults(s: State, deed: Deed)
    requires DeedEnabled(s, deed)
    ensures var d' := Done(s, deed).disk; forall r | r in s.disk.results ::
              r in d'.results && (d'.results[r] == s.disk.results[r] || d'.results[r] == RunResult(-1, WORD))
  {
    WordIsShort(WORD);
    hide Edited, WithCreated, WithFilled, WithTorn, Truncated;
    if deed.CreateSlip? || deed.FillSlip? || deed.TearSlip? {
      SlipResults(s, deed);
    }
  }

  lemma SlipResults(s: State, deed: Deed)
    requires DeedEnabled(s, deed) && (deed.CreateSlip? || deed.FillSlip? || deed.TearSlip?)
    ensures Done(s, deed).disk.results == s.disk.results
  {
    match deed {
      case CreateSlip(rid, slip) => CreatedResults(s.disk, rid, slip);
      case FillSlip(rid, file) => FilledResults(s.disk, rid, file);
      case TearSlip(rid, file) => FilledResults(s.disk, rid, file);
    }
    hide WithCreated, WithFilled, WithTorn, DeedEnabled;
  }

  lemma CreatedResults(d: Disk, rid: Rid, slip: Slip)
    ensures WithCreated(d, rid, slip).results == d.results
  {
  }

  lemma FilledResults(d: Disk, rid: Rid, file: SlipKind)
    ensures WithFilled(d, rid, file).results == d.results && WithTorn(d, rid, file).results == d.results
  {
  }

  lemma LookResults(s: State, look: Look)
    requires Inv(s) && LookEnabled(s, look)
    ensures Looked(s, look).disk.results == s.disk.results
  {
    if look.AdoptExpired? {
      ExpiryBranchIsDead(s, look.rid);
      assert false;
    } else {
      hide Inv, LookEnabled;
    }
  }

  lemma MoveLeavesResults(s: State, wid: nat, m: Move)
    requires wid in s.waiters && MoveEnabled(s, s.waiters[wid], m) && !m.Reports?
    ensures Moved(s, wid, m).disk.results == s.disk.results
  {
  }

  lemma VerdictIsKept(s: State, s': State, rid: Rid)
    requires Inv(s) && Inv(s') && Later(s, s') && rid in s.disk.recs && Verdict(s.disk, rid).Some?
    ensures rid in s'.disk.recs && s'.disk.recs[rid].petition == s.disk.recs[rid].petition
    ensures Verdict(s'.disk, rid) == Verdict(s.disk, rid)
  {
    hide WaitersOk, SpawnsOk, QueueOk, NoneForgotten, PinsOk, Families, Shaped;
    assert rid in s.first;
  }

  lemma ReportedWord(s: State, st: Step, d': Disk, rid: Rid)
    requires Replaced(s, st, d', rid) && s.disk.results[rid].output == WORD
    requires st.Act? && st.move.Reports? && Enabled(s, st) && s.waiters[st.wid].pc.todo[0].0 == rid ==>
               IsReport(s, st, d', rid)
    ensures d'.results[rid].output == WORD <==> !Overwrites(s, st, rid)
  {
    hide Truncated;
    if IsReport(s, st, d', rid) {
      WordIsShort(s.waiters[st.wid].pc.todo[0].1.output);
    }
  }

  lemma StepKeepsWord(s: State, st: Step, rid: Rid)
    requires Inv(s) && Enabled(s, st) && Worded(s.disk, rid)
    ensures var d' := Apply(s, st).disk;
      && rid in d'.recs && d'.recs[rid].petition == s.disk.recs[rid].petition
      && Verdict(d', rid) == Verdict(s.disk, rid)
      && (Worded(d', rid) <==> !Overwrites(s, st, rid))
  {
    StepIsLater(s, st);
    StepKeeps(s, st);
    VerdictIsKept(s, Apply(s, st), rid);
    ResultChanges(s, st, rid);
    hide Apply, Enabled, Inv, Later;
    ReportedWord(s, st, Apply(s, st).disk, rid);
    hide IsReport, Overwrites;
  }

  lemma WordIsShort(text: string)
    ensures Truncated(text) == WORD <==> text == WORD
  {
    if |text| > 8192 {
      assert |Truncated(text)| > |WORD| && |text| > |WORD|;
    }
  }

  lemma WordedReads(d: Disk, files: seq<Rid>, rid: Rid, time: int)
    requires Worded(d, rid)
    ensures Status(d, files, rid, time).status == FileWord(d, rid)
  {
    StatusIs(d, files, rid, time);
    PlainTexts();
    hide Status, Drifted, DriftOf;
  }

  /** The word by the cancel file, where one can be read. */
  function FileWord(d: Disk, rid: Rid): string {
    if CancelInfo(d, rid).Some? then ReasonWord(CancelInfo(d, rid).value.reason) else WORD
  }

  /** Where the word stands as the result beside a verdict that is no denial, the petition reads by its
      cancel file, or as cancelled if none can be read, until a waiter records another text. */
  lemma {:induction false} ReadsUntilOverwritten(s: State, steps: seq<Step>, rid: Rid)
    requires Inv(s) && CanRun(s, steps) && Worded(s.disk, rid) && !Overwritten(s, steps, rid)
    ensures var d := RunTo(s, steps).disk;
      Worded(d, rid) && forall files, time :: Status(d, files, rid, time).status == FileWord(d, rid)
    decreases |steps|
  {
    if steps == [] {
      hide Worded, Status, FileWord;
      forall files, time ensures Status(s.disk, files, rid, time).status == FileWord(s.disk, rid) {
        WordedReads(s.disk, files, rid, time);
      }
    } else {
      StepKeeps(s, steps[0]);
      StepKeepsWord(s, steps[0], rid);
      hide Inv, Worded, Apply, Enabled, Overwrites, Status, FileWord;
      ReadsUntilOverwritten(Apply(s, steps[0]), steps[1..], rid);
    }
  }

  /** Beside an approval and an exit code of -1, the confirmation says that it was cancelled, and neither
      its reason nor, without one, the output is a drift gate's text. */
  predicate Upheld(d: Disk, files: seq<Rid>, rid: Rid)
    requires rid in d.results
  {
    var r, child := d.results[rid], FindConfirmation(d, files, rid);
    && Approved(d, rid) && r.exit == -1 && child.Some?
    && r.output != "confirmation_timeout" && r.output != "client_aborted"
    && match CancelInfo(d, child.value)
       case Some(c) => !Drifted(if c.reason != "" then c.reason else r.output)
       case None =>
         && Verdict(d, child.value).Some? && Verdict(d, child.value).value.decision == Cancelled
         && !Drifted(r.output)
  }

  /** Once a waiter has recorded another text on a petition that is not marked, it no longer reads as
      cancelled, exactly unless its confirmation upholds it. */
  lemma LostUnlessUpheld(s: State, st: Step, files: seq<Rid>, rid: Rid, time: int)
    requires Inv(s) && Enabled(s, st) && Worded(s.disk, rid) && Overwrites(s, st, rid)
    requires CancelInfo(Apply(s, st).disk, rid).None? && Verdict(s.disk, rid).value.decision != Cancelled
    ensures var d' := Apply(s, st).disk;
      rid in d'.results && (Status(d', files, rid, time).status == WORD <==> Upheld(d', files, rid))
  {
    StepKeepsWord(s, st, rid);
    ResultChanges(s, st, rid);
    hide Inv, Apply, Enabled, Overwrites, Replaced, IsReport;
    OtherTextReads(Apply(s, st).disk, files, rid, time);
  }

  lemma OtherTextReads(d: Disk, files: seq<Rid>, rid: Rid, time: int)
    requires rid in d.recs && d.recs[rid].petition.kind == Exec && CancelInfo(d, rid).None?
    requires Verdict(d, rid).Some? && Verdict(d, rid).value.decision !in {Deny, Cancelled}
    requires rid in d.results && d.results[rid].output != WORD
    ensures Status(d, files, rid, time).status == WORD <==> Upheld(d, files, rid)
  {
    WordIs(d, files, rid, time, WORD);
    PlainTexts();
    hide Status, Drifted, DecisionName;
    WordBegins();
  }

  lemma WordBegins()
    ensures "denied" != WORD && "timeout" != WORD && "client_aborted" != WORD && "completed" != WORD
  {
    assert WORD[0] == 'c' && WORD[1] == 'a' && "client_aborted"[1] != 'a' && "completed"[1] != 'a';
  }

  // ----- For good ------------------------------------------------------------------------------------

  /** The cancel file can be read, or the verdict is a cancellation. */
  predicate Marked(d: Disk, rid: Rid) {
    CancelInfo(d, rid).Some? || (Verdict(d, rid).Some? && Verdict(d, rid).value.decision == Cancelled)
  }

  lemma DriftIsShort(r: RunResult)
    ensures DriftResult(RunResult(r.exit, Truncated(r.output))) <==> DriftResult(r)
  {
    var text := Truncated(r.output);
    if |r.output| > 8192 {
      assert text[..8192] == r.output[..8192];
      assert forall prefix: string | |prefix| <= 11 :: prefix <= text <==> prefix <= text[..8192];
      assert forall prefix: string | |prefix| <= 11 :: prefix <= r.output <==> prefix <= r.output[..8192];
    }
  }

  /** Marked, and no drift gate's text is the result. */
  predicate MarkedQuietly(d: Disk, rid: Rid) {
    && rid in d.recs && d.recs[rid].petition.kind == Exec && Marked(d, rid)
    && rid in d.results && (CancelInfo(d, rid).None? ==> !DriftResult(d.results[rid]))
  }

  lemma DoomedReads(d: Disk, files: seq<Rid>, rid: Rid, time: int)
    requires MarkedQuietly(d, rid)
    ensures Status(d, files, rid, time).status == FileWord(d, rid)
  {
    StatusIs(d, files, rid, time);
    PlainTexts();
    hide Status, Drifted, DriftOf;
  }

  lemma MarkStays(s: State, s': State, rid: Rid)
    requires Inv(s) && Inv(s') && Later(s, s') && rid in s.disk.recs && Marked(s.disk, rid)
    ensures Marked(s'.disk, rid) && rid in s'.disk.recs && s'.disk.recs[rid].petition == s.disk.recs[rid].petition
    ensures CancelInfo(s.disk, rid).Some? ==> CancelInfo(s'.disk, rid) == CancelInfo(s.disk, rid)
    ensures CancelInfo(s.disk, rid).None? ==> !Approved(s.disk, rid)
  {
    hide WaitersOk, SpawnsOk, QueueOk, NoneForgotten, PinsOk, Families, Shaped;
    assert rid in s.first;
  }

  lemma ReportIsQuiet(s: State, st: Step, d': Disk, rid: Rid)
    requires Gated(s) && !Approved(s.disk, rid) && IsReport(s, st, d', rid)
    ensures !DriftResult(d'.results[rid])
  {
    var pc := s.waiters[st.wid].pc;
    assert GatedPc(s.disk, pc) && pc.todo[0] in Pending(pc);
    hide Gated, Truncated;
    DriftIsShort(pc.todo[0].1);
    hide DriftResult;
  }

  lemma NoDriftRecorded(s: State, st: Step, rid: Rid)
    requires Inv(s) && Gated(s) && Enabled(s, st) && !Approved(s.disk, rid)
    requires rid in s.disk.results && !DriftResult(s.disk.results[rid])
    ensures var d' := Apply(s, st).disk; rid in d'.results && !DriftResult(d'.results[rid])
  {
    ResultChanges(s, st, rid);
    hide Inv, Apply, Enabled, IsReport, DriftResult, Gated;
    PlainResults();
    if IsReport(s, st, Apply(s, st).disk, rid) {
      ReportIsQuiet(s, st, Apply(s, st).disk, rid);
    }
  }

  lemma StepDooms(s: State, st: Step, rid: Rid)
    requires Inv(s) && Gated(s) && Enabled(s, st) && MarkedQuietly(s.disk, rid)
    ensures MarkedQuietly(Apply(s, st).disk, rid)
  {
    StepIsLater(s, st);
    StepKeeps(s, st);
    MarkStays(s, Apply(s, st), rid);
    ResultChanges(s, st, rid);
    hide Apply, Enabled, Inv, Later, DriftResult, Gated, IsReport;
    if CancelInfo(s.disk, rid).None? {
      NoDriftRecorded(s, st, rid);
    }
  }

  lemma {:induction false} RunDooms(s: State, steps: seq<Step>, rid: Rid)
    requires Inv(s) && Gated(s) && CanRun(s, steps) && MarkedQuietly(s.disk, rid)
    ensures MarkedQuietly(RunTo(s, steps).disk, rid)
    decreases |steps|
  {
    if steps != [] {
      StepDooms(s, steps[0], rid);
      StepKeeps(s, steps[0]);
      StepIsGated(s, steps[0]);
      hide Inv, Gated, MarkedQuietly, Apply, Enabled;
      RunDooms(Apply(s, steps[0]), steps[1..], rid);
    }
  }

  lemma DoomedAlwaysReads(s: State, rid: Rid)
    requires Inv(s) && Gated(s) && MarkedQuietly(s.disk, rid)
    ensures forall steps, files, time | CanRun(s, steps) ::
              Status(RunTo(s, steps).disk, files, rid, time).status == FileWord(RunTo(s, steps).disk, rid)
  {
    hide CanRun, RunTo, Inv, Gated, MarkedQuietly, Status, FileWord;
    forall steps, files, time | CanRun(s, steps)
      ensures Status(RunTo(s, steps).disk, files, rid, time).status == FileWord(RunTo(s, steps).disk, rid)
    {
      RunDooms(s, steps, rid);
      DoomedReads(RunTo(s, steps).disk, files, rid, time);
    }
  }

  lemma CleanStays(s: State, steps: seq<Step>, rid: Rid)
    requires Inv(s) && CanRun(s, steps) && CleanFile(s.disk, rid)
    ensures FileWord(RunTo(s, steps).disk, rid) == WORD
  {
    RunIsLater(s, steps);
    hide Inv, CanRun, RunTo, Drifted;
  }

  /** A cancel file whose reason starts like a drift gate's text, or will once it is written, can come to
      be read. */
  lemma UncleanShows(s: State, rid: Rid) returns (steps: seq<Step>)
    requires rid in s.disk.cancels && !CleanFile(s.disk, rid)
    ensures CanRun(s, steps) && FileWord(RunTo(s, steps).disk, rid) == "denied"
  {
    if s.disk.cancels[rid].Holds? {
      steps := [];
    } else {
      var fill := Do(FillSlip(rid, CancelFile));
      steps := [fill];
      assert Enabled(s, fill) && CancelInfo(Apply(s, fill).disk, rid) == Some(s.disk.cancels[rid].draft);
      Refinement.OneStep(s, fill);
    }
  }

  /** So a marked petition reads as cancelled for good exactly if its cancel file is clean. */
  lemma ForGoodIff(s: State, rid: Rid)
    requires Inv(s) && Gated(s) && MarkedQuietly(s.disk, rid) && rid in s.disk.cancels
    ensures (forall steps, files, time | CanRun(s, steps) ::
          Status(RunTo(s, steps).disk, files, rid, time).status == WORD)
            <==> CleanFile(s.disk, rid)
  {
    DoomedAlwaysReads(s, rid);
    if CleanFile(s.disk, rid) {
      forall steps | CanRun(s, steps) ensures FileWord(RunTo(s, steps).disk, rid) == WORD {
        CleanStays(s, steps, rid);
      }
    } else {
      var steps := UncleanShows(s, rid);
      assert Status(RunTo(s, steps).disk, [], rid, 0).status == "denied";
      assert "denied"[0] != WORD[0];
    }
    hide CanRun, RunTo, Inv, Gated, MarkedQuietly, Status, FileWord, CleanFile;
  }

  lemma CallIsGated(s: State, q: CancelRequest, dir: seq<Rid>, f: Faults)
    requires Gated(s)
    ensures Gated(CalledTorn(s, q, dir, f))
  {
    var s' := CalledTorn(s, q, dir, f);
    CallAdds(s.disk, dir, q, s.now);
    hide CancelOutcome, DriftResult, Pending;
    assert forall r :: Approved(s.disk, r) ==> Approved(s'.disk, r);
    hide Approved;
    forall i | i in s'.waiters ensures GatedPc(s'.disk, s'.waiters[i].pc) {
      assert GatedPc(s.disk, s.waiters[i].pc);
    }
  }

  /** After a call that files, each executable record of the family reads as cancelled at once exactly if
      its cancel file can be read and is no drift gate's text, or else its verdict file can be read. If it
      is marked, it goes by the cancel file from then on, and reads as cancelled for good exactly if that
      file is clean. If it is not, it reads by its result text, until a waiter records another. */
  lemma CancelReadsExactly(now: int, cfg: Config, before: seq<Step>, q: CancelRequest, dir: seq<Rid>, f: Faults,
      rid: Rid)
    requires CanRun(Boot(now, cfg), before)
    requires var s := RunTo(Boot(now, cfg), before);
      && CancelOutcome(s.disk, dir, q, s.now).response.cancelled
      && q.rid in s.disk.recs && s.disk.recs[q.rid].petition.kind == Exec && !KnownCancelled(s.disk, dir, q.rid)
      && rid in s.disk.recs && s.disk.recs[rid].petition.kind == Exec && InFamily(s.disk, rid, Root(s.disk, q.rid))
    ensures var s' := CalledTorn(RunTo(Boot(now, cfg), before), q, dir, f);
      && (forall files, time :: Status(s'.disk, files, rid, time).status == WORD <==>
            if CancelInfo(s'.disk, rid).Some? then !Drifted(CancelInfo(s'.disk, rid).value.reason)
            else Verdict(s'.disk, rid).Some?)
      && (Marked(s'.disk, rid) ==>
            ((forall steps, files, time | CanRun(s', steps) ::
              Status(RunTo(s', steps).disk, files, rid, time).status == WORD)
             <==> CleanFile(s'.disk, rid)))
      && (Marked(s'.disk, rid) ==> forall steps, files, time | CanRun(s', steps) ::
            Status(RunTo(s', steps).disk, files, rid, time).status == FileWord(RunTo(s', steps).disk, rid))
      && (Verdict(s'.disk, rid).Some? ==> forall steps, files, time | CanRun(s', steps)
         && !Overwritten(s', steps, rid) ::
            Status(RunTo(s', steps).disk, files, rid, time).status == FileWord(RunTo(s', steps).disk, rid))
  {
    var s := RunTo(Boot(now, cfg), before);
    ReachableIsGood(now, cfg, before);
    BootIsGood(now, cfg);
    RunIsGated(Boot(now, cfg), before);
    var s' := CalledTorn(s, q, dir, f);
    CallKeeps(s, q, dir, f);
    CallIsGated(s, q, dir, f);
    FilingReads(s, q, dir, f, rid);
    hide CancelOutcome, KnownCancelled, CalledTorn, RunTo, Inv, Gated, InFamily, CanRun;
    TouchedIsReady(s'.disk, rid);
    hide Touched, Marked, Worded, MarkedQuietly, CleanFile, Status, FileWord, Overwritten;
    forall files, time
      ensures Status(s'.disk, files, rid, time).status == WORD <==>
              if CancelInfo(s'.disk, rid).Some? then !Drifted(CancelInfo(s'.disk, rid).value.reason)
              else Verdict(s'.disk, rid).Some?
    {
      TouchedReads(s'.disk, files, rid, time);
    }
    if Marked(s'.disk, rid) {
      DoomedAlwaysReads(s', rid);
      ForGoodIff(s', rid);
    }
    if Verdict(s'.disk, rid).Some? {
      forall steps | CanRun(s', steps) && !Overwritten(s', steps, rid)
        ensures forall files, time ::
          Status(RunTo(s', steps).disk, files, rid, time).status == FileWord(RunTo(s', steps).disk, rid)
      {
        ReadsUntilOverwritten(s', steps, rid);
      }
    }
  }

  lemma TouchedIsReady(d: Disk, rid: Rid)
    requires Touched(d, rid) && rid in d.recs && d.recs[rid].petition.kind == Exec
    ensures rid in d.cancels && (Marked(d, rid) ==> MarkedQuietly(d, rid)) && (Verdict(d, rid).Some? ==> Worded(d, rid))
  {
    PlainResults();
  }
}
