/** Each coarse operation is a run of fine steps, so whatever holds of every fine run holds of
    every coarse one. */
module Refinement {
  import opened Records
  import opened Protocol
  import opened Invariant
  import opened Guarantees
  import opened Queries
  import opened Cancelling

  /** No file stands created and unwritten, as between two coarse operations. */
  ghost predicate NoDrafts<T>(files: map<Rid, Once<T>>) {
    forall r | r in files :: files[r].Holds?
  }

  ghost predicate Written(d: Disk) {
    NoDrafts(d.verdicts) && NoDrafts(d.cancels) && NoDrafts(d.acks) && NoDrafts(d.selections)
  }

  function WriteSteps(rid: Rid, slip: Slip): seq<Step> {
    [Do(CreateSlip(rid, slip)), Do(FillSlip(rid, KindOf(slip)))]
  }

  lemma TwoSteps(s: State, a: Step, b: Step)
    requires Enabled(s, a) && Enabled(Apply(s, a), b)
    ensures CanRun(s, [a, b]) && RunTo(s, [a, b]) == Apply(Apply(s, a), b)
  {
    var s1 := Apply(s, a);
    assert [a, b][1..] == [b] && [b][1..] == [];
    assert CanRun(Apply(s1, b), []);
    assert CanRun(s1, [b]) && RunTo(s1, [b]) == Apply(s1, b);
  }

  lemma OneStep(s: State, a: Step)
    requires Enabled(s, a)
    ensures CanRun(s, [a]) && RunTo(s, [a]) == Apply(s, a)
  {
    assert CanRun(Apply(s, a), []);
    assert [a][1..] == [];
  }

  lemma CreateThenFill(d: Disk, rid: Rid, slip: Slip)
    requires Written(d)
    ensures WithFilled(WithCreated(d, rid, slip), rid, KindOf(slip)) == Answered(d, rid, slip)
    ensures Written(Answered(d, rid, slip))
  {
    match slip {
      case VerdictSlip(v) => assert Fill(Create(d.verdicts, rid, v), rid) == WriteOnce(d.verdicts, rid, v);
      case CancelSlip(c) => assert Fill(Create(d.cancels, rid, c), rid) == WriteOnce(d.cancels, rid, c);
      case AckSlip(a) => assert Fill(Create(d.acks, rid, a), rid) == WriteOnce(d.acks, rid, a);
      case SelectionSlip(x) => assert Fill(Create(d.selections, rid, x), rid) == WriteOnce(d.selections, rid, x);
    }
  }

  lemma WriteIsRun(s: State, rid: Rid, slip: Slip)
    requires Written(s.disk) && SlipAllowed(s.disk, rid, slip)
    ensures CanRun(s, WriteSteps(rid, slip))
    ensures RunTo(s, WriteSteps(rid, slip)) == s.(disk := Answered(s.disk, rid, slip))
  {
    CreateThenFill(s.disk, rid, slip);
    TwoSteps(s, Do(CreateSlip(rid, slip)), Do(FillSlip(rid, KindOf(slip))));
  }

  // ----- The cancel call -------------------------------------------------------------------------------

  function CancelSlips(rid: Rid, q: CancelRequest): seq<Step> {
    WriteSteps(rid, CancelSlip(CancelRecord(q.who, q.reason)))
  }

  function CancelOneSteps(rid: Rid, q: CancelRequest): seq<Step> {
    CancelSlips(rid, q)
    + (WriteSteps(rid, VerdictSlip(VerdictRecord(Cancelled, q.who)))
       + [Do(CancelResult(rid))])
  }

  lemma CancelOneIsRun(s: State, rid: Rid, q: CancelRequest)
    requires Written(s.disk) && rid in s.disk.recs
    ensures CanRun(s, CancelOneSteps(rid, q))
    ensures RunTo(s, CancelOneSteps(rid, q)) == s.(disk := CancelOne(s.disk, rid, q))
    ensures Written(CancelOne(s.disk, rid, q)) && CancelOne(s.disk, rid, q).recs == s.disk.recs
  {
    var c := CancelSlip(CancelRecord(q.who, q.reason));
    var v := VerdictSlip(VerdictRecord(Cancelled, q.who));
    var w := Do(CancelResult(rid));
    WriteIsRun(s, rid, c);
    CreateThenFill(s.disk, rid, c);
    var s1 := s.(disk := Answered(s.disk, rid, c));
    WriteIsRun(s1, rid, v);
    CreateThenFill(s1.disk, rid, v);
    var s2 := s1.(disk := Answered(s1.disk, rid, v));
    OneStep(s2, w);
    RunsCompose(s1, WriteSteps(rid, v), [w]);
    RunsCompose(s, WriteSteps(rid, c), WriteSteps(rid, v) + [w]);
  }

  lemma ResumeIsRun(s: State, rid: Rid)
    requires rid in s.disk.recs
    ensures CanRun(s, [Do(ResumeStored(rid))])
    ensures RunTo(s, [Do(ResumeStored(rid))]) == s.(stopped := s.stopped - StoredPin(s.disk, rid))
  {
    OneStep(s, Do(ResumeStored(rid)));
  }

  /** Cancelling a record and resuming what it held. */
  function ReleaseSteps(rid: Rid, q: CancelRequest): seq<Step> {
    CancelOneSteps(rid, q) + [Do(ResumeStored(rid))]
  }

  lemma ReleaseIsRun(s: State, rid: Rid, q: CancelRequest)
    requires Written(s.disk) && rid in s.disk.recs
    ensures CanRun(s, ReleaseSteps(rid, q))
    ensures RunTo(s, ReleaseSteps(rid, q))
            == s.(disk := CancelOne(s.disk, rid, q), stopped := s.stopped - StoredPin(s.disk, rid))
    ensures Written(CancelOne(s.disk, rid, q)) && CancelOne(s.disk, rid, q).recs == s.disk.recs
  {
    CancelOneIsRun(s, rid, q);
    var mid := s.(disk := CancelOne(s.disk, rid, q));
    ResumeIsRun(mid, rid);
    RunsCompose(s, CancelOneSteps(rid, q), [Do(ResumeStored(rid))]);
  }

  lemma ReleaseTwoIsRun(s: State, a: Rid, b: Rid, q: CancelRequest)
    requires Written(s.disk) && a in s.disk.recs && b in s.disk.recs
    ensures CanRun(s, ReleaseSteps(a, q) + ReleaseSteps(b, q))
    ensures RunTo(s, ReleaseSteps(a, q) + ReleaseSteps(b, q))
            == s.(disk := CancelOne(CancelOne(s.disk, a, q), b, q),
                  stopped := s.stopped - (StoredPin(s.disk, a) + StoredPin(s.disk, b)))
  {
    ReleaseIsRun(s, a, q);
    var mid := RunTo(s, ReleaseSteps(a, q));
    ReleaseIsRun(mid, b, q);
    RunsCompose(s, ReleaseSteps(a, q), ReleaseSteps(b, q));
    assert s.stopped - StoredPin(s.disk, a) - StoredPin(s.disk, b)
        == s.stopped - (StoredPin(s.disk, a) + StoredPin(s.disk, b));
  }

  lemma ConfirmCancelIsRun(s: State, q: CancelRequest) returns (steps: seq<Step>)
    requires Written(s.disk) && Families(s.disk) && q.rid in s.disk.recs
    requires CancelConfirm(s.disk, q, s.now).response.cancelled
    ensures CanRun(s, steps)
    ensures var o := CancelConfirm(s.disk, q, s.now);
      RunTo(s, steps) == s.(disk := o.disk, stopped := s.stopped - o.resumed)
  {
    var p := s.disk.recs[q.rid].petition;
    if p.confirmOf.Some? {
      assert ChildOf(s.disk, q.rid, p.confirmOf.value);
      ReleaseTwoIsRun(s, q.rid, p.confirmOf.value, q);
      return ReleaseSteps(q.rid, q) + ReleaseSteps(p.confirmOf.value, q);
    }
    ReleaseIsRun(s, q.rid, q);
    return ReleaseSteps(q.rid, q);
  }

  lemma InitialCancelIsRun(s: State, dir: seq<Rid>, q: CancelRequest) returns (steps: seq<Step>)
    requires Written(s.disk) && q.rid in s.disk.recs
    requires CancelInitial(s.disk, dir, q, s.now).response.cancelled
    ensures CanRun(s, steps)
    ensures var o := CancelInitial(s.disk, dir, q, s.now);
      RunTo(s, steps) == s.(disk := o.disk, stopped := s.stopped - o.resumed)
  {
    if Verdict(s.disk, q.rid).Some? && Verdict(s.disk, q.rid).value.decision == Approve {
      var child := FindConfirmation(s.disk, dir, q.rid).value;
      ReleaseTwoIsRun(s, child, q.rid, q);
      return ReleaseSteps(child, q) + ReleaseSteps(q.rid, q);
    }
    ReleaseIsRun(s, q.rid, q);
    return ReleaseSteps(q.rid, q);
  }

  lemma CancelIsRun(s: State, q: CancelRequest, dir: seq<Rid>) returns (steps: seq<Step>)
    requires Written(s.disk) && Families(s.disk)
    ensures CanRun(s, steps)
    ensures var o := CancelOutcome(s.disk, dir, q, s.now);
      RunTo(s, steps) == s.(disk := o.disk, stopped := s.stopped - o.resumed)
  {
    hide Families, CancelConfirm, CancelInitial, KnownCancelled;
    var o := CancelOutcome(s.disk, dir, q, s.now);
    assert s.stopped - {} == s.stopped;
    if !o.response.cancelled || KnownCancelled(s.disk, dir, q.rid) {
      RefusalChangesNothing(s.disk, dir, q, s.now);
      return [];
    }
    var p := s.disk.recs[q.rid].petition;
    if p.kind != Exec {
      WriteIsRun(s, q.rid, CancelSlip(CancelRecord(q.who, q.reason)));
      return CancelSlips(q.rid, q);
    }
    if p.step == Confirm {
      steps := ConfirmCancelIsRun(s, q);
    } else {
      steps := InitialCancelIsRun(s, dir, q);
    }
  }

  // ----- Every operation ---------------------------------------------------------------------------------

  lemma FilesIsRun(s: State, wid: nat) returns (steps: seq<Step>)
    requires Written(s.disk) && wid in s.waiters && s.waiters[wid].pc.File?
    ensures CanRun(s, steps) && RunTo(s, steps) == OpApply(s, WaiterFiles(wid))
  {
    var w := s.waiters[wid];
    var v := VerdictSlip(VerdictRecord(w.pc.filed, ""));
    CreateThenFill(s.disk, w.rid, v);
    TwoSteps(s, Act(wid, Files), Do(FillSlip(w.rid, VerdictFile)));
    return [Act(wid, Files), Do(FillSlip(w.rid, VerdictFile))];
  }

  /** A coarse operation does what some sequence of fine steps does. */
  lemma OpIsRun(s: State, op: Op) returns (steps: seq<Step>)
    requires Written(s.disk) && Families(s.disk) && OpEnabled(s, op)
    ensures CanRun(s, steps) && RunTo(s, steps) == OpApply(s, op)
  {
    match op {
      case Small(st) =>
        OneStep(s, st);
        return [st];
      case Answer(rid, slip) =>
        WriteIsRun(s, rid, slip);
        return WriteSteps(rid, slip);
      case WaiterFiles(wid) => steps := FilesIsRun(s, wid);
      case CancelCall(q, dir) => steps := CancelIsRun(s, q, dir);
    }
  }
}
