/** The status, list and history of a petition agree in every reachable state, and which answers
    stay the answer. */
module Agreement {
  import opened Records
  import opened Protocol
  import opened Invariant
  import opened Preserve
  import opened Guarantees
  import opened Queries
  import opened Cancelling
  import opened Refinement
  import opened Cancellation
  import opened CancelTheorems
  import opened Texts

  /** At every moment of every run, however its steps interleave. */
  lemma QueriesAgree(now: int, cfg: Config, steps: seq<Step>, dir: seq<Rid>, rid: Rid, time: int)
    requires CanRun(Boot(now, cfg), steps)
    ensures var d := RunTo(Boot(now, cfg), steps).disk;
      && (Listed(d, time, rid) <==> Status(d, dir, rid, time).status == "pending" && Verdict(d, rid).None?)
      && (rid in d.recs && d.recs[rid].petition.kind == Exec ==>
            (Listed(d, time, rid) <==> Status(d, dir, rid, time).status == "pending"))
      && (Listed(d, time, rid) ==> RecentDecision(d, dir, rid).None?)
  {
    ReachableIsGood(now, cfg, steps);
    ListedIffPending(RunTo(Boot(now, cfg), steps).disk, dir, rid, time);
  }

  lemma ReadingIgnoresOrder(d: Disk, dir: seq<Rid>, dir': seq<Rid>, rid: Rid, time: int)
    requires Families(d) && Lists(d, dir) && Lists(d, dir')
    ensures Status(d, dir, rid, time) == Status(d, dir', rid, time)
    ensures RecentDecision(d, dir, rid) == RecentDecision(d, dir', rid)
  {
    assert FindConfirmation(d, dir, rid) == FindConfirmation(d, dir', rid) by {
      FindIgnoresOrder(d, dir, dir', rid);
    }
    hide Families, FindConfirmation, Lists;
  }

  /** Reading a parent's state does not depend on how the directory happens to be ordered. */
  lemma StatusIgnoresOrder(now: int, cfg: Config, steps: seq<Step>, dir: seq<Rid>, dir': seq<Rid>, rid: Rid, time: int)
    requires CanRun(Boot(now, cfg), steps)
    requires var d := RunTo(Boot(now, cfg), steps).disk; Lists(d, dir) && Lists(d, dir')
    ensures var d := RunTo(Boot(now, cfg), steps).disk;
      && Status(d, dir, rid, time) == Status(d, dir', rid, time)
      && RecentDecision(d, dir, rid) == RecentDecision(d, dir', rid)
  {
    ReachableIsGood(now, cfg, steps);
    ReadingIgnoresOrder(RunTo(Boot(now, cfg), steps).disk, dir, dir', rid, time);
  }

  // ----- Absorbing statuses ---------------------------------------------------------------------------

  /** A petition that reads as cancelled, or as denied for a drift, reads so for the rest of the run, whoever
      made it so: the cancel call by its reason, a drift gate, or a command by what it printed. */
  lemma FinalStays(now: int, cfg: Config, before: seq<Op>, next: seq<Op>, dir: seq<Rid>, rid: Rid, time: int)
    requires CanDo(Boot(now, cfg), before)
    requires var s := DoAll(Boot(now, cfg), before); CanDo(s, next) && Final(Status(s.disk, dir, rid, time))
    ensures var s := DoAll(Boot(now, cfg), before);
      var st := Status(s.disk, dir, rid, time);
      forall files, later :: var st' := Status(DoAll(s, next).disk, files, rid, later);
        st'.status == st.status && st'.decision == st.decision
  {
    var s := DoAll(Boot(now, cfg), before);
    SpokenFromBoot(now, cfg, before);
    FinalIsOnRecord(s.disk, dir, rid, time);
    assert Bare(s.disk, rid) ==> LastWord(s, rid);
    OnRecordReads(s.disk, dir, rid, time);
    OnRecordStays(s, next, rid);
    var s' := DoAll(s, next);
    SpokenIsSettled(s');
    hide DoAll, CanDo, OnRecord, FinalText, Spoken, Final, Status;
    forall files, later
      ensures var st, st' := Status(s.disk, dir, rid, time), Status(s'.disk, files, rid, later);
        st'.status == st.status && st'.decision == st.decision
    {
      OnRecordReads(s'.disk, files, rid, later);
    }
  }

  lemma SpokenIsSettled(s: State)
    requires Spoken(s)
    ensures Shaped(s.disk) && Settling(s.disk)
  {
  }

  // ----- A confirmation of a question ----------------------------------------------------------------

  /** The confirmation of a cancelled question or notice, itself not cancelled. */
  predicate PassedOver(d: Disk, rid: Rid) {
    && rid in d.recs && Root(d, rid) in d.recs && d.recs[Root(d, rid)].petition.kind != Exec
    && CancelInfo(d, Root(d, rid)).Some? && CancelInfo(d, rid).None?
  }

  /** After a positive answer for an executable petition that petition reads as cancelled, now and in
      every continuation, exactly unless it confirms a cancelled question or notice and carries no cancel
      file itself, and the call has changed nothing; or the reason on file starts like a drift gate's text,
      and the petition reads as denied. */
  lemma CancelReadsIff(now: int, cfg: Config, before: seq<Op>, q: CancelRequest, dir: seq<Rid>)
    requires CanDo(Boot(now, cfg), before)
    requires var s := DoAll(Boot(now, cfg), before);
      && Lists(s.disk, dir) && CancelOutcome(s.disk, dir, q, s.now).response.cancelled
      && q.rid in s.disk.recs && s.disk.recs[q.rid].petition.kind == Exec
    ensures var s := DoAll(Boot(now, cfg), before);
      var s' := Called(s, q, dir);
      if PassedOver(s.disk, q.rid) then
        s'.disk == s.disk && forall files, time :: Status(s'.disk, files, q.rid, time).status != "cancelled"
      else
        forall next, files, time | CanDo(s', next) ::
          Status(DoAll(s', next).disk, files, q.rid, time).status == ReasonWord(FiledReason(s.disk, q.rid, q))
  {
    var s := DoAll(Boot(now, cfg), before);
    SpokenFromBoot(now, cfg, before);
    var s' := Called(s, q, dir);
    OpSpeaks(s, CancelCall(q, dir));
    assert s' == OpApply(s, CancelCall(q, dir));
    if PassedOver(s.disk, q.rid) {
      PassedOverReads(s, q, dir);
    } else {
      ElseMarked(s, q, dir);
      hide DoAll, CanDo, Spoken, PassedOver, Called, CancelOutcome, OpApply, FiledReason, OnRecord, FinalText;
      forall next, files, time | CanDo(s', next)
        ensures Status(DoAll(s', next).disk, files, q.rid, time).status == ReasonWord(FiledReason(s.disk, q.rid, q))
      {
        OnRecordStays(s', next, q.rid);
        SpokenIsSettled(DoAll(s', next));
        OnRecordReads(DoAll(s', next).disk, files, q.rid, time);
      }
    }
  }

  lemma PassedOverReads(s: State, q: CancelRequest, dir: seq<Rid>)
    requires Spoken(s) && PassedOver(s.disk, q.rid) && s.disk.recs[q.rid].petition.kind == Exec
    ensures Called(s, q, dir).disk == s.disk
    ensures forall files, time :: Status(s.disk, files, q.rid, time).status != "cancelled"
  {
    var root := Root(s.disk, q.rid);
    assert ChildOf(s.disk, q.rid, root);
    assert s.disk.recs[q.rid].petition.argv == [] by {
      hide Settling, CancelsSeen, Voiced, WaitersOk, SpawnsOk, QueueOk, NoneForgotten, PinsOk, PetitionsKept;
    }
    if Bare(s.disk, q.rid) {
      assert false;
    }
    RefusalChangesNothing(s.disk, dir, q, s.now);
    hide Inv, CancelsSeen, Voiced, Bare, Settling, Status;
    forall files, time ensures Status(s.disk, files, q.rid, time).status != "cancelled" {
      if Status(s.disk, files, q.rid, time).status == "cancelled" {
        FinalIsOnRecord(s.disk, files, q.rid, time);
      }
    }
  }

  lemma GivenIsOnRecord(d: Disk, d': Disk, q: CancelRequest, rid: Rid)
    requires Written(d) && Adds(d, d', q) && rid in d'.recs && rid in d'.cancels
    ensures OnRecord(d', rid) && CancelInfo(d', rid).Some? && FinalText(d', rid) == FiledReason(d, rid, q)
  {
  }

  lemma ElseMarked(s: State, q: CancelRequest, dir: seq<Rid>)
    requires CoarseInv(s) && Lists(s.disk, dir) && CancelOutcome(s.disk, dir, q, s.now).response.cancelled
    requires q.rid in s.disk.recs && s.disk.recs[q.rid].petition.kind == Exec && !PassedOver(s.disk, q.rid)
    ensures OnRecord(Called(s, q, dir).disk, q.rid)
    ensures FinalText(Called(s, q, dir).disk, q.rid) == FiledReason(s.disk, q.rid, q)
  {
    hide WaitersOk, SpawnsOk, QueueOk, NoneForgotten, PinsOk, PetitionsKept, CancelOutcome, CancelsSeen;
    hide OnRecord, FinalText, FiledReason;
    var d, d' := s.disk, Called(s, q, dir).disk;
    CancelDooms(s, q, dir);
    CancelSettles(d, dir, q, s.now);
    CallAdds(d, dir, q, s.now);
    var root := Root(d, q.rid);
    if !KnownCancelled(d, dir, q.rid) {
      CancelGrows(d, dir, q, s.now);
    } else if d.recs[root].petition.kind == Exec {
      ExecRootMarks(d', q.rid, root);
    } else {
      KnownQuestion(d, dir, q.rid);
    }
    GivenIsOnRecord(d, d', q, q.rid);
    hide Settling, KnownCancelled;
  }

  lemma ExecRootMarks(d: Disk, rid: Rid, root: Rid)
    requires Settling(d) && root == Root(d, rid) && rid in d.recs && root in d.recs
    requires root in d.cancels && d.recs[root].petition.kind == Exec
    ensures rid in d.cancels
  {
    if rid != root {
      assert ChildOf(d, rid, root);
    }
  }

  lemma KnownQuestion(d: Disk, dir: seq<Rid>, rid: Rid)
    requires Settling(d) && Shaped(d) && Families(d) && rid in d.recs && d.recs[rid].petition.kind == Exec
    requires Root(d, rid) in d.recs && d.recs[Root(d, rid)].petition.kind != Exec
    requires KnownCancelled(d, dir, rid) && !PassedOver(d, rid)
    ensures rid in d.cancels
  {
    assert ChildOf(d, rid, Root(d, rid));
  }

  // ----- Answers -------------------------------------------------------------------------------------

  /** The call is made, by someone who may, for a confirmation that was chained onto this question or
      notice and is neither decided, nor cancelled, nor expired. */
  predicate CancelsThrough(s: State, op: Op, rid: Rid) {
    && op.CancelCall?
    && var q := op.request;
       && q.rid != "" && ChildOf(s.disk, q.rid, rid) && MayCancel(s.disk, q)
       && Verdict(s.disk, q.rid).None? && CancelInfo(s.disk, q.rid).None?
       && s.disk.recs[q.rid].petition.expires > s.now
  }

  ghost predicate HasAnswer(d: Disk, rid: Rid) {
    && rid in d.recs && CancelInfo(d, rid).None?
    && ((d.recs[rid].petition.kind == Ask && SelectionInfo(d, rid).Some?)
        || (d.recs[rid].petition.kind == Notify && AckInfo(d, rid).Some?))
  }

  /** The records a call puts a cancellation on. */
  function Hit(d: Disk, dir: seq<Rid>, q: CancelRequest, now: int): set<Rid> {
    if q.rid !in d.recs || KnownCancelled(d, dir, q.rid) || !CancelOutcome(d, dir, q, now).response.cancelled then {}
    else
      var p := d.recs[q.rid].petition;
      if p.kind != Exec then {q.rid}
      else if p.step == Confirm then if p.confirmOf.Some? then {q.rid, p.confirmOf.value} else {q.rid}
      else if Approved(d, q.rid) && FindConfirmation(d, dir, q.rid).Some?
      then {q.rid, FindConfirmation(d, dir, q.rid).value}
      else {q.rid}
  }

  lemma OneHits(d: Disk, rid: Rid, q: CancelRequest)
    requires rid in d.recs
    ensures CancelOne(d, rid, q).recs == d.recs
    ensures CancelOne(d, rid, q).cancels.Keys == d.cancels.Keys + {rid}
  {
  }

  lemma ConfirmHits(d: Disk, dir: seq<Rid>, q: CancelRequest, now: int)
    requires Families(d) && q.rid in d.recs && CancelConfirm(d, q, now).response.cancelled
    ensures var p := d.recs[q.rid].petition;
      CancelConfirm(d, q, now).disk.cancels.Keys
      == d.cancels.Keys + if p.confirmOf.Some? then {q.rid, p.confirmOf.value} else {q.rid}
  {
    hide CancelOne;
    OneHits(d, q.rid, q);
    var p := d.recs[q.rid].petition;
    if p.confirmOf.Some? {
      assert ChildOf(d, q.rid, p.confirmOf.value);
      OneHits(CancelOne(d, q.rid, q), p.confirmOf.value, q);
    }
  }

  lemma InitialHits(d: Disk, dir: seq<Rid>, q: CancelRequest, now: int)
    requires q.rid in d.recs && CancelInitial(d, dir, q, now).response.cancelled
    ensures CancelInitial(d, dir, q, now).disk.cancels.Keys
            == d.cancels.Keys + if Approved(d, q.rid) && FindConfirmation(d, dir, q.rid).Some?
                                then {q.rid, FindConfirmation(d, dir, q.rid).value} else {q.rid}
  {
    hide CancelOne;
    OneHits(d, q.rid, q);
    if Approved(d, q.rid) {
      var child := FindConfirmation(d, dir, q.rid).value;
      OneHits(d, child, q);
      OneHits(CancelOne(d, child, q), q.rid, q);
    }
  }

  lemma CallHits(d: Disk, dir: seq<Rid>, q: CancelRequest, now: int)
    requires Families(d)
    ensures CancelOutcome(d, dir, q, now).disk.cancels.Keys == d.cancels.Keys + Hit(d, dir, q, now)
  {
    UnknownIsRefused(d, dir, q, now);
    RefusalChangesNothing(d, dir, q, now);
    if q.rid in d.recs && !KnownCancelled(d, dir, q.rid) && CancelOutcome(d, dir, q, now).response.cancelled {
      hide CancelConfirm, CancelInitial, KnownCancelled;
      var p := d.recs[q.rid].petition;
      if p.kind == Exec && p.step == Confirm {
        ConfirmHits(d, dir, q, now);
      } else if p.kind == Exec {
        InitialHits(d, dir, q, now);
      }
    } else {
      hide CancelOutcome, KnownCancelled;
    }
  }

  lemma ThroughIsAnswered(s: State, op: Op, rid: Rid)
    requires Shaped(s.disk) && HasAnswer(s.disk, rid) && op.CancelCall? && ChildOf(s.disk, op.request.rid, rid)
    ensures CancelsThrough(s, op, rid) <==>
            && !KnownCancelled(s.disk, op.dir, op.request.rid)
            && CancelOutcome(s.disk, op.dir, op.request, s.now).response.cancelled
  {
  }

  lemma CallCancelsIff(s: State, op: Op, rid: Rid)
    requires Shaped(s.disk) && HasAnswer(s.disk, rid) && op.CancelCall?
    ensures rid in Hit(s.disk, op.dir, op.request, s.now) <==> CancelsThrough(s, op, rid)
  {
    hide KnownCancelled;
    var d, q := s.disk, op.request;
    FoundIsChild(d, op.dir, q.rid);
    if ChildOf(d, q.rid, rid) {
      ThroughIsAnswered(s, op, rid);
    }
    if q.rid == rid && !KnownCancelled(d, op.dir, q.rid) {
      AnsweredIsRefused(d, s.now, q, op.dir);
    }
    hide CancelOutcome;
  }

  lemma AnsweredIsRefused(d: Disk, now: int, q: CancelRequest, dir: seq<Rid>)
    requires HasAnswer(d, q.rid) && !KnownCancelled(d, dir, q.rid)
    ensures !CancelOutcome(d, dir, q, now).response.cancelled
  {
    hide KnownCancelled;
  }

  lemma OthersCancelNothing(s: State, op: Op)
    requires PetitionsKept(s) && WaitersOk(s) && Written(s.disk) && OpEnabled(s, op) && !op.CancelCall?
    ensures OpApply(s, op).disk.cancels == s.disk.cancels
  {
    match op {
      case Small(st) => SmallCancels(s, st);
      case Answer(rid, slip) => CreateThenFill(s.disk, rid, slip);
      case WaiterFiles(_) =>
    }
  }

  lemma AnswerIsKept(s: State, op: Op, rid: Rid)
    requires CoarseInv(s) && OpEnabled(s, op) && HasAnswer(s.disk, rid)
    ensures var d' := OpApply(s, op).disk;
      rid in d'.recs && d'.recs[rid].petition == s.disk.recs[rid].petition
    ensures HasAnswer(OpApply(s, op).disk, rid) <==> CancelInfo(OpApply(s, op).disk, rid).None?
  {
    hide Whole, CancelsSeen, WaitersOk, SpawnsOk, QueueOk, NoneForgotten, PinsOk, CancelOutcome, OpApply;
    var s' := OpApply(s, op);
    var steps := OpIsRun(s, op);
    RunIsLater(s, steps);
    OpKeeps(s, op);
    hide Settling, Families;
    assert s'.disk.recs[rid].petition == s.disk.recs[rid].petition;
    hide Shaped, PetitionsKept;
  }

  lemma AnsweredStaysIff(s: State, op: Op, rid: Rid)
    requires CoarseInv(s) && OpEnabled(s, op) && HasAnswer(s.disk, rid)
    ensures HasAnswer(OpApply(s, op).disk, rid) <==> !CancelsThrough(s, op, rid)
  {
    AnswerIsKept(s, op, rid);
    OpKeeps(s, op);
    if op.CancelCall? {
      CallHits(s.disk, op.dir, op.request, s.now);
      CallCancelsIff(s, op, rid);
    } else {
      OthersCancelNothing(s, op);
    }
    hide Inv, CancelsSeen, Hit, CancelOutcome, KnownCancelled;
  }

  /** The word status has for an answered question or notice. */
  predicate ReadsAnswered(d: Disk, files: seq<Rid>, rid: Rid, time: int) {
    var word := Status(d, files, rid, time).status;
    rid in d.recs && ((d.recs[rid].petition.kind == Ask && word == "selected")
      || (d.recs[rid].petition.kind == Notify && word == "acked"))
  }

  lemma AnsweredReads(d: Disk, files: seq<Rid>, rid: Rid, time: int)
    ensures ReadsAnswered(d, files, rid, time) <==> HasAnswer(d, rid)
  {
    assert "denied"[0] != "selected"[0] && "denied"[0] != "acked"[0];
    WordIs(d, files, rid, time, "selected");
    WordIs(d, files, rid, time, "acked");
    PlainTexts();
    hide Status, Drifted;
    assert "cancelled"[0] != "selected"[0] && "pending"[0] != "selected"[0] && "timeout"[0] != "selected"[0];
    assert "cancelled"[0] != "acked"[0] && "pending"[0] != "acked"[0] && "timeout"[0] != "acked"[0];
  }

  /** A selected question or acknowledged notice reads so after an operation exactly unless that is a call
      cancelling a confirmation chained onto it. */
  lemma AnswerStaysIff(now: int, cfg: Config, before: seq<Op>, op: Op, files: seq<Rid>, rid: Rid, time: int)
    requires CanDo(Boot(now, cfg), before)
    requires var s := DoAll(Boot(now, cfg), before); OpEnabled(s, op) && ReadsAnswered(s.disk, files, rid, time)
    ensures var s := DoAll(Boot(now, cfg), before);
      (forall files', later :: ReadsAnswered(OpApply(s, op).disk, files', rid, later)) <==> !CancelsThrough(s, op, rid)
  {
    var s := DoAll(Boot(now, cfg), before);
    CoarseReachable(now, cfg, before);
    AnsweredReads(s.disk, files, rid, time);
    hide CoarseInv, DoAll, CanDo;
    AnsweredStaysIff(s, op, rid);
    hide HasAnswer, ReadsAnswered, CancelsThrough, OpApply;
    forall files', later
      ensures ReadsAnswered(OpApply(s, op).disk, files', rid, later) <==> HasAnswer(OpApply(s, op).disk, rid)
    {
      AnsweredReads(OpApply(s, op).disk, files', rid, later);
    }
    assert ReadsAnswered(OpApply(s, op).disk, files, rid, time) <==> HasAnswer(OpApply(s, op).disk, rid);
  }

  predicate NeverThrough(s: State, ops: seq<Op>, rid: Rid)
    requires CanDo(s, ops)
    decreases |ops|
  {
    ops != [] ==> !CancelsThrough(s, ops[0], rid) && NeverThrough(OpApply(s, ops[0]), ops[1..], rid)
  }

  lemma {:induction false} AnsweredStays(s: State, ops: seq<Op>, rid: Rid)
    requires CoarseInv(s) && CanDo(s, ops) && HasAnswer(s.disk, rid) && NeverThrough(s, ops, rid)
    ensures HasAnswer(DoAll(s, ops).disk, rid)
    decreases |ops|
  {
    if ops != [] {
      AnsweredStaysIff(s, ops[0], rid);
      OpKeeps(s, ops[0]);
      AnsweredStays(OpApply(s, ops[0]), ops[1..], rid);
    }
  }

  /** And so over every continuation without such a call. */
  lemma AnswerStays(now: int, cfg: Config, before: seq<Op>, next: seq<Op>, files: seq<Rid>, rid: Rid, time: int)
    requires CanDo(Boot(now, cfg), before)
    requires var s := DoAll(Boot(now, cfg), before);
      CanDo(s, next) && ReadsAnswered(s.disk, files, rid, time) && NeverThrough(s, next, rid)
    ensures var s' := DoAll(DoAll(Boot(now, cfg), before), next);
      forall files', later :: ReadsAnswered(s'.disk, files', rid, later)
  {
    var s := DoAll(Boot(now, cfg), before);
    CoarseReachable(now, cfg, before);
    AnsweredReads(s.disk, files, rid, time);
    AnsweredStays(s, next, rid);
    var s' := DoAll(s, next);
    hide CoarseInv, DoAll, CanDo, NeverThrough, HasAnswer, ReadsAnswered;
    forall files', later ensures ReadsAnswered(s'.disk, files', rid, later) {
      AnsweredReads(s'.disk, files', rid, later);
    }
  }
}
