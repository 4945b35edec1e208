/** What a cancel call promises when it answers that the petition is cancelled. */
module Cancellation {
  import opened Records
  import opened Protocol
  import opened Invariant
  import opened Preserve
  import opened Guarantees
  import opened Queries
  import opened Cancelling
  import opened Refinement

  // ----- The invariant of coarse runs ----------------------------------------------------------------

  /** An executable petition is cancelled only together with its verdict, and an approved one only
      together with its confirmation. */
  ghost predicate Settling(d: Disk) {
    && Written(d)
    && d.cancels.Keys <= d.recs.Keys
    && (forall r | r in d.cancels && d.recs[r].petition.kind == Exec :: r in d.verdicts)
    && (forall r | r in d.cancels && d.recs[r].petition.kind == Exec && Approved(d, r) :: exists c :: ChildOf(d, c, r))
    && (forall c, p | ChildOf(d, c, p) && c in d.cancels :: p in d.cancels)
    && (forall c, p | ChildOf(d, c, p) && p in d.cancels && d.recs[p].petition.kind == Exec :: c in d.cancels)
    && (forall r | r in d.verdicts && d.verdicts[r].content.decision == Cancelled :: r in d.cancels)
  }

  predicate SawCancel(pc: Pc) {
    (pc.Decided? && pc.decision == Cancelled) || (pc.File? && pc.filed == Cancelled)
  }

  ghost predicate CancelsSeen(s: State) {
    forall i | i in s.waiters && SawCancel(s.waiters[i].pc) :: s.waiters[i].rid in s.disk.cancels
  }

  ghost predicate CoarseInv(s: State) {
    Inv(s) && Settling(s.disk) && CancelsSeen(s)
  }

  // ----- Operations that leave the write-once files alone ---------------------------------------------

  ghost predicate SameFiles(d: Disk, d': Disk) {
    && d'.recs.Keys == d.recs.Keys
    && (forall r | r in d.recs :: d'.recs[r].petition == d.recs[r].petition)
    && d'.verdicts == d.verdicts && d'.cancels == d.cancels && d'.acks == d.acks && d'.selections == d.selections
  }

  lemma SameFilesSettle(d: Disk, d': Disk)
    requires Settling(d) && SameFiles(d, d')
    ensures Settling(d')
  {
    assert forall c, p :: ChildOf(d', c, p) == ChildOf(d, c, p);
    forall r | r in d'.cancels && d'.recs[r].petition.kind == Exec && Approved(d', r)
      ensures exists c :: ChildOf(d', c, r)
    {
      var c :| ChildOf(d, c, r);
      assert ChildOf(d', c, r);
    }
  }

  lemma CrashLeavesWritten(d: Disk)
    requires Written(d)
    ensures SameFiles(d, AfterCrash(d))
  {
  }

  predicate Saving(st: Step) {
    st.NewRun? || st.NewOther? || (st.Act? && st.move.ConfirmSaves?)
  }

  lemma MoveSameFiles(s: State, wid: nat, m: Move)
    requires wid in s.waiters && MoveEnabled(s, s.waiters[wid], m) && !m.Files? && !m.ConfirmSaves?
    requires WaiterOk(s, s.waiters[wid])
    ensures SameFiles(s.disk, Moved(s, wid, m).disk)
  {
    match m {
      case Freeze(g) =>
      case PinSaves =>
      case Spawns(exit, output) =>
      case Reports =>
      case Ends(readable) =>
      case _ =>
    }
  }

  lemma DeedSameFiles(s: State, deed: Deed)
    requires PetitionsKept(s) && DeedEnabled(s, deed) && Whole(Do(deed))
    ensures SameFiles(s.disk, Done(s, deed).disk) && Done(s, deed).waiters == s.waiters
  {
    match deed {
      case Tick(to) =>
      case Reconfigure(cfg) =>
      case EditLoad(rid, e) =>
      case _ =>
    }
  }

  lemma SmallSameFiles(s: State, st: Step)
    requires PetitionsKept(s) && WaitersOk(s) && Written(s.disk) && Enabled(s, st) && Whole(st) && !Saving(st)
    ensures SameFiles(s.disk, Apply(s, st).disk)
  {
    hide Moved, Looked, Done, SameFiles;
    match st {
      case Do(deed) => DeedSameFiles(s, deed);
      case Crash => CrashLeavesWritten(s.disk);
      case Scan(look) => LookSameFiles(s, look);
      case Act(wid, m) => MoveSameFiles(s, wid, m);
    }
  }

  lemma LookSameFiles(s: State, look: Look)
    requires LookEnabled(s, look)
    ensures SameFiles(s.disk, Looked(s, look).disk)
  {
  }

  // ----- New records -----------------------------------------------------------------------------------

  lemma GainSettles(d: Disk, d': Disk, rid: Rid, rec: PendingRecord)
    requires Settling(d) && DiskGains(d, d', rid, rec) && Unused(d, rid)
    requires rec.petition.confirmOf.Some? ==>
      var p := rec.petition.confirmOf.value;
      p in d.recs && (d.recs[p].petition.kind == Exec ==> p !in d.cancels)
    ensures Settling(d')
  {
    assert forall c, p | c != rid :: ChildOf(d', c, p) == ChildOf(d, c, p);
    forall r | r in d'.cancels && d'.recs[r].petition.kind == Exec && Approved(d', r)
      ensures exists c :: ChildOf(d', c, r)
    {
      var c :| ChildOf(d, c, r);
      assert ChildOf(d', c, r);
    }
    forall c, p | ChildOf(d', c, p) && p in d'.cancels && d'.recs[p].petition.kind == Exec
      ensures c in d'.cancels
    {
      if c != rid {
        assert ChildOf(d, c, p);
      }
    }
  }

  /** A waiter saves a confirmation only while its petition is not cancelled. */
  lemma ConfirmingIsUncancelled(s: State, wid: nat)
    requires Inv(s) && Settling(s.disk) && wid in s.waiters && s.waiters[wid].pc.ConfirmSave?
    ensures var r := s.waiters[wid].rid;
      r in s.disk.recs && (s.disk.recs[r].petition.kind == Exec ==> r !in s.disk.cancels)
  {
    assert WaiterOk(s, s.waiters[wid]);
  }

  lemma ConfirmingSettles(s: State, wid: nat, child: Rid, expires: int, git: int, fd: int, seal: int)
    requires Inv(s) && Settling(s.disk) && Unused(s.disk, child)
    requires wid in s.waiters && s.waiters[wid].pc.ConfirmSave?
    ensures Settling(Confirming(s, wid, child, expires, git, fd, seal).disk)
  {
    ConfirmingIsUncancelled(s, wid);
    hide Inv, Settling;
    var w := s.waiters[wid];
    GainSettles(s.disk, Confirming(s, wid, child, expires, git, fd, seal).disk, child,
                ChildRecord(w, w.pc.parent, expires, git, fd, seal));
  }

  lemma SavingSettles(s: State, st: Step)
    requires Inv(s) && Settling(s.disk) && Enabled(s, st) && Saving(st)
    ensures Settling(Apply(s, st).disk)
  {
    hide Inv, Settling;
    match st {
      case NewRun(rid, wid, p, detached) => GainSettles(s.disk, Petitioned(s, rid, p).disk, rid, NewRecord(p));
      case NewOther(rid, p) => GainSettles(s.disk, Petitioned(s, rid, p).disk, rid, NewRecord(p));
      case Act(wid, m) => ConfirmingSettles(s, wid, m.child, m.expires, m.git, m.fd, m.seal);
    }
  }

  lemma LocalSeesCancel(s: State, w: Waiter, m: Move)
    requires Local(m) && MoveEnabled(s, w, m) && Written(s.disk)
    requires forall r | r in s.disk.verdicts && s.disk.verdicts[r].content.decision == Cancelled :: r in s.disk.cancels
    requires SawCancel(w.pc) ==> w.rid in s.disk.cancels
    ensures SawCancel(NextPc(s, w, m)) ==> w.rid in s.disk.cancels
  {
  }

  lemma LocalSees(s: State, wid: nat, m: Move)
    requires Settling(s.disk) && CancelsSeen(s)
    requires wid in s.waiters && Local(m) && MoveEnabled(s, s.waiters[wid], m)
    ensures CancelsSeen(MovedLocally(s, wid, m))
  {
    LocalSeesCancel(s, s.waiters[wid], m);
    hide NextPc, Settling;
  }

  lemma MoveSees(s: State, wid: nat, m: Move)
    requires Settling(s.disk) && CancelsSeen(s)
    requires wid in s.waiters && MoveEnabled(s, s.waiters[wid], m) && !m.Files?
    ensures CancelsSeen(Moved(s, wid, m))
  {
    if Local(m) {
      LocalSees(s, wid, m);
    } else {
      hide Settling;
      match m {
        case Freeze(g) =>
        case PinSaves =>
        case ConfirmSaves(child, expires, git, fd, seal) =>
        case Spawns(exit, output) =>
        case Reports =>
        case _ =>
      }
    }
  }

  lemma ScanSees(s: State, look: Look)
    requires CancelsSeen(s) && LookEnabled(s, look)
    ensures CancelsSeen(Looked(s, look)) && SameFiles(s.disk, Looked(s, look).disk)
  {
  }

  lemma SmallSees(s: State, st: Step)
    requires PetitionsKept(s) && Settling(s.disk) && CancelsSeen(s) && Enabled(s, st) && Whole(st)
    ensures CancelsSeen(Apply(s, st))
  {
    match st {
      case NewRun(rid, wid, p, detached) => hide Settling, PetitionsKept;
      case NewOther(rid, p) => hide Settling, PetitionsKept;
      case Do(deed) =>
        DeedSameFiles(s, deed);
        hide Settling, Done, PetitionsKept;
      case Crash => hide Settling, PetitionsKept;
      case Scan(look) =>
        ScanSees(s, look);
        hide Settling, Looked, PetitionsKept, CancelsSeen;
      case Act(wid, m) => MoveSees(s, wid, m);
    }
  }

  lemma SmallKeeps(s: State, st: Step)
    requires CoarseInv(s) && Enabled(s, st) && Whole(st)
    ensures CoarseInv(Apply(s, st))
  {
    StepKeeps(s, st);
    SmallSees(s, st);
    if Saving(st) {
      SavingSettles(s, st);
    } else {
      SmallSameFiles(s, st);
      SameFilesSettle(s.disk, Apply(s, st).disk);
    }
  }

  // ----- Verdicts and cancels ----------------------------------------------------------------------------

  lemma ConsumeSettles(d: Disk, rid: Rid, v: VerdictRecord)
    requires Settling(d) && (v.decision == Cancelled ==> rid in d.cancels)
    ensures Settling(Consume(d, rid, v))
  {
    var d' := Consume(d, rid, v);
    assert forall c, p :: ChildOf(d', c, p) == ChildOf(d, c, p);
    forall r | r in d'.cancels && d'.recs[r].petition.kind == Exec && Approved(d', r)
      ensures exists c :: ChildOf(d', c, r)
    {
      assert Approved(d, r);
      var c :| ChildOf(d, c, r);
      assert ChildOf(d', c, r);
    }
  }

  lemma ScratchSettles(d: Disk, rid: Rid, c: CancelRecord)
    requires Settling(d) && Shaped(d) && rid in d.recs && d.recs[rid].petition.kind != Exec
    ensures Settling(FileCancel(d, rid, c))
  {
    var d' := FileCancel(d, rid, c);
    assert forall c, p :: ChildOf(d', c, p) == ChildOf(d, c, p);
    forall r | r in d'.cancels && d'.recs[r].petition.kind == Exec && Approved(d', r)
      ensures exists c :: ChildOf(d', c, r)
    {
      var c :| ChildOf(d, c, r);
      assert ChildOf(d', c, r);
    }
  }

  /** Cancelling an initial petition that has no confirmation and no approval. */
  lemma AloneSettles(d: Disk, rid: Rid, q: CancelRequest)
    requires Settling(d) && rid in d.recs && d.recs[rid].petition.confirmOf.None?
    requires Childless(d, rid) && !Approved(d, rid)
    ensures Settling(CancelOne(d, rid, q))
  {
    var d' := CancelOne(d, rid, q);
    assert d'.recs == d.recs && d'.cancels.Keys == d.cancels.Keys + {rid} && Written(d');
    assert forall r :: Approved(d', r) == Approved(d, r);
    assert forall c, p :: ChildOf(d', c, p) == ChildOf(d, c, p);
    forall r | r in d'.cancels && d'.recs[r].petition.kind == Exec && Approved(d', r)
      ensures exists c :: ChildOf(d', c, r)
    {
      assert Approved(d, r) && r != rid;
      var c :| ChildOf(d, c, r);
      assert ChildOf(d', c, r);
    }
  }

  /** Cancelling an undecided confirmation together with its approved parent. */
  lemma FamilySettles(d: Disk, child: Rid, parent: Rid, q: CancelRequest)
    requires Settling(d) && Shaped(d) && Families(d) && ChildOf(d, child, parent) && child !in d.verdicts
    ensures Settling(CancelOne(CancelOne(d, child, q), parent, q))
  {
    hide CancelOne;
    var d' := CancelOne(CancelOne(d, child, q), parent, q);
    assert parent in d.verdicts && d.recs[parent].petition.confirmOf.None?;
    FamilyFiles(d, child, parent, q);
    FamilyFilesSettle(d, d', child, parent);
  }

  lemma FamilyFilesSettle(d: Disk, d': Disk, child: Rid, parent: Rid)
    requires Settling(d) && Shaped(d) && Families(d) && ChildOf(d, child, parent)
    requires d'.recs == d.recs && Written(d')
    requires d'.cancels.Keys == d.cancels.Keys + {child, parent}
    requires child !in d.verdicts && child in d'.verdicts && d'.verdicts[child].content.decision == Cancelled
    requires d'.verdicts == d.verdicts[child := d'.verdicts[child]]
    ensures Settling(d')
  {
    OnlyChild(d, child, parent);
    FamilyApproved(d, d', child, parent);
    FamilyClosed(d, d', child, parent);
    hide Shaped, Families, ChildOf, Approved;
  }

  lemma FamilyClosed(d: Disk, d': Disk, child: Rid, parent: Rid)
    requires Settling(d) && Shaped(d) && Families(d) && ChildOf(d, child, parent)
    requires d'.recs == d.recs && d'.cancels.Keys == d.cancels.Keys + {child, parent}
    ensures forall c, p | ChildOf(d', c, p) && c in d'.cancels :: p in d'.cancels
    ensures forall c, p | ChildOf(d', c, p) && p in d'.cancels && p in d'.recs && d'.recs[p].petition.kind == Exec ::
          c in d'.cancels
  {
    OnlyChild(d, child, parent);
    hide Shaped, Families;
    forall c, p | ChildOf(d', c, p)
      ensures c in d'.cancels ==> p in d'.cancels
      ensures p in d'.cancels && p in d'.recs && d'.recs[p].petition.kind == Exec ==> c in d'.cancels
    {
      assert ChildOf(d, c, p);
    }
  }

  lemma OnlyChild(d: Disk, child: Rid, parent: Rid)
    requires Shaped(d) && Families(d) && ChildOf(d, child, parent)
    ensures parent in d.verdicts && d.recs[parent].petition.confirmOf.None?
    ensures forall c | ChildOf(d, c, parent) :: c == child
    ensures forall p | ChildOf(d, child, p) :: p == parent
    ensures forall c :: !ChildOf(d, c, child)
  {
  }

  lemma FamilyApproved(d: Disk, d': Disk, child: Rid, parent: Rid)
    requires Settling(d) && ChildOf(d, child, parent)
    requires d'.recs == d.recs && Written(d')
    requires d'.cancels.Keys == d.cancels.Keys + {child, parent}
    requires child in d'.verdicts && d'.verdicts[child].content.decision == Cancelled
    requires d'.verdicts == d.verdicts[child := d'.verdicts[child]]
    ensures forall r | r in d'.cancels && r in d'.recs && d'.recs[r].petition.kind == Exec && Approved(d', r) ::
              exists c :: ChildOf(d', c, r)
  {
    forall r | r in d'.cancels && r in d'.recs && d'.recs[r].petition.kind == Exec && Approved(d', r)
      ensures exists c :: ChildOf(d', c, r)
    {
      if r == parent {
        assert ChildOf(d', child, r);
      } else {
        assert Approved(d, r);
        var c :| ChildOf(d, c, r);
        assert ChildOf(d', c, r);
      }
    }
  }

  lemma FamilyFiles(d: Disk, child: Rid, parent: Rid, q: CancelRequest)
    requires Written(d) && child in d.recs && parent in d.recs && child !in d.verdicts && parent in d.verdicts
    requires child != parent
    ensures var d' := CancelOne(CancelOne(d, child, q), parent, q);
      && d'.recs == d.recs
      && d'.verdicts == d.verdicts[child := Holds(VerdictRecord(Cancelled, q.who))]
      && d'.cancels.Keys == d.cancels.Keys + {child, parent}
      && Written(d')
  {
  }

  lemma ConfirmCancelSettles(d: Disk, dir: seq<Rid>, q: CancelRequest, now: int)
    requires Settling(d) && Shaped(d) && Families(d) && q.rid in d.recs && d.recs[q.rid].petition.step == Confirm
    requires !KnownCancelled(d, dir, q.rid)
    ensures Settling(CancelConfirm(d, q, now).disk)
  {
    var parent := d.recs[q.rid].petition.confirmOf.value;
    assert ChildOf(d, q.rid, parent);
    if CancelConfirm(d, q, now).response.cancelled {
      FamilySettles(d, q.rid, parent, q);
    }
  }

  lemma InitialCancelSettles(d: Disk, dir: seq<Rid>, q: CancelRequest, now: int)
    requires Settling(d) && Shaped(d) && Families(d) && q.rid in d.recs && d.recs[q.rid].petition.step != Confirm
    requires !KnownCancelled(d, dir, q.rid)
    ensures Settling(CancelInitial(d, dir, q, now).disk)
  {
    FoundIsChild(d, dir, q.rid);
    if CancelInitial(d, dir, q, now).response.cancelled {
      if Approved(d, q.rid) {
        var child := FindConfirmation(d, dir, q.rid).value;
        ChildVerdictOpen(d, child, q.rid);
        hide Settling, Families, Shaped;
        FamilySettles(d, child, q.rid, q);
      } else {
        assert Childless(d, q.rid);
        hide Settling, Families;
        AloneSettles(d, q.rid, q);
      }
    }
  }

  /** A confirmation whose verdict is a cancellation is cancelled together with its parent. */
  lemma ChildVerdictOpen(d: Disk, child: Rid, parent: Rid)
    requires Settling(d) && ChildOf(d, child, parent) && CancelInfo(d, parent).None?
    ensures Verdict(d, child).Some? ==> Verdict(d, child).value.decision != Cancelled
    ensures Verdict(d, child).None? ==> child !in d.verdicts
  {
  }

  lemma CancelSettles(d: Disk, dir: seq<Rid>, q: CancelRequest, now: int)
    requires Settling(d) && Shaped(d) && Families(d)
    ensures Settling(CancelOutcome(d, dir, q, now).disk)
  {
    if q.rid in d.recs && !KnownCancelled(d, dir, q.rid) {
      var p := d.recs[q.rid].petition;
      if p.kind != Exec {
        ScratchSettles(d, q.rid, CancelRecord(q.who, q.reason));
        hide Settling, Shaped, Families, KnownCancelled, FileCancel;
      } else if p.step == Confirm {
        ConfirmCancelSettles(d, dir, q, now);
        hide Settling, Shaped, Families, KnownCancelled, CancelConfirm;
      } else {
        InitialCancelSettles(d, dir, q, now);
        hide Settling, Shaped, Families, KnownCancelled, CancelInitial;
      }
    } else {
      RefusalChangesNothing(d, dir, q, now);
      hide Settling, KnownCancelled;
    }
  }

  lemma OneGrows(d: Disk, rid: Rid, q: CancelRequest)
    ensures d.cancels.Keys <= CancelOne(d, rid, q).cancels.Keys
    ensures CancelOne(d, rid, q).recs == d.recs
    ensures rid in d.recs ==> rid in CancelOne(d, rid, q).cancels
  {
  }

  /** An outcome only adds cancels, one of them on the petition itself if it says so. */
  ghost predicate Grew(d: Disk, o: Outcome, rid: Rid) {
    && d.cancels.Keys <= o.disk.cancels.Keys && o.disk.recs == d.recs
    && (o.response.cancelled ==> rid in o.disk.cancels)
  }

  lemma ConfirmCancelGrows(d: Disk, q: CancelRequest, now: int)
    requires q.rid in d.recs
    ensures Grew(d, CancelConfirm(d, q, now), q.rid)
  {
    hide CancelOne;
    OneGrows(d, q.rid, q);
    if d.recs[q.rid].petition.confirmOf.Some? {
      OneGrows(CancelOne(d, q.rid, q), d.recs[q.rid].petition.confirmOf.value, q);
    }
  }

  lemma InitialCancelGrows(d: Disk, dir: seq<Rid>, q: CancelRequest, now: int)
    requires q.rid in d.recs
    ensures Grew(d, CancelInitial(d, dir, q, now), q.rid)
  {
    hide CancelOne;
    OneGrows(d, q.rid, q);
    var child := FindConfirmation(d, dir, q.rid);
    if child.Some? {
      OneGrows(d, child.value, q);
      OneGrows(CancelOne(d, child.value, q), q.rid, q);
    }
  }

  lemma ScratchGrows(d: Disk, q: CancelRequest, decided: bool, error: string, now: int)
    requires q.rid in d.recs
    ensures Grew(d, CancelScratch(d, q, decided, error, now), q.rid)
  {
  }

  lemma CancelGrows(d: Disk, dir: seq<Rid>, q: CancelRequest, now: int)
    requires q.rid in d.recs && !KnownCancelled(d, dir, q.rid)
    ensures Grew(d, CancelOutcome(d, dir, q, now), q.rid)
  {
    hide CancelConfirm, CancelInitial, CancelScratch, KnownCancelled;
    var p := d.recs[q.rid].petition;
    if p.kind == Ask {
      ScratchGrows(d, q, SelectionInfo(d, q.rid).Some?, "already decided", now);
    } else if p.kind == Notify {
      ScratchGrows(d, q, AckInfo(d, q.rid).Some?, "already acknowledged", now);
    } else if p.step == Confirm {
      ConfirmCancelGrows(d, q, now);
    } else {
      InitialCancelGrows(d, dir, q, now);
    }
  }

  // ----- Every operation -----------------------------------------------------------------------------------

  lemma AnswerSettles(d: Disk, rid: Rid, slip: Slip)
    requires Settling(d) && !slip.CancelSlip?
    requires slip.VerdictSlip? ==> slip.verdict.decision != Cancelled
    ensures Settling(Answered(d, rid, slip))
  {
    if slip.VerdictSlip? {
      ConsumeSettles(d, rid, slip.verdict);
    } else {
      var d' := Answered(d, rid, slip);
      CreateThenFill(d, rid, slip);
      assert forall c, p :: ChildOf(d', c, p) == ChildOf(d, c, p);
      forall r | r in d'.cancels && d'.recs[r].petition.kind == Exec && Approved(d', r)
        ensures exists c :: ChildOf(d', c, r)
      {
        var c :| ChildOf(d, c, r);
        assert ChildOf(d', c, r);
      }
    }
  }

  lemma CancelCallSees(s: State, q: CancelRequest, dir: seq<Rid>)
    requires CancelsSeen(s)
    ensures CancelsSeen(Called(s, q, dir))
  {
    hide CancelOutcome;
    if q.rid in s.disk.recs && !KnownCancelled(s.disk, dir, q.rid) {
      CancelGrows(s.disk, dir, q, s.now);
    } else {
      RefusalChangesNothing(s.disk, dir, q, s.now);
      UnknownIsRefused(s.disk, dir, q, s.now);
    }
  }

  lemma FilesSettles(s: State, wid: nat)
    requires CoarseInv(s) && OpEnabled(s, WaiterFiles(wid))
    ensures Settling(OpApply(s, WaiterFiles(wid)).disk) && CancelsSeen(OpApply(s, WaiterFiles(wid)))
  {
    hide SpawnsOk, QueueOk, NoneForgotten, PinsOk, Families, Shaped;
    var w := s.waiters[wid];
    ConsumeSettles(s.disk, w.rid, VerdictRecord(w.pc.filed, ""));
    hide Settling;
  }

  lemma OpSettles(s: State, op: Op)
    requires CoarseInv(s) && OpEnabled(s, op) && !op.Small?
    ensures Settling(OpApply(s, op).disk) && CancelsSeen(OpApply(s, op))
  {
    hide SpawnsOk, QueueOk, NoneForgotten, PinsOk, CancelOutcome;
    match op {
      case Answer(rid, slip) =>
        AnswerSettles(s.disk, rid, slip);
        hide Settling;
      case WaiterFiles(wid) => FilesSettles(s, wid);
      case CancelCall(q, dir) =>
        hide Families, WaitersOk, Settling;
        CancelSettles(s.disk, dir, q, s.now);
        CancelCallSees(s, q, dir);
    }
  }

  /** Coarse runs keep both the fine invariant and their own. */
  lemma OpKeeps(s: State, op: Op)
    requires CoarseInv(s) && OpEnabled(s, op)
    ensures CoarseInv(OpApply(s, op))
  {
    if op.Small? {
      SmallKeeps(s, op.step);
    } else {
      hide WaitersOk, SpawnsOk, QueueOk, NoneForgotten, PinsOk, CancelsSeen, OpApply;
      var steps := OpIsRun(s, op);
      RunKeeps(s, steps);
      OpSettles(s, op);
    }
  }

  lemma {:induction false} OpsKeep(s: State, ops: seq<Op>)
    requires CoarseInv(s) && CanDo(s, ops)
    ensures CoarseInv(DoAll(s, ops))
    decreases |ops|
  {
    if ops != [] {
      OpKeeps(s, ops[0]);
      OpsKeep(OpApply(s, ops[0]), ops[1..]);
    }
  }
}
