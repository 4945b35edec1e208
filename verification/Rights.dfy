/** Who may cancel what and when, and whom a cancel call releases. */
module Rights {
  import opened Records
  import opened Protocol
  import opened Invariant
  import opened Queries
  import opened Cancelling
  import opened Refinement
  import opened Cancellation
  import opened CancelTheorems
  import Agreement

  // ----- Who -----------------------------------------------------------------------------------------

  /** Every cancel call of a run comes from a stranger to the petition it names, or names none. */
  predicate StrangersOnly(s: State, ops: seq<Op>)
    requires CanDo(s, ops)
    decreases |ops|
  {
    ops != [] ==>
      && (ops[0].CancelCall? && ops[0].request.rid in s.disk.recs ==> Stranger(s.disk, ops[0].request))
      && StrangersOnly(OpApply(s, ops[0]), ops[1..])
  }

  lemma StrangerChangesNothing(s: State, q: CancelRequest, dir: seq<Rid>)
    requires q.rid in s.disk.recs ==> Stranger(s.disk, q)
    ensures Called(s, q, dir).disk == s.disk
  {
    if q.rid != "" && q.rid in s.disk.recs {
      UnauthorizedIff(s.disk, dir, q, s.now);
      hide CancelOutcome;
    }
  }

  lemma StrangeOp(s: State, op: Op)
    requires CoarseInv(s) && OpEnabled(s, op)
    requires op.CancelCall? && op.request.rid in s.disk.recs ==> Stranger(s.disk, op.request)
    ensures OpApply(s, op).disk.cancels == s.disk.cancels
  {
    if op.CancelCall? {
      StrangerChangesNothing(s, op.request, op.dir);
      hide CoarseInv, Called;
    } else {
      Agreement.OthersCancelNothing(s, op);
      hide CoarseInv, OpApply, OpEnabled;
    }
  }

  /** Over a whole run in which only strangers call, no cancel file appears. */
  lemma {:induction false} StrangersCancelNothing(s: State, ops: seq<Op>)
    requires CoarseInv(s) && CanDo(s, ops) && StrangersOnly(s, ops)
    ensures DoAll(s, ops).disk.cancels == s.disk.cancels
    decreases |ops|
  {
    if ops != [] {
      OpKeeps(s, ops[0]);
      StrangeOp(s, ops[0]);
      hide CoarseInv, OpApply, OpEnabled, Stranger;
      StrangersCancelNothing(OpApply(s, ops[0]), ops[1..]);
    }
  }

  // ----- What and when -------------------------------------------------------------------------------

  /** A cancellation of the petition, of the one it confirms or of its confirmation can be read. */
  ghost predicate CancelledAround(d: Disk, rid: Rid) {
    || CancelInfo(d, rid).Some?
    || (Verdict(d, rid).Some? && Verdict(d, rid).value.decision == Cancelled)
    || (exists p :: ChildOf(d, rid, p) && CancelInfo(d, p).Some?)
    || (exists c :: ChildOf(d, c, rid) && CancelInfo(d, c).Some?)
  }

  /** Nothing has ended the petition yet, and its own deadline or, once approved, that of its confirmation
      is to come. A wait that ended by itself, without a decision, can be cancelled at any time. */
  ghost predicate Endable(d: Disk, rid: Rid, now: int)
    requires rid in d.recs
  {
    var p := d.recs[rid].petition;
    var v := Verdict(d, rid);
    match p.kind
    case Ask => SelectionInfo(d, rid).None? && p.expires > now
    case Notify => AckInfo(d, rid).None? && p.expires > now
    case Exec =>
      || (v.None? && p.expires > now)
      || (p.step == Initial && v.Some? && v.value.decision in {Timeout, ConfirmationTimeout, ClientAborted})
      || (p.step == Initial && v.Some? && v.value.decision == Approve
          && exists c :: ChildOf(d, c, rid) && d.recs[c].petition.expires > now
                         && (Verdict(d, c).Some? ==> Verdict(d, c).value.decision == Cancelled))
  }

  lemma KnownIff(d: Disk, dir: seq<Rid>, rid: Rid)
    requires Shaped(d) && Families(d) && Lists(d, dir) && rid in d.recs
    ensures KnownCancelled(d, dir, rid) <==> CancelledAround(d, rid)
  {
    FindIgnoresOrder(d, dir, dir, rid);
    hide FindConfirmation, Lists;
  }

  /** Someone who may cancel is answered yes exactly if a cancellation is on file around the petition or the
      petition can still be ended. */
  lemma AnswersYesIff(d: Disk, dir: seq<Rid>, q: CancelRequest, now: int)
    requires Shaped(d) && Families(d) && Lists(d, dir) && q.rid != "" && q.rid in d.recs && !Stranger(d, q)
    ensures CancelOutcome(d, dir, q, now).response.cancelled <==> CancelledAround(d, q.rid) || Endable(d, q.rid, now)
  {
    KnownIff(d, dir, q.rid);
    FindIgnoresOrder(d, dir, dir, q.rid);
    hide KnownCancelled, CancelledAround, CancelOne, FindConfirmation, Lists, Families;
  }

  // ----- Whom ----------------------------------------------------------------------------------------

  /** After a call that files a cancellation no group is held stopped whose pin is stored on a record of the
      family, and no other group is released. */
  lemma CancelReleasesFamily(s: State, q: CancelRequest, dir: seq<Rid>)
    requires Shaped(s.disk) && Families(s.disk) && Lists(s.disk, dir)
    requires q.rid in s.disk.recs && s.disk.recs[q.rid].petition.kind == Exec && !KnownCancelled(s.disk, dir, q.rid)
    requires CancelOutcome(s.disk, dir, q, s.now).response.cancelled
    ensures forall g :: g in s.stopped ==>
              (g !in Called(s, q, dir).stopped <==>
               exists r :: r in s.disk.recs && InFamily(s.disk, r, Root(s.disk, q.rid)) && g in StoredPin(s.disk, r))
  {
    var d := s.disk;
    var root := Root(d, q.rid);
    FindIgnoresOrder(d, dir, dir, q.rid);
    FamilyIs(d, q.rid);
    hide KnownCancelled, CancelOne, FindConfirmation, Lists, StoredPin;
  }

  lemma FamilyIs(d: Disk, rid: Rid)
    requires Shaped(d) && Families(d) && rid in d.recs
    ensures forall r :: r in d.recs && InFamily(d, r, Root(d, rid)) <==>
                        r == rid || ChildOf(d, r, rid) || ChildOf(d, rid, r)
  {
    var root := Root(d, rid);
    if rid != root {
      assert ChildOf(d, rid, root);
    }
    forall r | r in d.recs
      ensures InFamily(d, r, root) <==> r == rid || ChildOf(d, r, rid) || ChildOf(d, rid, r)
    {
      if d.recs[r].petition.confirmOf.Some? {
        assert ChildOf(d, r, d.recs[r].petition.confirmOf.value);
      }
    }
  }
}
