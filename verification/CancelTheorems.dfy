/** A positive answer to a cancel call is final, and so are the statuses it and the operators'
    answers leave behind. */
module CancelTheorems {
  import opened Records
  import opened Protocol
  import opened Invariant
  import opened Preserve
  import opened Guarantees
  import opened Queries
  import opened Cancelling
  import opened Refinement
  import opened Cancellation

  lemma CoarseReachable(now: int, cfg: Config, ops: seq<Op>)
    requires CanDo(Boot(now, cfg), ops)
    ensures CoarseInv(DoAll(Boot(now, cfg), ops))
  {
    BootIsGood(now, cfg);
    assert CoarseInv(Boot(now, cfg));
    OpsKeep(Boot(now, cfg), ops);
  }

  lemma {:induction false} OpsAreLater(s: State, ops: seq<Op>)
    requires CoarseInv(s) && CanDo(s, ops)
    ensures Later(s, DoAll(s, ops))
    decreases |ops|
  {
    if ops != [] {
      var s1 := OpApply(s, ops[0]);
      var steps := OpIsRun(s, ops[0]);
      RunIsLater(s, steps);
      OpKeeps(s, ops[0]);
      hide CoarseInv, Later, OpApply;
      OpsAreLater(s1, ops[1..]);
      LaterTwice(s, s1, DoAll(s1, ops[1..]));
    }
  }

  // ----- Cancelled means never runs ------------------------------------------------------------------------

  predicate MayCancel(d: Disk, q: CancelRequest) {
    IsAdmin(q) || (q.rid in d.recs && q.caller == d.recs[q.rid].petition.uid)
  }

  /** An executable initial petition whose cancellation is on record. */
  predicate Doomed(d: Disk, root: Rid) {
    root in d.recs && root in d.cancels && d.recs[root].petition.kind == Exec && d.recs[root].petition.confirmOf.None?
  }

  lemma CancelDooms(s: State, q: CancelRequest, dir: seq<Rid>)
    requires CoarseInv(s) && Lists(s.disk, dir)
    requires CancelOutcome(s.disk, dir, q, s.now).response.cancelled
    ensures q.rid in s.disk.recs
    ensures var root := Root(s.disk, q.rid);
      root in s.disk.recs && (s.disk.recs[root].petition.kind == Exec ==> Doomed(Called(s, q, dir).disk, root))
  {
    UnknownIsRefused(s.disk, dir, q, s.now);
    RootsAreSaved(s.disk, q.rid);
    var d' := Called(s, q, dir).disk;
    if KnownCancelled(s.disk, dir, q.rid) {
      RefusalChangesNothing(s.disk, dir, q, s.now);
      KnownIsOnRecord(s.disk, dir, q.rid);
    } else {
      CancelGrows(s.disk, dir, q, s.now);
      CancelSettles(s.disk, dir, q, s.now);
      RootIsCancelled(s.disk, d', q.rid);
    }
  }

  /** What the call takes for an earlier cancellation is one on record for the initial petition. */
  lemma KnownIsOnRecord(d: Disk, dir: seq<Rid>, rid: Rid)
    requires Settling(d) && Shaped(d) && Families(d) && rid in d.recs && KnownCancelled(d, dir, rid)
    ensures Root(d, rid) in d.cancels && d.recs[Root(d, rid)].petition.confirmOf.None?
  {
    FoundIsChild(d, dir, rid);
    if d.recs[rid].petition.confirmOf.Some? {
      assert ChildOf(d, rid, Root(d, rid));
    }
  }

  lemma RootIsCancelled(d: Disk, d': Disk, rid: Rid)
    requires Shaped(d) && Families(d) && rid in d.recs && d'.recs == d.recs && Settling(d') && rid in d'.cancels
    ensures Root(d, rid) in d'.cancels && d.recs[Root(d, rid)].petition.confirmOf.None?
  {
    if d.recs[rid].petition.confirmOf.Some? {
      assert ChildOf(d, rid, Root(d, rid));
      assert ChildOf(d', rid, Root(d, rid));
    }
  }

  lemma CancelledDidNotSpawn(s: State, e: Spawn)
    requires CoarseInv(s) && e in s.spawns
    ensures e.rid in s.disk.recs
    ensures e.rid in s.disk.cancels ==> s.disk.recs[e.rid].petition.kind != Exec
  {
    assert SpawnOk(s, e);
    assert forall c :: !ChildOf(s.disk, c, e.rid);
  }

  lemma DoomedNeverSpawned(s: State, root: Rid)
    requires CoarseInv(s) && Doomed(s.disk, root)
    ensures forall e | e in s.spawns :: !InFamily(s.disk, e.rid, root)
    ensures forall r | InFamily(s.disk, r, root) :: CancelInfo(s.disk, r).Some? && s.disk.recs[r].petition.kind == Exec
  {
    forall r | InFamily(s.disk, r, root)
      ensures CancelInfo(s.disk, r).Some? && s.disk.recs[r].petition.kind == Exec
    {
      assert r in s.disk.cancels;
    }
    forall e | e in s.spawns ensures !InFamily(s.disk, e.rid, root) {
      CancelledDidNotSpawn(s, e);
    }
  }

  /** When the call answers that an executable petition is cancelled, then in every continuation
      nothing of that petition, its parent or its confirmation has spawned or ever spawns; and unless
      the parent is a question or a notice, all of them read by the reason on their cancel file, which is
      the call's or an earlier one, and a further call changes nothing. */
  lemma CancelledForGood(now: int, cfg: Config, before: seq<Op>, q: CancelRequest, dir: seq<Rid>, next: seq<Op>)
    requires CanDo(Boot(now, cfg), before)
    requires var s := DoAll(Boot(now, cfg), before);
      && Lists(s.disk, dir)
      && CancelOutcome(s.disk, dir, q, s.now).response.cancelled
      && CanDo(Called(s, q, dir), next)
    ensures var s := DoAll(Boot(now, cfg), before);
      var root := Root(s.disk, q.rid);
      var s' := DoAll(Called(s, q, dir), next);
      && q.rid in s.disk.recs && root in s.disk.recs && InFamily(s'.disk, q.rid, root)
      && (forall e | e in s'.spawns :: !InFamily(s'.disk, e.rid, root))
      && (s.disk.recs[root].petition.kind == Exec ==>
            && (forall r, files, time | InFamily(s'.disk, r, root) ::
                  && CancelInfo(s'.disk, r).Some?
                  && Status(s'.disk, files, r, time).status == ReasonWord(CancelInfo(s'.disk, r).value.reason)
                  && (r in s.disk.recs ==> CancelInfo(s'.disk, r).value.reason == FiledReason(s.disk, r, q)))
            && (forall q': CancelRequest, files, time |
                  InFamily(s'.disk, q'.rid, root) && q'.rid != "" && MayCancel(s'.disk, q') ::
                  CancelOutcome(s'.disk, files, q', time) == AlreadyCancelled(s'.disk)))
  {
    var s := DoAll(Boot(now, cfg), before);
    var root := Root(s.disk, q.rid);
    CoarseReachable(now, cfg, before);
    CancelDooms(s, q, dir);
    var mid := Called(s, q, dir);
    OpKeeps(s, CancelCall(q, dir));
    assert mid == OpApply(s, CancelCall(q, dir));
    var s' := DoAll(mid, next);
    OpsKeep(mid, next);
    FamilyStays(s, mid, next, q.rid);
    FamilyStays(s, mid, next, root);
    hide CoarseInv, Doomed, CancelOutcome, DoAll, CanDo;
    if s.disk.recs[root].petition.kind == Exec {
      DoomedStays(mid, next, root);
      DoomedNeverSpawned(s', root);
      DoomedReadsCancelled(s', root);
      ReasonStays(s, q, dir, next, root);
    } else {
      QuestionNeverSpawned(s', root);
    }
  }

  lemma QuestionNeverSpawned(s: State, root: Rid)
    requires CoarseInv(s) && root in s.disk.recs && s.disk.recs[root].petition.kind != Exec
    ensures forall e | e in s.spawns :: !InFamily(s.disk, e.rid, root)
  {
    hide WaitersOk, QueueOk, NoneForgotten, PinsOk, PetitionsKept, Settling;
    forall e | e in s.spawns ensures !InFamily(s.disk, e.rid, root) {
      assert SpawnOk(s, e);
    }
  }

  lemma DoomedStays(s: State, next: seq<Op>, root: Rid)
    requires CoarseInv(s) && Doomed(s.disk, root) && CanDo(s, next)
    ensures CoarseInv(DoAll(s, next)) && Doomed(DoAll(s, next).disk, root)
  {
    OpsAreLater(s, next);
    OpsKeep(s, next);
    var s' := DoAll(s, next);
    assert s'.disk.recs[root].petition == s.disk.recs[root].petition;
  }

  lemma FamilyStays(s: State, mid: State, next: seq<Op>, rid: Rid)
    requires CoarseInv(s) && CoarseInv(mid) && rid in s.disk.recs && mid.first == s.first && CanDo(mid, next)
    ensures InFamily(DoAll(mid, next).disk, rid, Root(s.disk, rid))
    ensures rid in DoAll(mid, next).disk.recs && DoAll(mid, next).disk.recs[rid].petition == s.disk.recs[rid].petition
  {
    hide Settling, CancelsSeen, WaitersOk, SpawnsOk, QueueOk, NoneForgotten, PinsOk, DoAll, CanDo;
    OpsAreLater(mid, next);
    OpsKeep(mid, next);
    assert DoAll(mid, next).disk.recs[rid].petition == s.disk.recs[rid].petition;
  }

  /** The reasons on the family's cancel files are the call's, or were there before it. */
  lemma ReasonStays(s: State, q: CancelRequest, dir: seq<Rid>, next: seq<Op>, root: Rid)
    requires CoarseInv(s) && CoarseInv(Called(s, q, dir)) && CanDo(Called(s, q, dir), next)
    requires Doomed(Called(s, q, dir).disk, root)
    ensures var d' := DoAll(Called(s, q, dir), next).disk;
      forall r | r in s.disk.recs && InFamily(d', r, root) ::
        CancelInfo(d', r).Some? && CancelInfo(d', r).value.reason == FiledReason(s.disk, r, q)
  {
    var mid := Called(s, q, dir);
    var d' := DoAll(mid, next).disk;
    CallAdds(s.disk, dir, q, s.now);
    assert Written(s.disk) && Written(mid.disk);
    DoomedNeverSpawned(mid, root);
    OpsAreLater(mid, next);
    OpsKeep(mid, next);
    hide CancelOutcome, DoAll, CanDo, Doomed, Settling, Inv, CancelsSeen, Adds, Later, Written, FiledReason;
    forall r | r in s.disk.recs && InFamily(d', r, root)
      ensures CancelInfo(d', r).Some? && CancelInfo(d', r).value.reason == FiledReason(s.disk, r, q)
    {
      GivenIsKept(s, mid, DoAll(mid, next), q, r);
    }
  }

  lemma GivenIsKept(s: State, mid: State, s': State, q: CancelRequest, r: Rid)
    requires Inv(s) && Inv(mid) && Inv(s') && Written(s.disk) && Adds(s.disk, mid.disk, q) && Later(mid, s')
    requires mid.first == s.first && r in s.disk.recs
    ensures Root(s'.disk, r) == Root(mid.disk, r) && r in mid.disk.recs
    ensures CancelInfo(mid.disk, r).Some? ==>
              CancelInfo(s'.disk, r).Some? && CancelInfo(s'.disk, r).value.reason == FiledReason(s.disk, r, q)
  {
    hide WaitersOk, SpawnsOk, QueueOk, NoneForgotten, PinsOk, Families, Shaped;
    assert r in mid.first;
  }

  lemma DoomedReadsCancelled(s: State, root: Rid)
    requires CoarseInv(s) && Doomed(s.disk, root)
    ensures forall r, files, time | InFamily(s.disk, r, root) ::
              CancelInfo(s.disk, r).Some?
              && Status(s.disk, files, r, time).status == ReasonWord(CancelInfo(s.disk, r).value.reason)
    ensures forall q: CancelRequest, files, time | InFamily(s.disk, q.rid, root) && q.rid != ""
          && MayCancel(s.disk, q) ::
              CancelOutcome(s.disk, files, q, time) == AlreadyCancelled(s.disk)
  {
    DoomedNeverSpawned(s, root);
    hide CoarseInv, Doomed;
    forall r, files, time | InFamily(s.disk, r, root)
      ensures Status(s.disk, files, r, time).status == ReasonWord(CancelInfo(s.disk, r).value.reason)
    {
      CancelFileReads(s.disk, files, r, time);
    }
    hide Status, ReasonWord;
  }
}
