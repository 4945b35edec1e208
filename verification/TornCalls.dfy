/** The cancel call as one step on any reachable disk, with its own writes torn or not: exactly when its
    positive answer means that the command never runs. */
module TornCalls {
  import opened Records
  import opened Protocol
  import opened Invariant
  import opened Preserve
  import opened Guarantees
  import opened Queries
  import opened Cancelling
  import opened Barring
  import opened Reaching

  // ----- The call with failing writes ----------------------------------------------------------------

  /** Files that did not exist before and whose write failed half-way. */
  function Damaged<T>(before: map<Rid, Once<T>>, after: map<Rid, Once<T>>, torn: set<Rid>): map<Rid, Once<T>> {
    map r | r in after :: if r !in before && r in torn then Torn else after[r]
  }

  /** The ids whose verdict and whose cancel file the call leaves unreadable. */
  datatype Faults = Faults(verdicts: set<Rid>, cancels: set<Rid>)

  function CalledTorn(s: State, q: CancelRequest, dir: seq<Rid>, f: Faults): State {
    var s' := Called(s, q, dir);
    s'.(disk := s'.disk.(
      verdicts := Damaged(s.disk.verdicts, s'.disk.verdicts, f.verdicts),
      cancels := Damaged(s.disk.cancels, s'.disk.cancels, f.cancels)))
  }

  /** The call keeps the protocol's invariant, whatever it finds under way and however its writes end. */
  lemma CallKeeps(s: State, q: CancelRequest, dir: seq<Rid>, f: Faults)
    requires Inv(s)
    ensures Inv(CalledTorn(s, q, dir, f))
  {
    CallAdds(s.disk, dir, q, s.now);
    var s' := CalledTorn(s, q, dir, f);
    hide CancelOutcome, WaitersOk, SpawnsOk, Families, NoneForgotten, PinsOk, QueueOk;
    CalmKeeps(s, s');
  }

  // ----- A call that files ---------------------------------------------------------------------------

  /** A call that files a cancellation does so while the deciding verdict is not an approval, and leaves
      a verdict file there. */
  lemma FilingIsTimely(d: Disk, dir: seq<Rid>, q: CancelRequest, now: int)
    requires Shaped(d) && Families(d) && q.rid in d.recs && d.recs[q.rid].petition.kind == Exec
    requires !KnownCancelled(d, dir, q.rid) && CancelOutcome(d, dir, q, now).response.cancelled
    ensures exists key :: key in d.recs && IsKey(d, Root(d, q.rid), key) && !Approved(d, key)
                          && key in CancelOutcome(d, dir, q, now).disk.verdicts
  {
    hide KnownCancelled;
    FoundIsChild(d, dir, q.rid);
    if d.recs[q.rid].petition.step == Confirm {
      ConfirmLeavesVerdict(d, q, now);
      assert ChildOf(d, q.rid, Root(d, q.rid));
      assert IsKey(d, Root(d, q.rid), q.rid);
    } else if Approved(d, q.rid) {
      var child := FindConfirmation(d, dir, q.rid).value;
      InitialLeavesVerdicts(d, dir, q, now);
      assert IsKey(d, q.rid, child);
    } else {
      InitialLeavesVerdicts(d, dir, q, now);
      assert forall c :: !ChildOf(d, c, q.rid);
      assert IsKey(d, q.rid, q.rid);
    }
  }

  lemma ConfirmLeavesVerdict(d: Disk, q: CancelRequest, now: int)
    requires q.rid in d.recs && CancelConfirm(d, q, now).response.cancelled
    ensures q.rid in CancelConfirm(d, q, now).disk.verdicts && !Approved(d, q.rid)
  {
    hide CancelOne;
    OneAdds(d, q.rid, q);
    if d.recs[q.rid].petition.confirmOf.Some? {
      OneAdds(CancelOne(d, q.rid, q), d.recs[q.rid].petition.confirmOf.value, q);
    }
  }

  lemma InitialLeavesVerdicts(d: Disk, dir: seq<Rid>, q: CancelRequest, now: int)
    requires q.rid in d.recs && CancelInitial(d, dir, q, now).response.cancelled
    ensures q.rid in CancelInitial(d, dir, q, now).disk.verdicts
    ensures Approved(d, q.rid) ==>
              && FindConfirmation(d, dir, q.rid).Some?
              && var child := FindConfirmation(d, dir, q.rid).value;
                 child in d.recs && child in CancelInitial(d, dir, q, now).disk.verdicts && !Approved(d, child)
  {
    hide CancelOne;
    OneAdds(d, q.rid, q);
    var child := FindConfirmation(d, dir, q.rid);
    if child.Some? {
      OneAdds(d, child.value, q);
      OneAdds(CancelOne(d, child.value, q), q.rid, q);
    }
  }

  /** The verdict file of this record is being written as an approval. */
  predicate BeingApproved(d: Disk, rid: Rid) {
    rid in d.verdicts && d.verdicts[rid].Creating? && d.verdicts[rid].draft.decision == Approve
  }

  /** An approval of the family's deciding record is being written, and when it is there somebody can
      still take it up. */
  ghost predicate Overtaken(s: State, s': State, root: Rid) {
    exists key :: IsKey(s.disk, root, key) && key in s.disk.recs && s.disk.recs[key].petition.argv != []
      && BeingApproved(s.disk, key)
      && ((exists i :: Reads(s', i, key)) || Adoptable(s', key))
  }

  lemma CommandlessNeverRuns(s: State, root: Rid)
    requires Inv(s) && root in s.disk.recs && s.disk.recs[root].petition.argv == []
    requires s.disk.recs[root].petition.confirmOf.None?
    ensures Unspawned(s, root) && !CanStillRun(s, root)
  {
    hide WaitersOk, QueueOk, NoneForgotten, PinsOk, PetitionsKept;
    forall e | e in s.spawns ensures e.root != root {
      assert SpawnOk(s, e);
      assert e.root != e.rid ==> ChildOf(s.disk, e.rid, e.root);
    }
  }

  lemma UnapprovedDidNotRun(s: State, root: Rid, key: Rid)
    requires Inv(s) && root in s.disk.recs && s.disk.recs[root].petition.confirmOf.None?
    requires IsKey(s.disk, root, key) && !Approved(s.disk, key)
    ensures Unspawned(s, root)
  {
    hide WaitersOk, QueueOk, NoneForgotten, PinsOk, PetitionsKept;
    forall e | e in s.spawns ensures e.root != root {
      assert SpawnOk(s, e);
      assert e.root != e.rid ==> ChildOf(s.disk, e.rid, e.root);
    }
  }

  lemma FilingKey(s: State, q: CancelRequest, dir: seq<Rid>, f: Faults) returns (key: Rid)
    requires Inv(s) && q.rid in s.disk.recs && s.disk.recs[q.rid].petition.kind == Exec
    requires !KnownCancelled(s.disk, dir, q.rid) && CancelOutcome(s.disk, dir, q, s.now).response.cancelled
    ensures var s' := CalledTorn(s, q, dir, f); var root := Root(s.disk, q.rid);
      && key in s.disk.recs && s'.disk.recs == s.disk.recs && !Approved(s.disk, key)
      && IsKey(s.disk, root, key) && IsKey(s'.disk, root, key)
      && (forall k :: IsKey(s'.disk, root, k) ==> k == key)
      && (forall k :: IsKey(s.disk, root, k) ==> k == key)
      && !Requeueable(s'.disk, key)
      && (MayApprove(s'.disk.verdicts, key) <==> BeingApproved(s.disk, key))
  {
    hide WaitersOk, SpawnsOk, QueueOk, NoneForgotten, PinsOk, PetitionsKept, KnownCancelled;
    var s' := CalledTorn(s, q, dir, f);
    var root := Root(s.disk, q.rid);
    FilingIsTimely(s.disk, dir, q, s.now);
    CallAdds(s.disk, dir, q, s.now);
    key :| key in s.disk.recs && IsKey(s.disk, root, key) && !Approved(s.disk, key)
           && key in CancelOutcome(s.disk, dir, q, s.now).disk.verdicts;
    hide CancelOutcome;
    OneKey(s.disk, s'.disk, root, key);
  }

  lemma FilingRunsIff(s: State, q: CancelRequest, dir: seq<Rid>, f: Faults, root: Rid)
    requires Inv(s) && q.rid in s.disk.recs && root == Root(s.disk, q.rid)
    requires s.disk.recs[q.rid].petition.kind == Exec
    requires !KnownCancelled(s.disk, dir, q.rid) && CancelOutcome(s.disk, dir, q, s.now).response.cancelled
    ensures Unspawned(s, root)
    ensures CanStillRun(CalledTorn(s, q, dir, f), root) <==> Overtaken(s, CalledTorn(s, q, dir, f), root)
  {
    var s' := CalledTorn(s, q, dir, f);
    var key := FilingKey(s, q, dir, f);
    RootIsInitial(s, q.rid);
    UnapprovedDidNotRun(s, root, key);
    hide CalledTorn, Inv, CancelOutcome, KnownCancelled, IsKey, Approved, MayApprove, Requeueable, BeingApproved,
      Adoptable, Reads;
    assert CanStillRun(s', root) <==> Runnable(s', key);
    assert Overtaken(s, s', root) <==>
           s.disk.recs[key].petition.argv != [] && BeingApproved(s.disk, key)
           && ((exists i :: Reads(s', i, key)) || Adoptable(s', key));
  }

  lemma OneKey(d: Disk, d': Disk, root: Rid, key: Rid)
    requires Families(d) && d'.recs == d.recs && IsKey(d, root, key)
    ensures IsKey(d', root, key)
    ensures forall k :: IsKey(d', root, k) ==> k == key
    ensures forall k :: IsKey(d, root, k) ==> k == key
  {
    assert forall c, p :: ChildOf(d', c, p) == ChildOf(d, c, p);
  }

  // ----- The exact condition -------------------------------------------------------------------------

  /** Nothing of the family has reached a process or ever does, however the run goes on. */
  ghost predicate NeverRuns(s: State, root: Rid) {
    forall steps | CanRun(s, steps) :: Unspawned(RunTo(s, steps), root)
  }

  lemma NeverRunsIff(s: State, root: Rid)
    requires Inv(s) && root in s.disk.recs && s.disk.recs[root].petition.confirmOf.None?
    ensures NeverRuns(s, root) <==> Unspawned(s, root) && !CanStillRun(s, root)
  {
    if NeverRuns(s, root) {
      assert CanRun(s, []) && RunTo(s, []) == s;
      if CanStillRun(s, root) {
        CanIsReached(s, root);
        assert false;
      }
    } else if Unspawned(s, root) && !CanStillRun(s, root) {
      var steps :| CanRun(s, steps) && !Unspawned(RunTo(s, steps), root);
      Barred(s, steps, root);
      assert false;
    }
  }

  /** A positive answer, given in any reachable state and with any of the call's own files torn, means
      that the family never runs exactly if it has not run and can no longer; and for a call that files a
      cancellation, exactly unless the deciding verdict file was just then being written as an approval
      that somebody can still take up. */
  lemma CancelBarsExactly(now: int, cfg: Config, before: seq<Step>, q: CancelRequest, dir: seq<Rid>, f: Faults)
    requires CanRun(Boot(now, cfg), before)
    requires var s := RunTo(Boot(now, cfg), before); CancelOutcome(s.disk, dir, q, s.now).response.cancelled
    ensures var s := RunTo(Boot(now, cfg), before);
      var s' := CalledTorn(s, q, dir, f);
      var root := Root(s.disk, q.rid);
      && q.rid in s.disk.recs
      && (NeverRuns(s', root) <==> Unspawned(s, root) && !CanStillRun(s', root))
      && (!KnownCancelled(s.disk, dir, q.rid) ==> (NeverRuns(s', root) <==> !Overtaken(s, s', root)))
  {
    var s := RunTo(Boot(now, cfg), before);
    var s' := CalledTorn(s, q, dir, f);
    ReachableIsGood(now, cfg, before);
    CallKeeps(s, q, dir, f);
    CallAdds(s.disk, dir, q, s.now);
    UnknownIsRefused(s.disk, dir, q, s.now);
    RootsAreSaved(s.disk, q.rid);
    var root := Root(s.disk, q.rid);
    RootIsInitial(s, q.rid);
    hide CancelOutcome, CanRun, RunTo;
    NeverRunsIff(s', root);
    if s.disk.recs[q.rid].petition.kind != Exec {
      QuestionsHaveNoCommand(s, root, q.rid);
      CommandlessNeverRuns(s', root);
      OvertakenNeedsCommand(s, s', root);
    } else if !KnownCancelled(s.disk, dir, q.rid) {
      FilingRunsIff(s, q, dir, f, root);
    }
  }

  lemma RootIsInitial(s: State, rid: Rid)
    requires Inv(s) && rid in s.disk.recs
    ensures var root := Root(s.disk, rid); root in s.disk.recs && s.disk.recs[root].petition.confirmOf.None?
  {
    hide WaitersOk, SpawnsOk, QueueOk, NoneForgotten, PinsOk, PetitionsKept;
    if s.disk.recs[rid].petition.confirmOf.Some? {
      assert ChildOf(s.disk, rid, Root(s.disk, rid));
    }
  }

  lemma QuestionsHaveNoCommand(s: State, root: Rid, rid: Rid)
    requires Shaped(s.disk) && rid in s.disk.recs && s.disk.recs[rid].petition.kind != Exec && root == Root(s.disk, rid)
    ensures root == rid && s.disk.recs[root].petition.argv == []
  {
  }

  lemma OvertakenNeedsCommand(s: State, s': State, root: Rid)
    requires Inv(s) && root in s.disk.recs && s.disk.recs[root].petition.argv == []
    ensures !Overtaken(s, s', root)
  {
    hide WaitersOk, SpawnsOk, QueueOk, NoneForgotten, PinsOk, PetitionsKept, Shaped;
    forall key | IsKey(s.disk, root, key) && key in s.disk.recs
      ensures s.disk.recs[key].petition.argv == []
    {
    }
  }
}
