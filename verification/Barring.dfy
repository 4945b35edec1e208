/** When a family's command can still run, and that once it cannot it never does: over every fine run,
    with torn files, crashes and other writers. */
module Barring {
  import opened Records
  import opened Protocol
  import opened Invariant
  import opened Preserve
  import opened Guarantees
  import opened Queries
  import opened Cancelling

  // ----- What could still run ------------------------------------------------------------------------

  /** The verdict file holds an approval, is being written as one, or is still to be created. */
  predicate MayApprove(files: map<Rid, Once<VerdictRecord>>, rid: Rid) {
    || rid !in files
    || (files[rid].Creating? && files[rid].draft.decision == Approve)
    || (files[rid].Holds? && files[rid].content.decision == Approve)
  }

  /** The waiter has not turned away, and its next look does not find a cancellation first. */
  predicate Hopeful(d: Disk, w: Waiter) {
    && !w.pc.File? && !w.pc.Report?
    && (w.pc.Decided? ==> w.pc.decision == Approve)
    && (w.pc.PollCancel? ==> CancelInfo(d, w.rid).None?)
  }

  predicate Reads(s: State, i: nat, rid: Rid) {
    i in s.waiters && s.waiters[i].rid == rid && Hopeful(s.disk, s.waiters[i])
  }

  /** The restart scan has taken the id, or is still to look at it and would take it. */
  predicate Adoptable(s: State, rid: Rid) {
    && rid in s.disk.recs && Verdict(s.disk, rid).None?
    && (rid in s.phase.items
        || (s.phase.Listing? && rid in s.phase.todo && CancelInfo(s.disk, rid).None?
            && s.disk.recs[rid].petition.expires > s.phase.at))
  }

  /** Another crash would have the scan take it. */
  predicate Requeueable(d: Disk, rid: Rid) {
    rid !in d.verdicts && CancelInfo(d, rid).None?
  }

  ghost predicate Runnable(s: State, rid: Rid) {
    && rid in s.disk.recs && s.disk.recs[rid].petition.argv != []
    && MayApprove(s.disk.verdicts, rid)
    && ((exists i :: Reads(s, i, rid)) || Adoptable(s, rid) || Requeueable(s.disk, rid))
  }

  /** The record of a family whose verdict decides: the confirmation if there is one. */
  ghost predicate IsKey(d: Disk, root: Rid, key: Rid) {
    ChildOf(d, key, root) || (key == root && Childless(d, root))
  }

  ghost predicate CanStillRun(s: State, root: Rid) {
    exists key :: IsKey(s.disk, root, key) && Runnable(s, key)
  }

  // ----- Nothing else runs ---------------------------------------------------------------------------

  lemma NextPcBack(s: State, w: Waiter, m: Move)
    requires Local(m) && MoveEnabled(s, w, m) && Hopeful(s.disk, w.(pc := NextPc(s, w, m)))
    ensures Hopeful(s.disk, w)
  {
  }

  lemma LocalBack(s: State, wid: nat, m: Move, i: nat, key: Rid)
    requires wid in s.waiters && Local(m) && MoveEnabled(s, s.waiters[wid], m)
    requires Reads(MovedLocally(s, wid, m), i, key)
    ensures Reads(s, i, key)
  {
    if i == wid {
      NextPcBack(s, s.waiters[wid], m);
    }
    hide NextPc;
  }

  /** A waiter that could lead to a run could do so before the move, unless the move created its record. */
  lemma MoveBack(s: State, wid: nat, m: Move, i: nat, key: Rid)
    requires wid in s.waiters && MoveEnabled(s, s.waiters[wid], m)
    requires Later(s, Moved(s, wid, m)) && key in s.disk.recs
    requires Reads(Moved(s, wid, m), i, key)
    ensures Reads(s, i, key)
  {
    if Local(m) {
      LocalBack(s, wid, m, i, key);
    } else {
      hide MovedLocally;
      assert CancelInfo(Moved(s, wid, m).disk, key).None? ==> CancelInfo(s.disk, key).None?;
    }
  }

  lemma StepReadsBack(s: State, st: Step, i: nat, key: Rid)
    requires Enabled(s, st) && Later(s, Apply(s, st)) && key in s.disk.recs
    requires Reads(Apply(s, st), i, key)
    ensures Reads(s, i, key) || Adoptable(s, key)
  {
    assert CancelInfo(Apply(s, st).disk, key).None? ==> CancelInfo(s.disk, key).None?;
    match st {
      case NewRun(_, _, _, _) =>
      case NewOther(_, _) =>
      case Do(deed) =>
        DeedLeavesWaiters(s, deed);
        hide Done, DeedEnabled;
      case Crash =>
      case Scan(look) =>
        hide Later;
      case Act(wid, m) =>
        hide Moved;
        MoveBack(s, wid, m, i, key);
    }
  }

  lemma DeedLeavesWaiters(s: State, deed: Deed)
    requires DeedEnabled(s, deed)
    ensures Done(s, deed).waiters == s.waiters && Done(s, deed).phase == s.phase
  {
  }

  lemma CrashAdoptsBack(s: State, key: Rid)
    requires key in s.disk.recs && MayApprove(Crashed(s).disk.verdicts, key) && Adoptable(Crashed(s), key)
    ensures Requeueable(s.disk, key)
  {
  }

  lemma LookAdoptsBack(s: State, look: Look, key: Rid)
    requires LookEnabled(s, look) && key in s.disk.recs && Adoptable(Looked(s, look), key)
    ensures Adoptable(s, key)
  {
  }

  lemma SamePhaseAdoptsBack(s: State, s': State, key: Rid)
    requires s'.phase == s.phase && Later(s, s') && PetitionsKept(s) && PetitionsKept(s')
    requires key in s.disk.recs && Adoptable(s', key)
    ensures Adoptable(s, key)
  {
  }

  lemma StepAdoptsBack(s: State, st: Step, key: Rid)
    requires Enabled(s, st) && Later(s, Apply(s, st)) && PetitionsKept(s) && PetitionsKept(Apply(s, st))
    requires key in s.disk.recs && MayApprove(Apply(s, st).disk.verdicts, key)
    requires Adoptable(Apply(s, st), key)
    ensures Adoptable(s, key) || Requeueable(s.disk, key)
  {
    hide Adoptable, Later, PetitionsKept, Crashed, Looked, Done, Moved, MayApprove;
    if st.Crash? {
      CrashAdoptsBack(s, key);
    } else if st.Scan? {
      LookAdoptsBack(s, st.look, key);
    } else {
      StepPhase(s, st);
      SamePhaseAdoptsBack(s, Apply(s, st), key);
    }
  }

  lemma StepPhase(s: State, st: Step)
    requires Enabled(s, st) && !st.Crash? && !st.Scan?
    ensures Apply(s, st).phase == s.phase
  {
    if st.Act? {
      MovePhase(s, st.wid, st.move);
      hide Moved;
    }
  }

  lemma MovePhase(s: State, wid: nat, m: Move)
    requires wid in s.waiters && MoveEnabled(s, s.waiters[wid], m)
    ensures Moved(s, wid, m).phase == s.phase
  {
  }

  lemma RunnableBack(s: State, st: Step, key: Rid)
    requires Inv(s) && Enabled(s, st) && Inv(Apply(s, st)) && key in s.disk.recs && Runnable(Apply(s, st), key)
    ensures Runnable(s, key)
  {
    var s' := Apply(s, st);
    StepIsLater(s, st);
    LaterBack(s, s', key);
    hide Apply, Enabled, Inv, Later, Requeueable, PetitionsKept, Reads, Adoptable, MayApprove;
    if i :| Reads(s', i, key) {
      StepReadsBack(s, st, i, key);
    } else if Adoptable(s', key) {
      StepAdoptsBack(s, st, key);
    }
  }

  lemma LaterBack(s: State, s': State, key: Rid)
    requires Inv(s) && Inv(s') && Later(s, s') && key in s.disk.recs && key in s'.disk.recs
    ensures PetitionsKept(s) && PetitionsKept(s') && s'.disk.recs[key].petition == s.disk.recs[key].petition
    ensures MayApprove(s'.disk.verdicts, key) ==> MayApprove(s.disk.verdicts, key)
    ensures Requeueable(s'.disk, key) ==> Requeueable(s.disk, key)
  {
    hide WaitersOk, SpawnsOk, QueueOk, NoneForgotten, PinsOk, Families, Shaped;
  }

  lemma OtherRecords(s: State, st: Step)
    requires PetitionsKept(s) && Shaped(s.disk) && Enabled(s, st) && (st.Do? || st.Scan? || st.Crash?)
    ensures Apply(s, st).disk.recs.Keys == s.disk.recs.Keys
  {
    if st.Do? {
      DeedIsCalm(s, st.deed);
      hide Done, PetitionsKept, Shaped;
    } else {
      hide PetitionsKept, Shaped, Done;
    }
  }

  /** A new record that confirms another is saved by a waiter on that other one. */
  lemma NewRecordIsConfirmation(s: State, st: Step, key: Rid)
    requires PetitionsKept(s) && Shaped(s.disk) && Enabled(s, st) && key !in s.disk.recs
          && key in Apply(s, st).disk.recs
    requires st.Act? ==> s.waiters[st.wid].rid in s.disk.recs
    requires Apply(s, st).disk.recs[key].petition.confirmOf.Some?
    ensures st.Act? && st.move.ConfirmSaves? && Apply(s, st).disk.recs[key].petition.confirmOf
          == Some(s.waiters[st.wid].rid)
    ensures Apply(s, st).disk.recs[key].petition.argv == s.waiters[st.wid].argv
  {
    if st.Do? || st.Scan? || st.Crash? {
      OtherRecords(s, st);
      assert false;
    } else if st.Act? {
      MoveRecords(s, st.wid, st.move);
      hide Moved, PetitionsKept;
    }
  }

  /** Saving a confirmation is a step of a waiter that could lead to a run of the parent's family. */
  lemma NewKeyBack(s: State, st: Step, root: Rid, key: Rid)
    requires Inv(s) && Enabled(s, st) && root in s.disk.recs && key !in s.disk.recs
    requires ChildOf(Apply(s, st).disk, key, root) && Apply(s, st).disk.recs[key].petition.argv != []
    ensures CanStillRun(s, root)
  {
    assert PetitionsKept(s) && Shaped(s.disk) && (st.Act? ==> s.waiters[st.wid].rid in s.disk.recs) by {
      hide SpawnsOk, QueueOk, NoneForgotten, PinsOk, Families, Shaped, PetitionsKept, Apply;
      if st.Act? {
        assert WaiterOk(s, s.waiters[st.wid]);
      }
    }
    hide Inv, Shaped, PetitionsKept, Apply;
    NewRecordIsConfirmation(s, st, key);
    hide CanStillRun, Inv;
    ConfirmingIsRunnable(s, st.wid, root);
  }

  lemma ConfirmingIsRunnable(s: State, wid: nat, root: Rid)
    requires Inv(s) && wid in s.waiters && s.waiters[wid].pc.ConfirmSave?
    requires s.waiters[wid].rid == root && s.waiters[wid].argv != []
    ensures CanStillRun(s, root)
  {
    hide SpawnsOk, QueueOk, NoneForgotten, PinsOk, Families, PetitionsKept;
    assert WaiterOk(s, s.waiters[wid]);
    assert Reads(s, wid, root);
    assert Runnable(s, root);
    assert IsKey(s.disk, root, root);
  }

  lemma MoveRecords(s: State, wid: nat, m: Move)
    requires wid in s.waiters && MoveEnabled(s, s.waiters[wid], m) && s.waiters[wid].rid in s.disk.recs
    ensures !m.ConfirmSaves? ==> Moved(s, wid, m).disk.recs.Keys == s.disk.recs.Keys
    ensures m.ConfirmSaves? ==> Moved(s, wid, m).disk.recs.Keys == s.disk.recs.Keys + {m.child}
    ensures m.ConfirmSaves? ==> var p := Moved(s, wid, m).disk.recs[m.child].petition;
              p.confirmOf == Some(s.waiters[wid].rid) && p.argv == s.waiters[wid].argv
  {
  }

  lemma StepBack(s: State, st: Step, root: Rid)
    requires Inv(s) && Enabled(s, st) && root in s.disk.recs && CanStillRun(Apply(s, st), root)
    ensures CanStillRun(s, root)
  {
    StepKeeps(s, st);
    StepIsLater(s, st);
    var s' := Apply(s, st);
    hide WaitersOk, SpawnsOk, QueueOk, NoneForgotten, PinsOk, Families, Shaped, Apply;
    var key :| IsKey(s'.disk, root, key) && Runnable(s', key);
    if key !in s.disk.recs {
      NewKeyBack(s, st, root, key);
    } else {
      RunnableBack(s, st, key);
      KeyBack(s, s', root, key);
      assert IsKey(s.disk, root, key) && Runnable(s, key);
    }
  }

  lemma KeyBack(s: State, s': State, root: Rid, key: Rid)
    requires PetitionsKept(s) && PetitionsKept(s') && Later(s, s') && IsKey(s'.disk, root, key) && key in s.disk.recs
    ensures IsKey(s.disk, root, key)
  {
    forall c | ChildOf(s.disk, c, root) ensures ChildOf(s'.disk, c, root) {
      assert c in s.first;
    }
    if ChildOf(s'.disk, key, root) {
      assert s.first[key] == s'.first[key];
    }
  }

  /** A spawn is one of a family that could still run. */
  lemma SpawnIsRunnable(s: State, st: Step, root: Rid)
    requires Inv(s) && Enabled(s, st) && Unspawned(s, root) && !Unspawned(Apply(s, st), root)
    ensures CanStillRun(s, root)
  {
    hide SpawnsOk, QueueOk, NoneForgotten, PinsOk, Families, PetitionsKept;
    NewSpawn(s, st);
    var w := s.waiters[st.wid];
    assert WaiterOk(s, w);
    assert w.root == root;
    assert Reads(s, st.wid, w.rid);
    assert Runnable(s, w.rid);
    assert IsKey(s.disk, root, w.rid);
  }

  lemma NewSpawn(s: State, st: Step)
    requires Enabled(s, st)
    ensures var s' := Apply(s, st);
      s'.spawns == s.spawns
      || (st.Act? && s.waiters[st.wid].pc.Gate? && exists e: Spawn ::
         e.root == s.waiters[st.wid].root && s'.spawns == s.spawns + [e])
  {
    match st {
      case NewRun(_, _, _, _) =>
      case NewOther(_, _) =>
      case Do(deed) =>
      case Crash =>
      case Scan(look) =>
      case Act(wid, m) =>
        if m.Spawns? {
          var w := s.waiters[wid];
          var p := w.pc.stored.petition;
          var e := Spawn(w.rid, w.root, p.argv, p.uid, p.cwd);
          assert Apply(s, st).spawns == s.spawns + [e];
        }
    }
  }

  /** A family that has not run and can no longer run never does. */
  lemma {:induction false} Barred(s: State, steps: seq<Step>, root: Rid)
    requires Inv(s) && CanRun(s, steps) && root in s.disk.recs && Unspawned(s, root) && !CanStillRun(s, root)
    ensures Unspawned(RunTo(s, steps), root) && !CanStillRun(RunTo(s, steps), root)
    decreases |steps|
  {
    if steps != [] {
      var s' := Apply(s, steps[0]);
      if !Unspawned(s', root) {
        SpawnIsRunnable(s, steps[0], root);
      }
      if CanStillRun(s', root) {
        StepBack(s, steps[0], root);
      }
      StepKeeps(s, steps[0]);
      StepIsLater(s, steps[0]);
      assert root in s'.first;
      hide CanStillRun, Unspawned, Apply, Later;
      Barred(s', steps[1..], root);
    }
  }
}
