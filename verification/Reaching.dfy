/** From every state that could still run a family's command some continuation does run it. */
module Reaching {
  import opened Records
  import opened Protocol
  import opened Invariant
  import opened Preserve
  import opened Guarantees
  import opened Barring

  /** Some continuation reaches a process for the family. */
  ghost predicate Leads(s: State, root: Rid) {
    exists steps :: CanRun(s, steps) && !Unspawned(RunTo(s, steps), root)
  }

  lemma LeadsBack(s: State, st: Step, root: Rid)
    requires Enabled(s, st) && Leads(Apply(s, st), root)
    ensures Leads(s, root)
  {
    var steps :| CanRun(Apply(s, st), steps) && !Unspawned(RunTo(Apply(s, st), steps), root);
    hide Apply, Enabled, Unspawned;
    var all := [st] + steps;
    assert all[0] == st && all[1..] == steps;
    assert CanRun(s, all) && RunTo(s, all) == RunTo(Apply(s, st), steps);
  }

  lemma LeadsNow(s: State, root: Rid)
    requires !Unspawned(s, root)
    ensures Leads(s, root)
  {
    assert CanRun(s, []) && RunTo(s, []) == s;
  }

  const EASY := Config(false, {}, false)

  // ----- From the waiter's points, last first --------------------------------------------------------

  lemma FromGate(s: State, wid: nat)
    requires wid in s.waiters && s.waiters[wid].pc.Gate?
    ensures Leads(s, s.waiters[wid].root)
  {
    var root := s.waiters[wid].root;
    var easy := Do(Reconfigure(EASY));
    var s1 := Apply(s, easy);
    var st := Act(wid, Spawns(0, ""));
    var s2 := Apply(s1, st);
    assert s2.spawns[|s.spawns|].root == root;
    LeadsNow(s2, root);
    LeadsBack(s1, st, root);
    LeadsBack(s, easy, root);
  }

  lemma FromRunLoad(s: State, wid: nat)
    requires wid in s.waiters && s.waiters[wid].pc.RunLoad?
    requires s.waiters[wid].rid in s.disk.recs && s.disk.recs[s.waiters[wid].rid].petition.argv != []
    ensures Leads(s, s.waiters[wid].root)
  {
    var st := Act(wid, RunLoads);
    assert Apply(s, st) == MovedLocally(s, wid, RunLoads);
    FromGate(Apply(s, st), wid);
    LeadsBack(s, st, s.waiters[wid].root);
  }

  lemma FromDecided(s: State, wid: nat)
    requires wid in s.waiters && s.waiters[wid].pc == Decided(Approve)
    requires s.waiters[wid].rid in s.disk.recs && s.disk.recs[s.waiters[wid].rid].petition.argv != []
    ensures Leads(s, s.waiters[wid].root)
  {
    var easy, st := Do(Reconfigure(EASY)), Act(wid, Branch);
    var s1 := Apply(s, easy);
    assert Apply(s1, st) == MovedLocally(s1, wid, Branch);
    FromRunLoad(Apply(s1, st), wid);
    LeadsBack(s1, st, s.waiters[wid].root);
    LeadsBack(s, easy, s.waiters[wid].root);
  }

  /** The waiter's petition is stored with a command and approved. */
  predicate Ready(s: State, wid: nat) {
    && wid in s.waiters
    && var rid := s.waiters[wid].rid;
       rid in s.disk.recs && s.disk.recs[rid].petition.argv != [] && Approved(s.disk, rid)
  }

  lemma FromPollVerdict(s: State, wid: nat)
    requires Ready(s, wid) && s.waiters[wid].pc.PollVerdict?
    ensures Leads(s, s.waiters[wid].root)
  {
    var st := Act(wid, Poll);
    assert Apply(s, st) == MovedLocally(s, wid, Poll);
    FromDecided(Apply(s, st), wid);
    LeadsBack(s, st, s.waiters[wid].root);
  }

  lemma FromPollClient(s: State, wid: nat)
    requires Ready(s, wid) && s.waiters[wid].pc.PollClient?
    ensures Leads(s, s.waiters[wid].root)
  {
    var st := Act(wid, Again);
    assert Apply(s, st) == MovedLocally(s, wid, Again);
    FromPollVerdict(Apply(s, st), wid);
    LeadsBack(s, st, s.waiters[wid].root);
  }

  lemma FromPollClock(s: State, wid: nat)
    requires Ready(s, wid) && s.waiters[wid].pc.PollClock?
    ensures Leads(s, s.waiters[wid].root)
  {
    var tick, st := Do(Tick(s.waiters[wid].expires)), Act(wid, Poll);
    var s1 := Apply(s, tick);
    assert Apply(s1, st) == MovedLocally(s1, wid, Poll);
    FromPollClient(Apply(s1, st), wid);
    LeadsBack(s1, st, s.waiters[wid].root);
    LeadsBack(s, tick, s.waiters[wid].root);
  }

  lemma FromPollCancel(s: State, wid: nat)
    requires Ready(s, wid) && s.waiters[wid].pc.PollCancel? && CancelInfo(s.disk, s.waiters[wid].rid).None?
    ensures Leads(s, s.waiters[wid].root)
  {
    var st := Act(wid, Poll);
    assert Apply(s, st) == MovedLocally(s, wid, Poll);
    FromPollClock(Apply(s, st), wid);
    LeadsBack(s, st, s.waiters[wid].root);
  }

  lemma FromHold(s: State, wid: nat)
    requires Ready(s, wid) && (s.waiters[wid].pc.Hold? || s.waiters[wid].pc.PinLoad?)
    ensures Leads(s, s.waiters[wid].root)
  {
    var m := if s.waiters[wid].pc.Hold? then NoHold else LoadFails;
    assert Apply(s, Act(wid, m)) == MovedLocally(s, wid, m);
    FromPollVerdict(Apply(s, Act(wid, m)), wid);
    LeadsBack(s, Act(wid, m), s.waiters[wid].root);
  }

  lemma FromPinSave(s: State, wid: nat)
    requires Ready(s, wid) && s.waiters[wid].pc.PinSave?
    requires s.waiters[wid].pc.pinned.petition == s.disk.recs[s.waiters[wid].rid].petition
    ensures Leads(s, s.waiters[wid].root)
  {
    var st := Act(wid, PinSaves);
    assert Apply(s, st) == Pinned(s, wid);
    FromPollVerdict(Apply(s, st), wid);
    LeadsBack(s, st, s.waiters[wid].root);
  }

  // ----- Approving -----------------------------------------------------------------------------------

  const YES := VerdictRecord(Approve, "")

  /** An approval can be written: created and filled, or filled, or it is there. */
  lemma Approving(s: State, rid: Rid) returns (steps: seq<Step>)
    requires MayApprove(s.disk.verdicts, rid)
    ensures CanRun(s, steps) && Approved(RunTo(s, steps).disk, rid)
    ensures var d := RunTo(s, steps).disk; RunTo(s, steps) == s.(disk := s.disk.(verdicts := d.verdicts))
  {
    var fill := Do(FillSlip(rid, VerdictFile));
    if rid !in s.disk.verdicts {
      var create := Do(CreateSlip(rid, VerdictSlip(YES)));
      TwoMore(s, create, fill);
      return [create, fill];
    } else if s.disk.verdicts[rid].Creating? {
      OneMore(s, fill);
      return [fill];
    }
    return [];
  }

  lemma OneMore(s: State, a: Step)
    requires Enabled(s, a)
    ensures CanRun(s, [a]) && RunTo(s, [a]) == Apply(s, a)
  {
    assert CanRun(Apply(s, a), []) && [a][1..] == [];
  }

  lemma TwoMore(s: State, a: Step, b: Step)
    requires Enabled(s, a) && Enabled(Apply(s, a), b)
    ensures CanRun(s, [a, b]) && RunTo(s, [a, b]) == Apply(Apply(s, a), b)
  {
    OneMore(Apply(s, a), b);
    hide Apply, Enabled;
    assert [a, b][1..] == [b];
  }

  lemma LeadsAfter(s: State, steps: seq<Step>, root: Rid)
    requires CanRun(s, steps) && Leads(RunTo(s, steps), root)
    ensures Leads(s, root)
  {
    var more :| CanRun(RunTo(s, steps), more) && !Unspawned(RunTo(RunTo(s, steps), more), root);
    RunsCompose(s, steps, more);
  }

  // ----- Through a confirmation ----------------------------------------------------------------------

  lemma LongestName(names: set<string>) returns (k: nat)
    ensures forall n | n in names :: |n| <= k
  {
    k := 0;
    var left := names;
    while left != {}
      invariant left <= names && forall m | m in names && m !in left :: |m| <= k
    {
      var n :| n in left;
      k := if |n| > k then |n| else k;
      left := left - {n};
    }
  }

  lemma FreshId(d: Disk) returns (rid: Rid)
    ensures Unused(d, rid)
  {
    var k := LongestName(
      d.recs.Keys + d.verdicts.Keys + d.cancels.Keys + d.acks.Keys + d.selections.Keys + d.results.Keys);
    rid := seq(k + 1, _ => 'x');
  }

  lemma FreshWaiter(taken: set<nat>) returns (wid: nat)
    ensures wid !in taken
  {
    wid := 0;
    var left := taken;
    while left != {}
      invariant left <= taken && forall m | m in taken && m !in left :: m < wid
    {
      var n :| n in left;
      wid := if n >= wid then n + 1 else wid;
      left := left - {n};
    }
  }

  lemma FromConfirmSave(s: State, wid: nat)
    requires Inv(s) && Ready(s, wid) && s.waiters[wid].pc.ConfirmSave?
    ensures Leads(s, s.waiters[wid].root)
  {
    var root := s.waiters[wid].root;
    var child := FreshId(s.disk);
    var st := Act(wid, ConfirmSaves(child, 0, 0, 0, 0));
    assert WaiterOk(s, s.waiters[wid]);
    var s1 := Apply(s, st);
    assert s1 == Confirming(s, wid, child, 0, 0, 0, 0);
    hide Inv;
    var steps := Approving(s1, child);
    var s2 := RunTo(s1, steps);
    assert s2.waiters[wid].rid == child && s2.disk.recs == s1.disk.recs;
    FromPollVerdict(s2, wid);
    LeadsAfter(s1, steps, root);
    LeadsBack(s, st, root);
  }

  lemma FromConfirmLoad(s: State, wid: nat)
    requires Inv(s) && Ready(s, wid) && s.waiters[wid].pc.ConfirmLoad?
    ensures Leads(s, s.waiters[wid].root)
  {
    var st := Act(wid, ConfirmLoads);
    StepKeeps(s, st);
    assert Apply(s, st) == MovedLocally(s, wid, ConfirmLoads);
    hide Inv;
    FromConfirmSave(Apply(s, st), wid);
    LeadsBack(s, st, s.waiters[wid].root);
  }

  lemma FromReady(s: State, wid: nat)
    requires Inv(s) && Ready(s, wid) && Hopeful(s.disk, s.waiters[wid])
    ensures Leads(s, s.waiters[wid].root)
  {
    assert WaiterOk(s, s.waiters[wid]);
    hide Leads, Inv, Ready;
    match s.waiters[wid].pc {
      case Hold => FromHold(s, wid);
      case PinLoad(_) => FromHold(s, wid);
      case PinSave(_) => FromPinSave(s, wid);
      case PollVerdict => FromPollVerdict(s, wid);
      case PollCancel => FromPollCancel(s, wid);
      case PollClock => FromPollClock(s, wid);
      case PollClient => FromPollClient(s, wid);
      case Decided(_) => FromDecided(s, wid);
      case ConfirmLoad => FromConfirmLoad(s, wid);
      case ConfirmSave(_) => FromConfirmSave(s, wid);
      case RunLoad => FromRunLoad(s, wid);
      case Gate(_) => FromGate(s, wid);
      case File(_, _) =>
      case Report(_) =>
    }
  }

  lemma FromReader(s: State, wid: nat, key: Rid)
    requires Inv(s) && Reads(s, wid, key) && MayApprove(s.disk.verdicts, key)
    requires key in s.disk.recs && s.disk.recs[key].petition.argv != []
    ensures Leads(s, s.waiters[wid].root)
  {
    var steps := Approving(s, key);
    RunKeeps(s, steps);
    var s1 := RunTo(s, steps);
    assert s1.waiters == s.waiters && s1.disk.recs == s.disk.recs && s1.disk.cancels == s.disk.cancels;
    hide Inv, CanRun, RunTo;
    FromReady(s1, wid);
    LeadsAfter(s, steps, s.waiters[wid].root);
  }

  // ----- Through a restart ---------------------------------------------------------------------------

  lemma FromAdopting(s: State, key: Rid)
    requires Inv(s) && s.phase.Adopting? && Adoptable(s, key) && MayApprove(s.disk.verdicts, key)
    requires s.disk.recs[key].petition.argv != []
    ensures Leads(s, Root(s.disk, key))
  {
    var wid := FreshWaiter(s.waiters.Keys);
    var st := Scan(AdoptWait(key, wid));
    assert s.disk.recs[key].petition.expires > s.phase.at by {
      hide WaitersOk, SpawnsOk, Families, NoneForgotten, PinsOk, PetitionsKept, Shaped;
    }
    assert Enabled(s, st);
    StepKeeps(s, st);
    var s1 := Apply(s, st);
    assert s1.waiters[wid] == AdoptedWaiter(key, s.disk.recs[key].petition) && s1.disk == s.disk;
    hide Inv;
    FromReader(s1, wid, key);
    LeadsBack(s, st, Root(s.disk, key));
  }

  /** One look at some id still to be listed brings the scan on without losing `key`. */
  lemma ListingGoesOn(s: State, key: Rid) returns (st: Step)
    requires s.phase.Listing? && s.phase.todo != {} && Adoptable(s, key) && Shaped(s.disk)
    requires s.disk.recs[key].petition.kind == Exec
    ensures Enabled(s, st)
    ensures var s1 := Apply(s, st);
      s1.disk == s.disk && s1.phase.Listing? && s1.phase.todo < s.phase.todo && Adoptable(s1, key)
  {
    var r :| r in s.phase.todo;
    st := if r == key && key !in s.phase.items then Scan(ListTake(r)) else Scan(ListUnreadable(r));
    assert AckInfo(s.disk, key).None? && SelectionInfo(s.disk, key).None?;
  }

  lemma FromListing(s: State, key: Rid)
    requires Inv(s) && s.phase.Listing? && Adoptable(s, key) && MayApprove(s.disk.verdicts, key)
    requires s.disk.recs[key].petition.argv != [] && s.disk.recs[key].petition.kind == Exec
    ensures Leads(s, Root(s.disk, key))
    decreases s.phase.todo
  {
    var root := Root(s.disk, key);
    if s.phase.todo == {} {
      var st := Scan(ListDone);
      StepKeeps(s, st);
      hide Inv, MayApprove, Leads;
      FromAdopting(Apply(s, st), key);
      LeadsBack(s, st, root);
    } else {
      var st := ListingGoesOn(s, key);
      StepKeeps(s, st);
      hide Inv, MayApprove, Leads, Adoptable, Apply;
      FromListing(Apply(s, st), key);
      LeadsBack(s, st, root);
    }
  }

  lemma FromCrash(s: State, key: Rid)
    requires Inv(s) && key in s.disk.recs && Requeueable(s.disk, key)
    requires s.disk.recs[key].petition.argv != [] && s.disk.recs[key].petition.kind == Exec
    ensures Leads(s, Root(s.disk, key))
  {
    var tick := Do(Tick(s.disk.recs[key].petition.expires - 1));
    var s1 := Apply(s, tick);
    var s2 := Apply(s1, Crash);
    StepKeeps(s, tick);
    StepKeeps(s1, Crash);
    assert s2.disk.recs == s.disk.recs && key !in s2.disk.verdicts && CancelInfo(s2.disk, key).None?;
    hide Inv;
    FromListing(s2, key);
    LeadsBack(s1, Crash, Root(s.disk, key));
    LeadsBack(s, tick, Root(s.disk, key));
  }

  /** The other half: what could still run, in some continuation does. */
  lemma CanIsReached(s: State, root: Rid)
    requires Inv(s) && root in s.disk.recs && s.disk.recs[root].petition.confirmOf.None? && CanStillRun(s, root)
    ensures Leads(s, root)
  {
    var key :| IsKey(s.disk, root, key) && Runnable(s, key);
    assert Root(s.disk, key) == root && s.disk.recs[key].petition.kind == Exec by {
      hide WaitersOk, SpawnsOk, Families, NoneForgotten, PinsOk, PetitionsKept, QueueOk;
    }
    if i :| Reads(s, i, key) {
      assert WaiterOk(s, s.waiters[i]);
      hide Inv, MayApprove, Leads;
      FromReader(s, i, key);
    } else if Adoptable(s, key) {
      hide Inv, MayApprove, Leads;
      if s.phase.Listing? {
        FromListing(s, key);
      } else {
        FromAdopting(s, key);
      }
    } else {
      hide Inv, MayApprove, Leads;
      FromCrash(s, key);
    }
  }
}
