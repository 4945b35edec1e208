/** What holds over every run of the petition protocol: any interleaving of waiters, operators,
    cancellers, disconnects, timeouts, torn writes, lost updates, crashes and restarts. */
module Guarantees {
  import opened Records
  import opened Protocol
  import opened Invariant
  import opened Preserve

  // ----- Runs ----------------------------------------------------------------------------------------

  lemma {:induction false} RunKeeps(s: State, steps: seq<Step>)
    requires Inv(s) && CanRun(s, steps)
    ensures Inv(RunTo(s, steps))
    decreases |steps|
  {
    if steps != [] {
      StepKeeps(s, steps[0]);
      RunKeeps(Apply(s, steps[0]), steps[1..]);
    }
  }

  lemma ReachableIsGood(now: int, cfg: Config, steps: seq<Step>)
    requires CanRun(Boot(now, cfg), steps)
    ensures Inv(RunTo(Boot(now, cfg), steps))
  {
    BootIsGood(now, cfg);
    RunKeeps(Boot(now, cfg), steps);
  }

  /** Running one sequence after another is running their concatenation. */
  lemma {:induction false} RunsCompose(s: State, a: seq<Step>, b: seq<Step>)
    requires CanRun(s, a) && CanRun(RunTo(s, a), b)
    ensures CanRun(s, a + b) && RunTo(s, a + b) == RunTo(RunTo(s, a), b)
    decreases |a|
  {
    if a == [] {
      assert a + b == b;
    } else {
      hide Apply, Enabled;
      RunsCompose(Apply(s, a[0]), a[1..], b);
      assert (a + b)[0] == a[0] && (a + b)[1..] == a[1..] + b;
    }
  }

  // ----- What no step undoes ---------------------------------------------------------------------------

  ghost predicate OnceKept<T>(f: map<Rid, Once<T>>, f': map<Rid, Once<T>>) {
    forall r | r in f :: r in f' &&
      (f'[r] == f[r] || (f[r].Creating? && (f'[r] == Torn || f'[r] == Holds(f[r].draft))))
  }

  /** First answers stay, and a file under way becomes what its writer holds or unreadable;
      first-saved records stay, and the spawn history only grows. */
  ghost predicate Later(s: State, s': State) {
    && OnceKept(s.disk.verdicts, s'.disk.verdicts)
    && OnceKept(s.disk.cancels, s'.disk.cancels)
    && OnceKept(s.disk.acks, s'.disk.acks)
    && OnceKept(s.disk.selections, s'.disk.selections)
    && (forall r | r in s.first :: r in s'.first && s'.first[r] == s.first[r])
    && s.spawns <= s'.spawns
  }

  lemma CreateIsLater(s: State, rid: Rid, slip: Slip)
    ensures Later(s, s.(disk := WithCreated(s.disk, rid, slip)))
  {
    match slip {
      case VerdictSlip(v) =>
      case CancelSlip(c) =>
      case AckSlip(a) =>
      case SelectionSlip(x) =>
    }
  }

  lemma FillIsLater(s: State, rid: Rid, file: SlipKind)
    ensures Later(s, s.(disk := WithFilled(s.disk, rid, file)))
  {
  }

  lemma TearIsLater(s: State, rid: Rid, file: SlipKind)
    ensures Later(s, s.(disk := WithTorn(s.disk, rid, file)))
  {
  }

  lemma DeedIsLater(s: State, deed: Deed)
    requires DeedEnabled(s, deed)
    ensures Later(s, Done(s, deed))
  {
    match deed {
      case CreateSlip(rid, slip) => CreateIsLater(s, rid, slip);
      case FillSlip(rid, file) => FillIsLater(s, rid, file);
      case TearSlip(rid, file) => TearIsLater(s, rid, file);
      case _ =>
    }
  }

  lemma ConfirmIsLater(s: State, wid: nat, child: Rid, expires: int, git: int, fd: int, seal: int)
    requires wid in s.waiters && s.waiters[wid].pc.ConfirmSave? && Unused(s.disk, child)
    requires s.first.Keys == s.disk.recs.Keys
    ensures Later(s, Confirming(s, wid, child, expires, git, fd, seal))
  {
  }

  lemma OwnMoveIsLater(s: State, wid: nat, m: Move)
    requires wid in s.waiters && MoveEnabled(s, s.waiters[wid], m) && !Local(m) && !m.ConfirmSaves?
    ensures Later(s, Moved(s, wid, m))
  {
    hide MovedLocally, Confirming, Finish, Truncated;
    match m {
      case Freeze(g) =>
      case PinSaves =>
      case Spawns(exit, output) =>
      case Files =>
      case Reports =>
      case Ends(readable) =>
    }
  }

  lemma MoveIsLater(s: State, wid: nat, m: Move)
    requires wid in s.waiters && MoveEnabled(s, s.waiters[wid], m) && s.first.Keys == s.disk.recs.Keys
    ensures Later(s, Moved(s, wid, m))
  {
    if Local(m) {
      hide NextPc;
      assert Later(s, MovedLocally(s, wid, m));
      hide Later, MovedLocally;
    } else if m.ConfirmSaves? {
      ConfirmIsLater(s, wid, m.child, m.expires, m.git, m.fd, m.seal);
      hide Later, Confirming, MovedLocally;
    } else {
      hide Later, Moved;
      OwnMoveIsLater(s, wid, m);
    }
  }

  lemma PetitionIsLater(s: State, rid: Rid, wid: nat, p: Petition, detached: bool)
    requires s.first.Keys == s.disk.recs.Keys && rid !in s.disk.recs
    ensures Later(s, Petitioned(s, rid, p)) && Later(s, Put(Petitioned(s, rid, p), wid, RunWaiter(rid, p, detached)))
  {
  }

  lemma CrashIsLater(s: State)
    ensures Later(s, Crashed(s))
  {
  }

  lemma LookIsLater(s: State, look: Look)
    requires LookEnabled(s, look)
    ensures Later(s, Looked(s, look))
  {
  }

  lemma StepIsLater(s: State, st: Step)
    requires s.first.Keys == s.disk.recs.Keys && Enabled(s, st)
    ensures Later(s, Apply(s, st))
  {
    hide Moved, Done, Looked, Crashed, Petitioned, Later;
    match st {
      case NewRun(rid, wid, p, detached) => PetitionIsLater(s, rid, wid, p, detached);
      case NewOther(rid, p) => PetitionIsLater(s, rid, 0, p, true);
      case Do(deed) => DeedIsLater(s, deed);
      case Crash => CrashIsLater(s);
      case Scan(look) => LookIsLater(s, look);
      case Act(wid, m) => MoveIsLater(s, wid, m);
    }
  }

  lemma KeptTwice<T>(f: map<Rid, Once<T>>, g: map<Rid, Once<T>>, h: map<Rid, Once<T>>)
    requires OnceKept(f, g) && OnceKept(g, h)
    ensures OnceKept(f, h)
  {
  }

  lemma LaterTwice(a: State, b: State, c: State)
    requires Later(a, b) && Later(b, c)
    ensures Later(a, c)
  {
    KeptTwice(a.disk.verdicts, b.disk.verdicts, c.disk.verdicts);
    KeptTwice(a.disk.cancels, b.disk.cancels, c.disk.cancels);
    KeptTwice(a.disk.acks, b.disk.acks, c.disk.acks);
    KeptTwice(a.disk.selections, b.disk.selections, c.disk.selections);
    hide OnceKept;
  }

  lemma {:induction false} RunIsLater(s: State, steps: seq<Step>)
    requires Inv(s) && CanRun(s, steps)
    ensures Later(s, RunTo(s, steps))
    decreases |steps|
  {
    if steps != [] {
      StepIsLater(s, steps[0]);
      StepKeeps(s, steps[0]);
      hide Later;
      RunIsLater(Apply(s, steps[0]), steps[1..]);
      LaterTwice(s, Apply(s, steps[0]), RunTo(s, steps));
    }
  }

  // ----- Approval ----------------------------------------------------------------------------------------

  /** The verdict file can no longer come to hold an approval. */
  predicate Refused(d: Disk, rid: Rid) {
    rid in d.verdicts && (d.verdicts[rid].Torn?
      || (d.verdicts[rid].Holds? && d.verdicts[rid].content.decision != Approve))
  }

  /** A command has reached a process only if the verdict file of its id holds an approval. */
  lemma SpawnNeedsApproval(now: int, cfg: Config, steps: seq<Step>, e: Spawn)
    requires CanRun(Boot(now, cfg), steps) && e in RunTo(Boot(now, cfg), steps).spawns
    ensures Approved(RunTo(Boot(now, cfg), steps).disk, e.rid)
  {
    ReachableIsGood(now, cfg, steps);
    assert SpawnOk(RunTo(Boot(now, cfg), steps), e);
  }

  /** Once a verdict file holds anything but an approval, or was created by a writer that died or
      failed, its petition has not spawned and never does, whatever happens next. */
  lemma RefusedNeverSpawns(now: int, cfg: Config, before: seq<Step>, next: seq<Step>, rid: Rid)
    requires CanRun(Boot(now, cfg), before)
    requires CanRun(RunTo(Boot(now, cfg), before), next)
    requires Refused(RunTo(Boot(now, cfg), before).disk, rid)
    ensures var s := RunTo(RunTo(Boot(now, cfg), before), next);
      Refused(s.disk, rid) && forall e | e in s.spawns :: e.rid != rid
  {
    var mid := RunTo(Boot(now, cfg), before);
    var s := RunTo(mid, next);
    ReachableIsGood(now, cfg, before);
    RunIsLater(mid, next);
    RunKeeps(mid, next);
    forall e | e in s.spawns ensures e.rid != rid {
      assert SpawnOk(s, e);
    }
  }

  // ----- At most once ---------------------------------------------------------------------------------------

  /** The spawn belongs to the petition `rid` or to a confirmation of it. */
  predicate SpawnOf(s: State, e: Spawn, rid: Rid) {
    e.rid == rid || (e.rid in s.disk.recs && s.disk.recs[e.rid].petition.confirmOf == Some(rid))
  }

  /** A petition and its confirmations together reach a process at most once, and never have two
      waiters at the same time. */
  lemma AtMostOnce(now: int, cfg: Config, steps: seq<Step>, rid: Rid)
    requires CanRun(Boot(now, cfg), steps)
    ensures var s := RunTo(Boot(now, cfg), steps);
      && (forall i, j | 0 <= i < |s.spawns| && 0 <= j < |s.spawns| && SpawnOf(s, s.spawns[i], rid)
            && SpawnOf(s, s.spawns[j], rid) :: i == j)
      && (forall i, j | i in s.waiters && j in s.waiters && s.waiters[i].root == s.waiters[j].root :: i == j)
  {
    ReachableIsGood(now, cfg, steps);
    var s := RunTo(Boot(now, cfg), steps);
    forall i, j | 0 <= i < |s.spawns| && 0 <= j < |s.spawns| && SpawnOf(s, s.spawns[i], rid)
      && SpawnOf(s, s.spawns[j], rid)
      ensures i == j
    {
      var a, b := s.spawns[i], s.spawns[j];
      assert a in s.spawns && b in s.spawns;
      assert SpawnOk(s, a) && SpawnOk(s, b);
      ConfirmationSpawnsAlone(s, a, b);
      ConfirmationSpawnsAlone(s, b, a);
    }
  }

  /** A confirmation and its parent do not both spawn. */
  lemma ConfirmationSpawnsAlone(s: State, c: Spawn, p: Spawn)
    requires Inv(s) && c in s.spawns && p in s.spawns
    ensures c.rid in s.disk.recs && s.disk.recs[c.rid].petition.confirmOf != Some(p.rid)
  {
    assert SpawnOk(s, c) && SpawnOk(s, p);
    assert !ChildOf(s.disk, c.rid, p.rid);
  }

  ghost predicate Unwatched(s: State, rid: Rid) {
    rid in s.disk.recs && Verdict(s.disk, rid).Some? && forall i | i in s.waiters :: s.waiters[i].rid != rid
  }

  /** A move concerns one waiter, which changes petition only when it saves a confirmation. */
  lemma MovedWaiters(s: State, wid: nat, m: Move)
    requires wid in s.waiters && MoveEnabled(s, s.waiters[wid], m)
    ensures var s' := Moved(s, wid, m);
      && (forall i | i in s'.waiters :: i in s.waiters)
      && (forall i | i in s'.waiters && i != wid :: s'.waiters[i] == s.waiters[i])
      && (wid in s'.waiters ==> s'.waiters[wid].rid == if m.ConfirmSaves? then m.child else s.waiters[wid].rid)
      && s.disk.recs.Keys <= s'.disk.recs.Keys
  {
    match m {
      case Freeze(g) =>
      case PinSaves =>
      case ConfirmSaves(child, expires, git, fd, seal) =>
      case Spawns(exit, output) =>
      case Files =>
      case Reports =>
      case Ends(readable) =>
      case _ => assert Moved(s, wid, m) == MovedLocally(s, wid, m);
    }
  }

  lemma UnwatchedStays(s: State, s': State, wid: nat, rid: Rid)
    requires Unwatched(s, rid) && Later(s, s') && s.disk.recs.Keys <= s'.disk.recs.Keys && wid in s.waiters
    requires forall i | i in s'.waiters && i != wid :: i in s.waiters && s'.waiters[i] == s.waiters[i]
    requires wid in s'.waiters ==> s'.waiters[wid].rid == s.waiters[wid].rid || s'.waiters[wid].rid !in s.disk.recs
    ensures Unwatched(s', rid)
  {
  }

  lemma MoveLeavesUnwatched(s: State, wid: nat, m: Move, rid: Rid)
    requires wid in s.waiters && MoveEnabled(s, s.waiters[wid], m) && Unwatched(s, rid)
    requires s.first.Keys == s.disk.recs.Keys
    ensures Unwatched(Moved(s, wid, m), rid)
  {
    MoveIsLater(s, wid, m);
    MovedWaiters(s, wid, m);
    UnwatchedStays(s, Moved(s, wid, m), wid, rid);
    hide Moved, Unwatched, Later;
  }

  lemma DeedLeavesUnwatched(s: State, deed: Deed, rid: Rid)
    requires DeedEnabled(s, deed) && Unwatched(s, rid)
    ensures Unwatched(Done(s, deed), rid)
  {
    DeedIsLater(s, deed);
    assert Done(s, deed).waiters == s.waiters;
  }

  lemma StepLeavesUnwatched(s: State, st: Step, rid: Rid)
    requires s.first.Keys == s.disk.recs.Keys && Enabled(s, st) && Unwatched(s, rid)
    ensures Unwatched(Apply(s, st), rid)
  {
    match st {
      case NewRun(_, _, _, _) =>
      case NewOther(_, _) =>
      case Do(deed) => DeedLeavesUnwatched(s, deed, rid);
      case Crash =>
      case Scan(look) =>
      case Act(wid, m) => MoveLeavesUnwatched(s, wid, m, rid);
    }
  }

  /** A decided petition that nobody waits for is never adopted again. */
  lemma {:induction false} DecidedIsNeverAdopted(s: State, steps: seq<Step>, rid: Rid)
    requires Inv(s) && CanRun(s, steps) && Unwatched(s, rid)
    ensures Unwatched(RunTo(s, steps), rid)
    decreases |steps|
  {
    if steps != [] {
      StepLeavesUnwatched(s, steps[0], rid);
      StepKeeps(s, steps[0]);
      DecidedIsNeverAdopted(Apply(s, steps[0]), steps[1..], rid);
    }
  }

  /** No executable petition is forgotten: unless a verdict or a cancellation can be read for it, someone
      found it expired or unreadable, or its caller left, it is queued for adoption or has exactly one
      waiter. An unreadable verdict file decides nothing. */
  lemma NoPetitionForgotten(now: int, cfg: Config, steps: seq<Step>, rid: Rid)
    requires CanRun(Boot(now, cfg), steps)
    requires var s := RunTo(Boot(now, cfg), steps);
      rid in s.disk.recs && s.disk.recs[rid].petition.kind == Exec && !Settled(s, rid)
    ensures var s := RunTo(Boot(now, cfg), steps);
      rid in Queue(s.phase) || exists i :: Watches(s, i, rid) && forall j | Watches(s, j, rid) :: j == i
  {
    ReachableIsGood(now, cfg, steps);
    var s := RunTo(Boot(now, cfg), steps);
    assert Attended(s, rid);
    if rid !in Queue(s.phase) {
      var i :| Watches(s, i, rid);
      forall j | Watches(s, j, rid) ensures j == i {
        assert WaiterOk(s, s.waiters[i]) && WaiterOk(s, s.waiters[j]);
      }
    }
  }

  // ----- What runs is what was first saved -------------------------------------------------------------------

  /** Under lost updates too, a stored petition is the one first saved, and a spawn starts it. */
  lemma StoredPetitionRules(now: int, cfg: Config, before: seq<Step>, next: seq<Step>)
    requires CanRun(Boot(now, cfg), before)
    requires CanRun(RunTo(Boot(now, cfg), before), next)
    ensures var mid := RunTo(Boot(now, cfg), before);
      var s := RunTo(mid, next);
      && (forall r | r in mid.first :: r in s.disk.recs && s.disk.recs[r].petition == mid.first[r].petition)
      && (forall e | e in s.spawns && e.rid in mid.first ::
            var p := mid.first[e.rid].petition;
            e.argv == p.argv && e.uid == p.uid && e.cwd == p.cwd)
  {
    var mid := RunTo(Boot(now, cfg), before);
    var s := RunTo(mid, next);
    ReachableIsGood(now, cfg, before);
    RunIsLater(mid, next);
    RunKeeps(mid, next);
    forall e | e in s.spawns && e.rid in mid.first
      ensures
        var p := mid.first[e.rid].petition;
        e.argv == p.argv && e.uid == p.uid && e.cwd == p.cwd
    {
      assert SpawnOk(s, e);
    }
  }

  /** Questions and notices never reach a process, nor does any confirmation chained onto one. */
  lemma OnlyExecSpawns(now: int, cfg: Config, steps: seq<Step>, e: Spawn)
    requires CanRun(Boot(now, cfg), steps) && e in RunTo(Boot(now, cfg), steps).spawns
    ensures var s := RunTo(Boot(now, cfg), steps);
      && e.rid in s.first && s.first[e.rid].petition.kind == Exec
      && e.root in s.first && s.first[e.root].petition.kind == Exec
      && e.argv != []
  {
    ReachableIsGood(now, cfg, steps);
    var s := RunTo(Boot(now, cfg), steps);
    assert SpawnOk(s, e);
    if s.disk.recs[e.rid].petition.confirmOf.Some? {
      assert ChildOf(s.disk, e.rid, e.root);
    }
  }

  // ----- Two keys ----------------------------------------------------------------------------------------------

  /** The record is approved and has not run, and whoever waits on it is on the way to a confirmation of
      it or has finished. */
  ghost predicate Keyed(s: State, rid: Rid) {
    && rid in s.disk.recs && Approved(s.disk, rid)
    && (forall i | i in s.waiters && s.waiters[i].rid == rid ::
          s.waiters[i].pc.ConfirmLoad? || s.waiters[i].pc.ConfirmSave? || s.waiters[i].pc.Report?)
    && (forall e | e in s.spawns :: e.rid != rid)
  }

  lemma NextPcIsKeyed(s: State, w: Waiter, m: Move)
    requires Local(m) && MoveEnabled(s, w, m) && (w.pc.ConfirmLoad? || w.pc.ConfirmSave? || w.pc.Report?)
    ensures var pc := NextPc(s, w, m); pc.ConfirmLoad? || pc.ConfirmSave? || pc.Report?
  {
  }

  lemma LocalIsKeyed(s: State, wid: nat, m: Move, rid: Rid)
    requires Keyed(s, rid) && wid in s.waiters && Local(m) && MoveEnabled(s, s.waiters[wid], m)
    ensures Keyed(MovedLocally(s, wid, m), rid)
  {
    hide NextPc, MoveEnabled, Local, GivesUp;
    if s.waiters[wid].rid == rid {
      NextPcIsKeyed(s, s.waiters[wid], m);
    }
  }

  lemma MoveIsKeyed(s: State, wid: nat, m: Move, rid: Rid)
    requires Keyed(s, rid) && wid in s.waiters && MoveEnabled(s, s.waiters[wid], m)
    ensures Keyed(Moved(s, wid, m), rid)
  {
    if Local(m) {
      LocalIsKeyed(s, wid, m, rid);
      hide MovedLocally, Keyed;
    } else {
      hide MovedLocally;
    }
  }

  lemma DeedIsKeyed(s: State, deed: Deed, rid: Rid)
    requires PetitionsKept(s) && Shaped(s.disk) && Keyed(s, rid) && DeedEnabled(s, deed)
    ensures Keyed(Done(s, deed), rid)
  {
    DeedIsCalm(s, deed);
    hide PetitionsKept, Shaped, Done;
  }

  lemma LookIsKeyed(s: State, look: Look, rid: Rid)
    requires Keyed(s, rid) && LookEnabled(s, look)
    ensures Keyed(Looked(s, look), rid)
  {
  }

  lemma StepIsKeyed(s: State, st: Step, rid: Rid)
    requires PetitionsKept(s) && Shaped(s.disk) && Keyed(s, rid) && Enabled(s, st)
    ensures Keyed(Apply(s, st), rid)
  {
    match st {
      case NewRun(_, _, _, _) => hide PetitionsKept, Shaped;
      case NewOther(_, _) => hide PetitionsKept, Shaped;
      case Do(deed) =>
        DeedIsKeyed(s, deed, rid);
        hide Keyed, Done;
      case Crash => hide PetitionsKept, Shaped;
      case Scan(look) =>
        LookIsKeyed(s, look, rid);
        hide Keyed, Looked;
      case Act(wid, m) =>
        MoveIsKeyed(s, wid, m, rid);
        hide Keyed, Moved;
    }
  }

  lemma {:induction false} RunIsKeyed(s: State, steps: seq<Step>, rid: Rid)
    requires Inv(s) && Keyed(s, rid) && CanRun(s, steps)
    ensures Keyed(RunTo(s, steps), rid)
    decreases |steps|
  {
    if steps != [] {
      StepIsKeyed(s, steps[0], rid);
      StepKeeps(s, steps[0]);
      RunIsKeyed(Apply(s, steps[0]), steps[1..], rid);
    }
  }

  /** The waiter has read an approval of an initial petition and the policy asks for confirmation. */
  predicate AsksTwice(s: State, wid: nat) {
    && wid in s.waiters && s.waiters[wid].pc == Decided(Approve) && s.waiters[wid].stage != Confirm
    && NeedsConfirm(s.cfg, s.waiters[wid].argv)
  }

  lemma OnlyWaiter(s: State, wid: nat)
    requires Inv(s) && wid in s.waiters && Armed(s.waiters[wid].pc) && Open(s.waiters[wid])
    ensures var w := s.waiters[wid];
      && w.rid in s.disk.recs && Approved(s.disk, w.rid) && (w.stage != Confirm ==> w.root == w.rid)
      && (forall e | e in s.spawns :: e.rid != w.rid)
      && (forall i | i in s.waiters && s.waiters[i].rid == w.rid :: i == wid)
  {
    hide QueueOk, NoneForgotten, PinsOk, PetitionsKept, Families;
    var w := s.waiters[wid];
    assert WaiterOk(s, w);
    forall e | e in s.spawns ensures e.rid != w.rid {
      assert SpawnOk(s, e);
    }
    forall i | i in s.waiters && s.waiters[i].rid == w.rid ensures i == wid {
      assert WaiterOk(s, s.waiters[i]);
    }
  }

  lemma BranchIsKeyed(s: State, wid: nat)
    requires Inv(s) && AsksTwice(s, wid)
    ensures Enabled(s, Act(wid, Branch)) && Keyed(Apply(s, Act(wid, Branch)), s.waiters[wid].rid)
    ensures s.waiters[wid].root == s.waiters[wid].rid
  {
    OnlyWaiter(s, wid);
    assert Apply(s, Act(wid, Branch)) == MovedLocally(s, wid, Branch);
    hide Inv, Apply, Approved;
  }

  /** If confirm-all is on or the policy lists the command for confirmation when a waiter branches on the
      approval of an initial petition, then whatever happens afterwards, crashes, adoptions and policy
      changes included, the family reaches a process only from an approved confirmation of that approved
      petition, for the same command. */
  lemma TwoKeys(now: int, cfg: Config, before: seq<Step>, wid: nat, next: seq<Step>, e: Spawn)
    requires CanRun(Boot(now, cfg), before)
    requires var s := RunTo(Boot(now, cfg), before);
      && wid in s.waiters && s.waiters[wid].pc == Decided(Approve) && s.waiters[wid].stage != Confirm
      && (s.cfg.confirmAll || s.waiters[wid].argv in s.cfg.confirm)
    requires var s := RunTo(Boot(now, cfg), before);
      CanRun(Apply(s, Act(wid, Branch)), next) && e in RunTo(Apply(s, Act(wid, Branch)), next).spawns
    requires e.root == RunTo(Boot(now, cfg), before).waiters[wid].root
    ensures var s := RunTo(Apply(RunTo(Boot(now, cfg), before), Act(wid, Branch)), next);
      && e.rid in s.disk.recs && s.disk.recs[e.rid].petition.step == Confirm
      && s.disk.recs[e.rid].petition.confirmOf == Some(e.root)
      && e.root in s.disk.recs && s.disk.recs[e.root].petition.step == Initial
      && Approved(s.disk, e.rid) && Approved(s.disk, e.root)
      && SameCommand(s.disk.recs[e.rid].petition, s.disk.recs[e.root].petition)
      && forall c | ChildOf(s.disk, c, e.root) :: c == e.rid
  {
    ReachableIsGood(now, cfg, before);
    var s0 := RunTo(Boot(now, cfg), before);
    assert AsksTwice(s0, wid);
    BranchIsKeyed(s0, wid);
    StepKeeps(s0, Act(wid, Branch));
    var s1 := Apply(s0, Act(wid, Branch));
    RunIsKeyed(s1, next, e.root);
    RunKeeps(s1, next);
    var s := RunTo(s1, next);
    hide Apply, RunTo, CanRun;
    assert SpawnOk(s, e);
    assert ChildOf(s.disk, e.rid, e.root);
  }

  /** And with neither, or on a confirmation, one approval is enough: the waiter can go from it to a process
      by its own next steps. */
  lemma OneKeySuffices(now: int, cfg: Config, before: seq<Step>, wid: nat)
    requires CanRun(Boot(now, cfg), before)
    requires var s := RunTo(Boot(now, cfg), before);
      && wid in s.waiters && s.waiters[wid].pc == Decided(Approve) && s.waiters[wid].argv != [] && !s.cfg.dryRun
      && (s.waiters[wid].stage == Confirm || (!s.cfg.confirmAll && s.waiters[wid].argv !in s.cfg.confirm))
    ensures var s := RunTo(Boot(now, cfg), before);
      var w := s.waiters[wid];
      var next := [Act(wid, Branch), Act(wid, RunLoads), Act(wid, Spawns(0, ""))];
      CanRun(s, next) && RunTo(s, next).spawns == s.spawns + [Spawn(w.rid, w.root, w.argv, w.uid, w.cwd)]
  {
    ReachableIsGood(now, cfg, before);
    RunsOn(RunTo(Boot(now, cfg), before), wid);
    hide RunTo, CanRun, Inv;
  }

  lemma BranchesOn(s: State, wid: nat)
    requires wid in s.waiters && s.waiters[wid].pc == Decided(Approve)
    requires s.waiters[wid].stage == Confirm || (!s.cfg.confirmAll && s.waiters[wid].argv !in s.cfg.confirm)
    ensures Enabled(s, Act(wid, Branch)) && Apply(s, Act(wid, Branch)) == Put(s, wid, s.waiters[wid].(pc := RunLoad))
  {
  }

  lemma LoadsOn(s: State, wid: nat, rec: PendingRecord)
    requires wid in s.waiters && s.waiters[wid].pc == RunLoad && s.waiters[wid].rid in s.disk.recs
    requires rec == s.disk.recs[s.waiters[wid].rid] && rec.petition.argv != []
    ensures Enabled(s, Act(wid, RunLoads)) && Apply(s, Act(wid, RunLoads))
          == Put(s, wid, s.waiters[wid].(pc := Gate(rec)))
  {
  }

  lemma SpawnsOn(s: State, wid: nat)
    requires wid in s.waiters && s.waiters[wid].pc.Gate? && !s.cfg.dryRun
    ensures Enabled(s, Act(wid, Spawns(0, "")))
    ensures var w := s.waiters[wid]; var p := w.pc.stored.petition;
      Apply(s, Act(wid, Spawns(0, ""))).spawns == s.spawns + [Spawn(w.rid, w.root, p.argv, p.uid, p.cwd)]
  {
  }

  lemma OneAfterOther(s: State, wid: nat, w: Waiter, rec: PendingRecord)
    requires wid in s.waiters && w == s.waiters[wid] && w.pc == Decided(Approve) && !s.cfg.dryRun
    requires w.rid in s.disk.recs && rec == s.disk.recs[w.rid] && rec.petition.argv != []
    requires w.stage == Confirm || (!s.cfg.confirmAll && w.argv !in s.cfg.confirm)
    ensures var next := [Act(wid, Branch), Act(wid, RunLoads), Act(wid, Spawns(0, ""))]; var p := rec.petition;
      CanRun(s, next) && RunTo(s, next).spawns == s.spawns + [Spawn(w.rid, w.root, p.argv, p.uid, p.cwd)]
  {
    hide Apply, Enabled, CanRun, RunTo;
    BranchesOn(s, wid);
    var s1 := Put(s, wid, w.(pc := RunLoad));
    LoadsOn(s1, wid, rec);
    var s2 := Put(s1, wid, s1.waiters[wid].(pc := Gate(rec)));
    SpawnsOn(s2, wid);
    ThreeOn(s, Act(wid, Branch), Act(wid, RunLoads), Act(wid, Spawns(0, "")));
  }

  lemma RunsOn(s: State, wid: nat)
    requires Inv(s) && wid in s.waiters && s.waiters[wid].pc == Decided(Approve) && s.waiters[wid].argv != []
    requires !s.cfg.dryRun
    requires s.waiters[wid].stage == Confirm || (!s.cfg.confirmAll && s.waiters[wid].argv !in s.cfg.confirm)
    ensures var w := s.waiters[wid];
      var next := [Act(wid, Branch), Act(wid, RunLoads), Act(wid, Spawns(0, ""))];
      CanRun(s, next) && RunTo(s, next).spawns == s.spawns + [Spawn(w.rid, w.root, w.argv, w.uid, w.cwd)]
  {
    var w := s.waiters[wid];
    assert WaiterOk(s, w);
    hide Inv, PcMatches, CanRun, RunTo;
    OneAfterOther(s, wid, w, s.disk.recs[w.rid]);
  }

  lemma ThreeOn(s: State, a: Step, b: Step, c: Step)
    requires Enabled(s, a) && Enabled(Apply(s, a), b) && Enabled(Apply(Apply(s, a), b), c)
    ensures CanRun(s, [a, b, c]) && RunTo(s, [a, b, c]) == Apply(Apply(Apply(s, a), b), c)
  {
    hide Enabled, Apply;
    var s1, s2 := Apply(s, a), Apply(Apply(s, a), b);
    assert [a, b, c][1..] == [b, c] && [b, c][1..] == [c] && [c][1..] == [];
    assert CanRun(Apply(s2, c), []);
    assert CanRun(s2, [c]) && RunTo(s2, [c]) == Apply(s2, c);
    assert CanRun(s1, [b, c]) && RunTo(s1, [b, c]) == Apply(s2, c);
  }

  lemma MoveLapses(s: State, wid: nat, m: Move, rid: Rid)
    requires wid in s.waiters && MoveEnabled(s, s.waiters[wid], m)
    requires rid in Moved(s, wid, m).lapsed && rid !in s.lapsed
    ensures var w := s.waiters[wid];
      w.rid == rid && ((m == Poll && w.pc == PollClock && s.now > w.expires) || (m == Abort && w.origin == Foreground))
  {
    hide NextPc;
  }

  /** An id lapses only when its waiter finds the deadline passed or its foreground caller gone, or when the
      restart scan finds it expired at its clock reading or cannot read it. */
  lemma LapsesOnlyIf(s: State, st: Step, rid: Rid)
    requires Inv(s) && Enabled(s, st) && rid in Apply(s, st).lapsed && rid !in s.lapsed
    ensures
      || (st.Act? && st.move == Poll && s.waiters[st.wid].rid == rid && s.now > s.waiters[st.wid].expires)
      || (st.Act? && st.move == Abort && s.waiters[st.wid].rid == rid && s.waiters[st.wid].origin == Foreground)
      || st == Scan(ListUnreadable(rid)) || st == Scan(AdoptUnreadable(rid))
      || (st == Scan(ListSkip(rid)) && rid in s.disk.recs && s.disk.recs[rid].petition.expires <= s.phase.at)
  {
    match st {
      case Act(wid, m) =>
        hide Inv;
        MoveLapses(s, wid, m, rid);
        hide Moved;
      case Scan(look) =>
        if look.AdoptExpired? {
          ExpiryBranchIsDead(s, look.rid);
          assert false;
        }
        hide Inv;
        LookLapses(s, look, rid);
        hide Looked, LookEnabled;
      case Do(deed) =>
        hide Inv, Done, DeedEnabled;
        DeedLapses(s, deed);
      case Crash => hide Inv;
      case NewRun(_, _, _, _) => hide Inv;
      case NewOther(_, _) => hide Inv;
    }
  }

  lemma DeedLapses(s: State, deed: Deed)
    requires DeedEnabled(s, deed)
    ensures Done(s, deed).lapsed == s.lapsed
  {
  }

  lemma LookLapses(s: State, look: Look, rid: Rid)
    requires LookEnabled(s, look) && !look.AdoptExpired? && rid in Looked(s, look).lapsed && rid !in s.lapsed
    ensures
      || look == ListUnreadable(rid) || look == AdoptUnreadable(rid)
      || (look == ListSkip(rid) && rid in s.disk.recs && s.disk.recs[rid].petition.expires <= s.phase.at)
  {
  }

  /** A crash ends every write: nothing stays under way, what was is unreadable for good, and what was
      written stays. */
  lemma CrashTears(s: State)
    ensures var d, d' := s.disk, Apply(s, Crash).disk;
      && d'.recs == d.recs && d'.results == d.results && Apply(s, Crash).waiters == map[] && Apply(s, Crash).edits == {}
      && (forall r | r in d.verdicts :: r in d'.verdicts &&
            d'.verdicts[r] == if d.verdicts[r].Holds? then d.verdicts[r] else Torn)
      && (forall r | r in d.cancels :: r in d'.cancels &&
            d'.cancels[r] == if d.cancels[r].Holds? then d.cancels[r] else Torn)
      && (forall r | r in d.acks :: r in d'.acks && d'.acks[r] == if d.acks[r].Holds? then d.acks[r] else Torn)
      && (forall r | r in d.selections :: r in d'.selections &&
            d'.selections[r] == if d.selections[r].Holds? then d.selections[r] else Torn)
      && d'.verdicts.Keys == d.verdicts.Keys && d'.cancels.Keys == d.cancels.Keys
      && d'.acks.Keys == d.acks.Keys && d'.selections.Keys == d.selections.Keys
  {
    hide NextPc, MoveEnabled;
  }

  // ----- Dry-run -------------------------------------------------------------------------------------

  lemma DryStep(s: State, st: Step)
    requires Enabled(s, st) && s.cfg.dryRun && (st.Do? && st.deed.Reconfigure? ==> st.deed.cfg.dryRun)
    ensures Apply(s, st).spawns == s.spawns && Apply(s, st).cfg.dryRun
  {
    match st {
      case Act(wid, m) => hide NextPc;
      case Do(deed) => hide WithCreated, WithFilled, WithTorn, Edited;
      case Scan(look) =>
      case Crash =>
      case NewRun(_, _, _, _) =>
      case NewOther(_, _) =>
    }
  }

  /** As long as dry-run is on, nothing reaches a process, whatever is approved. */
  lemma {:induction false} DryRunSpawnsNothing(s: State, steps: seq<Step>)
    requires CanRun(s, steps) && s.cfg.dryRun
    requires forall st | st in steps && st.Do? && st.deed.Reconfigure? :: st.deed.cfg.dryRun
    ensures RunTo(s, steps).spawns == s.spawns && RunTo(s, steps).cfg.dryRun
    decreases |steps|
  {
    if steps != [] {
      assert steps[0] in steps;
      DryStep(s, steps[0]);
      hide Apply, Enabled;
      DryRunSpawnsNothing(Apply(s, steps[0]), steps[1..]);
    }
  }

  // ----- Stopped groups ------------------------------------------------------------------------------------------

  lemma {:induction false} NoCrashNoFlag(s: State, steps: seq<Step>)
    requires CanRun(s, steps) && !s.crashed && Crash !in steps
    ensures !RunTo(s, steps).crashed
    decreases |steps|
  {
    if steps != [] {
      StepWithoutCrash(s, steps[0]);
      NoCrashNoFlag(Apply(s, steps[0]), steps[1..]);
    }
  }

  lemma StepWithoutCrash(s: State, st: Step)
    requires Enabled(s, st) && st != Crash
    ensures Apply(s, st).crashed == s.crashed
  {
    if st.Act? {
      MoveWithoutCrash(s, st.wid, st.move);
    }
  }

  lemma MoveWithoutCrash(s: State, wid: nat, m: Move)
    requires wid in s.waiters && MoveEnabled(s, s.waiters[wid], m)
    ensures Moved(s, wid, m).crashed == s.crashed
  {
  }

  /** In a run without crashes a stopped group has an unfinished waiter pinned to it; when no such
      waiter is left the group runs. */
  lemma StoppedGroupIsHeld(now: int, cfg: Config, steps: seq<Step>, g: nat)
    requires CanRun(Boot(now, cfg), steps) && Crash !in steps
    ensures var s := RunTo(Boot(now, cfg), steps);
      g in s.stopped ==> exists i :: i in s.waiters && s.waiters[i].pin == Some(g) && s.waiters[i].origin != Adopted
  {
    ReachableIsGood(now, cfg, steps);
    NoCrashNoFlag(Boot(now, cfg), steps);
    var s := RunTo(Boot(now, cfg), steps);
    if g in s.stopped {
      var i :| HeldBy(s, i, g);
    }
  }
}
