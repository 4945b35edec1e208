/** The inductive invariant of the petition protocol, and the steps that leave its bookkeeping alone. */
module Invariant {
  import opened Records
  import opened Protocol

  // ----- Records and families --------------------------------------------------------------------

  predicate ChildOf(d: Disk, c: Rid, p: Rid) {
    c in d.recs && d.recs[c].petition.confirmOf == Some(p)
  }

  /** The initial petition a record belongs to. */
  function Root(d: Disk, rid: Rid): Rid {
    if rid in d.recs && d.recs[rid].petition.confirmOf.Some? then d.recs[rid].petition.confirmOf.value else rid
  }

  predicate InFamily(d: Disk, rid: Rid, root: Rid) {
    rid == root || ChildOf(d, rid, root)
  }

  predicate SameCommand(p: Petition, q: Petition) {
    p.argv == q.argv && p.uid == q.uid && p.cwd == q.cwd
  }

  predicate Shape(p: Petition) {
    && (p.kind != Exec ==> p.argv == [] && p.step == Initial)
    && (p.step == Initial || p.step == Confirm)
    && (p.step == Confirm <==> p.confirmOf.Some?)
  }

  /** Whatever is updated in place, a record's petition is the one first saved under its id. */
  ghost predicate PetitionsKept(s: State) {
    && s.first.Keys == s.disk.recs.Keys
    && (forall r | r in s.disk.recs :: s.disk.recs[r].petition == s.first[r].petition)
    && (forall e | e in s.edits :: e.0 in s.disk.recs && e.1.petition == s.first[e.0].petition)
  }

  ghost predicate Shaped(d: Disk) {
    && (forall r | r in d.recs :: Shape(d.recs[r].petition))
    && (forall r | r in d.acks :: r in d.recs && d.recs[r].petition.kind == Notify)
    && (forall r | r in d.selections :: r in d.recs && d.recs[r].petition.kind == Ask)
  }

  /** A confirmation record exists only under an approved initial petition for the same command,
      and at most one per parent. */
  ghost predicate Families(d: Disk) {
    && (forall c, p | ChildOf(d, c, p) ::
          && p in d.recs && d.recs[p].petition.step == Initial && Approved(d, p)
          && SameCommand(d.recs[c].petition, d.recs[p].petition))
    && (forall c, c', p | ChildOf(d, c, p) && ChildOf(d, c', p) :: c == c')
  }

  // ----- Waiters ---------------------------------------------------------------------------------

  /** The points from which a waiter may still reach a spawn. */
  predicate Open(w: Waiter) {
    !w.pc.File? && !w.pc.Report?
  }

  /** What a waiter has still to record. */
  function Pending(pc: Pc): seq<(Rid, RunResult)> {
    match pc
    case Report(todo) => todo
    case File(_, after) => after
    case _ => []
  }

  predicate Armed(pc: Pc) {
    pc.ConfirmLoad? || pc.ConfirmSave? || pc.RunLoad? || pc.Gate? || (pc.Decided? && pc.decision == Approve)
  }

  /** A verdict or a cancellation can be read, or somebody gave up on it. */
  predicate Settled(s: State, rid: Rid) {
    Verdict(s.disk, rid).Some? || CancelInfo(s.disk, rid).Some? || rid in s.lapsed
  }

  ghost predicate Unspawned(s: State, root: Rid) {
    forall e | e in s.spawns :: e.root != root
  }

  ghost predicate Childless(d: Disk, p: Rid) {
    forall c :: !ChildOf(d, c, p)
  }

  predicate WaiterMatches(d: Disk, w: Waiter) {
    && w.rid in d.recs
    && var p := d.recs[w.rid].petition;
       && w.root == Root(d, w.rid) && w.stage == p.step
       && w.argv == p.argv && w.uid == p.uid && w.cwd == p.cwd
  }

  predicate PcMatches(s: State, w: Waiter) {
    && (Armed(w.pc) ==> Approved(s.disk, w.rid))
    && (w.pc.ConfirmLoad? || w.pc.ConfirmSave? ==> w.stage == Initial)
    && (w.pc.Gate? && w.rid in s.disk.recs ==>
          w.pc.stored.petition == s.disk.recs[w.rid].petition && w.pc.stored.petition.argv != [])
    && (w.pc.PinSave? && w.rid in s.disk.recs ==> w.pc.pinned.petition == s.disk.recs[w.rid].petition)
    && (w.pc.Decided? || w.pc.File? || w.pc.Report? ==> Settled(s, w.rid))
  }

  ghost predicate WaiterOk(s: State, w: Waiter) {
    && WaiterMatches(s.disk, w)
    && PcMatches(s, w)
    && (Open(w) ==> Unspawned(s, w.root))
    && (Open(w) && w.stage == Initial ==> Childless(s.disk, w.rid))
  }

  ghost predicate WaitersOk(s: State) {
    && (forall i | i in s.waiters :: WaiterOk(s, s.waiters[i]))
    && (forall i, j | i in s.waiters && j in s.waiters && s.waiters[i].root == s.waiters[j].root :: i == j)
  }

  // ----- Spawns, restart scan, and petitions nobody forgets ----------------------------------------

  ghost predicate SpawnOk(s: State, e: Spawn) {
    && e.rid in s.disk.recs
    && Approved(s.disk, e.rid)
    && e.root == Root(s.disk, e.rid)
    && var p := s.disk.recs[e.rid].petition;
       && e.argv == p.argv && e.uid == p.uid && e.cwd == p.cwd && e.argv != []
       && (p.step == Initial ==> Childless(s.disk, e.rid))
  }

  ghost predicate SpawnsOk(s: State) {
    && (forall e | e in s.spawns :: SpawnOk(s, e))
    && (forall i, j | 0 <= i < j < |s.spawns| :: s.spawns[i].root != s.spawns[j].root)
  }

  function Queue(ph: Phase): set<Rid> {
    match ph
    case Listing(todo, items, _) => todo + items
    case Adopting(items, _) => items
  }

  /** A queued id whose family already has a waiter is decided, so the scan will skip it; and what the
      listing took had not expired when the scan began. */
  ghost predicate QueueOk(s: State) {
    && Queue(s.phase) <= s.disk.recs.Keys
    && (forall r | r in s.phase.items && r in s.disk.recs :: s.disk.recs[r].petition.expires > s.phase.at)
    && (forall r, i | r in Queue(s.phase) && i in s.waiters && s.waiters[i].root == Root(s.disk, r) ::
          Verdict(s.disk, r).Some?)
  }

  ghost predicate Watches(s: State, i: nat, r: Rid) {
    i in s.waiters && s.waiters[i].rid == r
  }

  ghost predicate Attended(s: State, r: Rid) {
    r in Queue(s.phase) || exists i :: Watches(s, i, r)
  }

  ghost predicate NoneForgotten(s: State) {
    forall r | r in s.disk.recs && s.disk.recs[r].petition.kind == Exec && !Settled(s, r) :: Attended(s, r)
  }

  /** A group the daemon stopped has, until a crash, an unfinished waiter that will resume it. */
  ghost predicate HeldBy(s: State, i: nat, g: nat) {
    i in s.waiters && s.waiters[i].pin == Some(g) && s.waiters[i].origin != Adopted
  }

  ghost predicate PinsOk(s: State) {
    && (!s.crashed ==> forall g | g in s.stopped :: exists i :: HeldBy(s, i, g))
    && (forall i | i in s.waiters && (s.waiters[i].origin == Adopted || s.waiters[i].pc.Hold?) ::
       s.waiters[i].pin == None)
    && (forall i | i in s.waiters && s.waiters[i].pc.Hold? :: s.waiters[i].origin != Adopted)
  }

  ghost predicate Inv(s: State) {
    && PetitionsKept(s)
    && Shaped(s.disk)
    && Families(s.disk)
    && WaitersOk(s)
    && SpawnsOk(s)
    && QueueOk(s)
    && NoneForgotten(s)
    && PinsOk(s)
  }

  lemma BootIsGood(now: int, cfg: Config)
    ensures Inv(Boot(now, cfg))
  {
  }

  // ----- Steps that leave the protocol's bookkeeping alone -------------------------------------------

  /** Disks that agree on petitions, where every parsed verdict is kept and no file disappears. */
  ghost predicate DiskGrows(d: Disk, d': Disk) {
    && d'.recs.Keys == d.recs.Keys
    && (forall r | r in d.recs :: d'.recs[r].petition == d.recs[r].petition)
    && (forall r | Verdict(d, r).Some? :: Verdict(d', r) == Verdict(d, r))
    && d.verdicts.Keys <= d'.verdicts.Keys
    && (forall r | CancelInfo(d, r).Some? :: CancelInfo(d', r).Some?)
  }

  lemma GrowthKeepsFamilies(d: Disk, d': Disk)
    requires DiskGrows(d, d') && Families(d)
    ensures Families(d')
    ensures forall r :: Root(d', r) == Root(d, r)
    ensures forall c, p :: ChildOf(d', c, p) == ChildOf(d, c, p)
    ensures forall r | Approved(d, r) :: Approved(d', r)
  {
    forall c, p | ChildOf(d', c, p)
      ensures
        && p in d'.recs && d'.recs[p].petition.step == Initial && Approved(d', p)
        && SameCommand(d'.recs[c].petition, d'.recs[p].petition)
    {
      assert ChildOf(d, c, p);
      assert Verdict(d, p).Some?;
    }
    forall c, c', p | ChildOf(d', c, p) && ChildOf(d', c', p)
      ensures c == c'
    {
      assert ChildOf(d, c, p) && ChildOf(d, c', p);
    }
  }

  /** Only the disk, the scan of decided ids, the clocks and the freezes of unrelated groups move. */
  ghost predicate Calm(s: State, s': State) {
    && DiskGrows(s.disk, s'.disk)
    && s'.first == s.first && s'.waiters == s.waiters && s'.spawns == s.spawns
    && s'.phase == s.phase
    && s'.stopped <= s.stopped
    && s.lapsed <= s'.lapsed
    && s'.crashed == s.crashed
  }

  lemma CalmKeeps(s: State, s': State)
    requires Inv(s) && Calm(s, s')
    requires PetitionsKept(s') && Shaped(s'.disk)
    ensures Inv(s')
  {
    GrowthKeepsFamilies(s.disk, s'.disk);
    forall i | i in s'.waiters ensures WaiterOk(s', s'.waiters[i]) {
      assert WaiterOk(s, s.waiters[i]);
    }
    forall e | e in s'.spawns ensures SpawnOk(s', e) {
      assert SpawnOk(s, e);
    }
    CalmAttends(s, s');
    CalmHolds(s, s');
  }

  lemma CalmAttends(s: State, s': State)
    requires NoneForgotten(s) && Calm(s, s')
    ensures NoneForgotten(s')
  {
    forall r | r in s'.disk.recs && s'.disk.recs[r].petition.kind == Exec && !Settled(s', r)
      ensures Attended(s', r)
    {
      assert Attended(s, r);
      if r !in Queue(s.phase) {
        var i :| Watches(s, i, r);
        assert Watches(s', i, r);
      }
    }
  }

  lemma CalmHolds(s: State, s': State)
    requires PinsOk(s) && Calm(s, s')
    ensures PinsOk(s')
  {
    if !s'.crashed {
      forall g | g in s'.stopped ensures exists i :: HeldBy(s', i, g) {
        var i :| HeldBy(s, i, g);
        assert HeldBy(s', i, g);
      }
    }
  }

  // ----- Write-once files ------------------------------------------------------------------------

  lemma CreateGrows(d: Disk, rid: Rid, slip: Slip)
    requires Shaped(d) && SlipAllowed(d, rid, slip)
    ensures DiskGrows(d, WithCreated(d, rid, slip)) && Shaped(WithCreated(d, rid, slip))
  {
    match slip {
      case VerdictSlip(v) =>
      case CancelSlip(c) =>
      case AckSlip(a) =>
      case SelectionSlip(x) =>
    }
  }

  lemma FillGrows(d: Disk, rid: Rid, file: SlipKind)
    requires Shaped(d)
    ensures DiskGrows(d, WithFilled(d, rid, file)) && Shaped(WithFilled(d, rid, file))
  {
  }

  lemma TearGrows(d: Disk, rid: Rid, file: SlipKind)
    requires Shaped(d)
    ensures DiskGrows(d, WithTorn(d, rid, file)) && Shaped(WithTorn(d, rid, file))
  {
  }
}
