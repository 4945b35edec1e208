/** Every step of the petition protocol keeps the invariant. */
module Preserve {
  import opened Records
  import opened Protocol
  import opened Invariant

  // ----- Parties that only touch the disk ----------------------------------------------------------

  lemma EditKeepsPetition(rec: PendingRecord, e: Edit)
    ensures Edited(rec, e).Some? ==> Edited(rec, e).value.petition == rec.petition
  {
  }

  ghost predicate CalmDeed(s: State, s': State) {
    Calm(s, s') && PetitionsKept(s') && Shaped(s'.disk)
  }

  lemma EditLoadIsCalm(s: State, rid: Rid, e: Edit)
    requires PetitionsKept(s) && Shaped(s.disk) && DeedEnabled(s, EditLoad(rid, e))
    ensures CalmDeed(s, Done(s, EditLoad(rid, e)))
  {
    EditKeepsPetition(s.disk.recs[rid], e);
  }

  lemma EditSaveIsCalm(s: State, rid: Rid, rec: PendingRecord)
    requires PetitionsKept(s) && Shaped(s.disk) && DeedEnabled(s, EditSave(rid, rec))
    ensures CalmDeed(s, Done(s, EditSave(rid, rec)))
  {
    SaveGrows(s, rid, rec);
    hide DiskGrows, PetitionsKept, Shaped;
    DiskStepIsCalm(s, SaveRec(s.disk, rid, rec));
    hide CalmDeed;
  }

  lemma SaveGrows(s: State, rid: Rid, rec: PendingRecord)
    requires PetitionsKept(s) && Shaped(s.disk) && (rid, rec) in s.edits
    ensures DiskGrows(s.disk, SaveRec(s.disk, rid, rec)) && Shaped(SaveRec(s.disk, rid, rec))
  {
  }

  lemma DiskStepIsCalm(s: State, d': Disk)
    requires PetitionsKept(s) && DiskGrows(s.disk, d') && Shaped(d')
    ensures CalmDeed(s, s.(disk := d'))
  {
  }

  lemma QuietDeedIsCalm(s: State, deed: Deed)
    requires PetitionsKept(s) && Shaped(s.disk) && DeedEnabled(s, deed)
    requires deed.Tick? || deed.Reconfigure? || deed.CancelResult? || deed.ResumeStored?
    ensures CalmDeed(s, Done(s, deed))
  {
    if deed.CancelResult? {
      DiskStepIsCalm(s, SaveResult(s.disk, deed.rid, -1, "cancelled"));
    }
  }

  lemma DeedIsCalm(s: State, deed: Deed)
    requires PetitionsKept(s) && Shaped(s.disk) && DeedEnabled(s, deed)
    ensures CalmDeed(s, Done(s, deed))
  {
    hide WithCreated, WithFilled, WithTorn, Edited, CalmDeed, PetitionsKept, Shaped, DiskGrows;
    match deed {
      case EditLoad(rid, e) => EditLoadIsCalm(s, rid, e);
      case EditSave(rid, rec) => EditSaveIsCalm(s, rid, rec);
      case CreateSlip(rid, slip) =>
        CreateGrows(s.disk, rid, slip);
        DiskStepIsCalm(s, WithCreated(s.disk, rid, slip));
      case FillSlip(rid, file) =>
        FillGrows(s.disk, rid, file);
        DiskStepIsCalm(s, WithFilled(s.disk, rid, file));
      case TearSlip(rid, file) =>
        TearGrows(s.disk, rid, file);
        DiskStepIsCalm(s, WithTorn(s.disk, rid, file));
      case _ => QuietDeedIsCalm(s, deed);
    }
  }

  lemma DeedKeeps(s: State, deed: Deed)
    requires Inv(s) && DeedEnabled(s, deed)
    ensures Inv(Done(s, deed))
  {
    DeedIsCalm(s, deed);
    CalmKeeps(s, Done(s, deed));
  }

  // ----- New petitions -----------------------------------------------------------------------------

  /** A record saved under an unused id disturbs nothing that is there. */
  ghost predicate DiskGains(d: Disk, d': Disk, rid: Rid, rec: PendingRecord) {
    rid !in d.recs && d' == SaveRec(d, rid, rec)
  }

  lemma GainKeepsFamilies(d: Disk, d': Disk, rid: Rid, rec: PendingRecord)
    requires DiskGains(d, d', rid, rec) && Families(d)
    requires rec.petition.confirmOf.Some? ==>
      var p := rec.petition.confirmOf.value;
      && p in d.recs && d.recs[p].petition.step == Initial && Approved(d, p)
      && SameCommand(rec.petition, d.recs[p].petition) && Childless(d, p)
    ensures Families(d')
    ensures forall r | r != rid :: Root(d', r) == Root(d, r)
    ensures forall c, p | c != rid :: ChildOf(d', c, p) == ChildOf(d, c, p)
    ensures forall r :: Approved(d', r) == Approved(d, r)
  {
    forall c, p | ChildOf(d', c, p)
      ensures
        && p in d'.recs && d'.recs[p].petition.step == Initial && Approved(d', p)
        && SameCommand(d'.recs[c].petition, d'.recs[p].petition)
    {
      assert c != rid ==> ChildOf(d, c, p);
    }
    forall c, c', p | ChildOf(d', c, p) && ChildOf(d', c', p)
      ensures c == c'
    {
      assert c != rid ==> ChildOf(d, c, p);
      assert c' != rid ==> ChildOf(d, c', p);
    }
  }

  /** What every waiter but `wid` and every spawn needs to stay in order when a record appears. */
  lemma GainKeepsOthers(s: State, s': State, rid: Rid, rec: PendingRecord, i: nat)
    requires Inv(s) && DiskGains(s.disk, s'.disk, rid, rec) && Families(s'.disk)
    requires s'.spawns == s.spawns && s.lapsed <= s'.lapsed
    requires i in s.waiters
    requires rec.petition.confirmOf != Some(s.waiters[i].rid)
    ensures WaiterOk(s', s.waiters[i])
  {
    var w := s.waiters[i];
    assert WaiterOk(s, w);
    assert Settled(s, w.rid) ==> Settled(s', w.rid);
    if Open(w) && w.stage == Initial {
      forall c ensures !ChildOf(s'.disk, c, w.rid) {
        assert !ChildOf(s.disk, c, w.rid);
      }
    }
  }

  lemma GainKeepsSpawns(s: State, s': State, rid: Rid, rec: PendingRecord)
    requires Inv(s) && DiskGains(s.disk, s'.disk, rid, rec)
    requires s'.spawns == s.spawns
    requires rec.petition.confirmOf.Some? ==> Unspawned(s, rec.petition.confirmOf.value)
    ensures SpawnsOk(s')
  {
    forall e | e in s'.spawns ensures SpawnOk(s', e) {
      assert SpawnOk(s, e);
      if s.disk.recs[e.rid].petition.step == Initial {
        assert e.root == e.rid;
        forall c ensures !ChildOf(s'.disk, c, e.rid) {
          assert !ChildOf(s.disk, c, e.rid);
        }
      }
    }
  }

  lemma RootsAreSaved(d: Disk, rid: Rid)
    requires Families(d) && rid in d.recs
    ensures Root(d, rid) in d.recs
  {
    if d.recs[rid].petition.confirmOf.Some? {
      assert ChildOf(d, rid, d.recs[rid].petition.confirmOf.value);
    }
  }

  /** Nothing in the protocol names an id that is on no file yet. */
  lemma UnusedIsUnknown(s: State, rid: Rid)
    requires Inv(s) && rid !in s.disk.recs
    ensures forall i | i in s.waiters :: s.waiters[i].root != rid && s.waiters[i].rid != rid
    ensures forall e | e in s.spawns :: e.root != rid
    ensures Childless(s.disk, rid)
    ensures forall r | r in Queue(s.phase) :: Root(s.disk, r) != rid
  {
    forall i | i in s.waiters ensures s.waiters[i].root != rid && s.waiters[i].rid != rid {
      assert WaiterOk(s, s.waiters[i]);
      RootsAreSaved(s.disk, s.waiters[i].rid);
    }
    forall e | e in s.spawns ensures e.root != rid {
      assert SpawnOk(s, e);
      RootsAreSaved(s.disk, e.rid);
    }
    forall r | r in Queue(s.phase) ensures Root(s.disk, r) != rid {
      RootsAreSaved(s.disk, r);
    }
  }

  lemma GainKeepsPetitions(s: State, s': State, rid: Rid, rec: PendingRecord)
    requires PetitionsKept(s) && DiskGains(s.disk, s'.disk, rid, rec)
    requires s'.first == s.first[rid := rec] && s'.edits == s.edits
    ensures PetitionsKept(s')
  {
  }

  lemma GainKeepsShape(d: Disk, d': Disk, rid: Rid, rec: PendingRecord)
    requires Shaped(d) && DiskGains(d, d', rid, rec) && Shape(rec.petition)
    ensures Shaped(d')
  {
  }

  lemma GainKeepsQueue(s: State, s': State, rid: Rid, rec: PendingRecord)
    requires QueueOk(s) && DiskGains(s.disk, s'.disk, rid, rec) && s'.phase == s.phase
    requires forall i | i in s'.waiters ::
               (i in s.waiters && s'.waiters[i].root == s.waiters[i].root)
               || (forall r | r in Queue(s.phase) :: Root(s.disk, r) != s'.waiters[i].root)
    ensures QueueOk(s')
  {
  }

  /** Petitions other than `rid` stay attended when waiters are only added. */
  lemma GainKeepsAttended(s: State, s': State, rid: Rid)
    requires NoneForgotten(s)
    requires s'.disk.recs.Keys == s.disk.recs.Keys + {rid}
    requires forall r | r in s.disk.recs && r != rid :: s'.disk.recs[r] == s.disk.recs[r]
    requires s'.disk.verdicts == s.disk.verdicts && s'.disk.cancels == s.disk.cancels && s'.lapsed == s.lapsed
    requires Queue(s'.phase) == Queue(s.phase)
    requires forall i | i in s.waiters :: i in s'.waiters && s'.waiters[i] == s.waiters[i]
    requires s'.disk.recs[rid].petition.kind == Exec ==> Attended(s', rid)
    ensures NoneForgotten(s')
  {
    forall r | r in s'.disk.recs && s'.disk.recs[r].petition.kind == Exec && !Settled(s', r)
      ensures Attended(s', r)
    {
      if r != rid {
        assert !Settled(s, r) && Attended(s, r);
        if r !in Queue(s.phase) {
          var i :| Watches(s, i, r);
          assert Watches(s', i, r);
        }
      }
    }
  }

  lemma GainKeepsPins(s: State, s': State)
    requires PinsOk(s) && s'.stopped == s.stopped && s'.crashed == s.crashed
    requires forall i | i in s.waiters :: i in s'.waiters && s'.waiters[i] == s.waiters[i]
    requires forall i | i in s'.waiters && i !in s.waiters ::
               s'.waiters[i].pin == None && (s'.waiters[i].pc.Hold? ==> s'.waiters[i].origin != Adopted)
    ensures PinsOk(s')
  {
    if !s'.crashed {
      forall g | g in s'.stopped ensures exists i :: HeldBy(s', i, g) {
        var i :| HeldBy(s, i, g);
        assert HeldBy(s', i, g);
      }
    }
  }

  lemma NewOtherKeepsWaiters(s: State, rid: Rid, p: Petition)
    requires Inv(s) && Unused(s.disk, rid) && NewOtherPetition(p) && Families(Petitioned(s, rid, p).disk)
    ensures WaitersOk(Petitioned(s, rid, p))
  {
    var s' := Petitioned(s, rid, p);
    forall i | i in s'.waiters ensures WaiterOk(s', s'.waiters[i]) {
      GainKeepsOthers(s, s', rid, NewRecord(p), i);
    }
  }

  lemma NewOtherKeeps(s: State, rid: Rid, p: Petition)
    requires Inv(s) && Unused(s.disk, rid) && NewOtherPetition(p)
    ensures Inv(Petitioned(s, rid, p))
  {
    hide PetitionsKept, Shaped, Families, WaitersOk, SpawnsOk, QueueOk, NoneForgotten, PinsOk;
    var s' := Petitioned(s, rid, p);
    var rec := NewRecord(p);
    GainKeepsFamilies(s.disk, s'.disk, rid, rec);
    GainKeepsPetitions(s, s', rid, rec);
    GainKeepsShape(s.disk, s'.disk, rid, rec);
    NewOtherKeepsWaiters(s, rid, p);
    GainKeepsSpawns(s, s', rid, rec);
    GainKeepsQueue(s, s', rid, rec);
    GainKeepsAttended(s, s', rid);
    GainKeepsPins(s, s');
  }

  lemma NewRunKeepsWaiters(s: State, s': State, rid: Rid, wid: nat, p: Petition, detached: bool)
    requires Inv(s) && Unused(s.disk, rid) && wid !in s.waiters && NewRunPetition(p)
    requires s' == Put(Petitioned(s, rid, p), wid, RunWaiter(rid, p, detached))
    requires Families(s'.disk)
    ensures WaitersOk(s')
  {
    UnusedIsUnknown(s, rid);
    forall i | i in s'.waiters && i != wid ensures WaiterOk(s', s'.waiters[i]) {
      GainKeepsOthers(s, s', rid, NewRecord(p), i);
    }
    NewWaiterIsOk(s, s', rid, wid, p, detached);
    hide SpawnsOk, QueueOk, NoneForgotten, PinsOk, PetitionsKept, Families, Shaped, WaiterOk;
  }

  lemma NewWaiterIsOk(s: State, s': State, rid: Rid, wid: nat, p: Petition, detached: bool)
    requires Inv(s) && Unused(s.disk, rid) && wid !in s.waiters && NewRunPetition(p)
    requires s' == Put(Petitioned(s, rid, p), wid, RunWaiter(rid, p, detached))
    ensures WaiterOk(s', s'.waiters[wid])
  {
    UnusedIsUnknown(s, rid);
    hide SpawnsOk, QueueOk, NoneForgotten, PinsOk, PetitionsKept, Families, Shaped, WaitersOk;
    forall c ensures !ChildOf(s'.disk, c, rid) {
      assert !ChildOf(s.disk, c, rid);
    }
  }

  lemma NewRunKeeps(s: State, rid: Rid, wid: nat, p: Petition, detached: bool)
    requires Inv(s) && Unused(s.disk, rid) && wid !in s.waiters && NewRunPetition(p)
    ensures Inv(Put(Petitioned(s, rid, p), wid, RunWaiter(rid, p, detached)))
  {
    hide PetitionsKept, Shaped, Families, WaitersOk, SpawnsOk, QueueOk, NoneForgotten, PinsOk;
    var s' := Put(Petitioned(s, rid, p), wid, RunWaiter(rid, p, detached));
    var rec := NewRecord(p);
    GainKeepsFamilies(s.disk, s'.disk, rid, rec);
    GainKeepsPetitions(s, s', rid, rec);
    GainKeepsShape(s.disk, s'.disk, rid, rec);
    NewRunKeepsWaiters(s, s', rid, wid, p, detached);
    GainKeepsSpawns(s, s', rid, rec);
    UnusedIsUnknown(s, rid);
    GainKeepsQueue(s, s', rid, rec);
    assert Watches(s', wid, rid);
    GainKeepsAttended(s, s', rid);
    GainKeepsPins(s, s');
  }

  // ----- Waiters' moves ------------------------------------------------------------------------------

  /** A waiter that stays on its petition and moves only its program counter, or takes its pin. */
  ghost predicate Repointed(s: State, s': State, wid: nat) {
    && wid in s.waiters && wid in s'.waiters
    && var w := s.waiters[wid];
       var w' := s'.waiters[wid];
       && w' == w.(pc := w'.pc, pin := w'.pin)
       && s' == s.(waiters := s.waiters[wid := w'], lapsed := s'.lapsed, stopped := s'.stopped)
       && s.lapsed <= s'.lapsed
  }

  lemma RepointKeepsWaiters(s: State, s': State, wid: nat)
    requires WaitersOk(s) && Repointed(s, s', wid)
    requires PcMatches(s', s'.waiters[wid])
    requires Open(s'.waiters[wid]) ==> Open(s.waiters[wid])
    ensures WaitersOk(s')
  {
    assert WaiterOk(s, s.waiters[wid]);
    forall i | i in s'.waiters ensures WaiterOk(s', s'.waiters[i]) {
      assert WaiterOk(s, s.waiters[i]);
    }
  }

  lemma RepointKeepsSpawns(s: State, s': State, wid: nat)
    requires SpawnsOk(s) && Repointed(s, s', wid)
    ensures SpawnsOk(s')
  {
    forall e | e in s'.spawns ensures SpawnOk(s', e) {
      assert SpawnOk(s, e);
    }
  }

  lemma RepointKeepsAttended(s: State, s': State, wid: nat)
    requires NoneForgotten(s) && Repointed(s, s', wid)
    ensures NoneForgotten(s')
  {
    forall r | r in s'.disk.recs && s'.disk.recs[r].petition.kind == Exec && !Settled(s', r)
      ensures Attended(s', r)
    {
      assert Attended(s, r);
      if r !in Queue(s.phase) {
        var i :| Watches(s, i, r);
        assert Watches(s', i, r);
      }
    }
  }

  lemma RepointKeepsPins(s: State, s': State, wid: nat)
    requires PinsOk(s) && Repointed(s, s', wid)
    requires s'.waiters[wid].pin == s.waiters[wid].pin && s'.stopped == s.stopped
    requires !s'.waiters[wid].pc.Hold?
    ensures PinsOk(s')
  {
    if !s'.crashed {
      forall g | g in s'.stopped ensures exists i :: HeldBy(s', i, g) {
        var i :| HeldBy(s, i, g);
        assert HeldBy(s', i, g);
      }
    }
  }

  lemma RepointKeeps(s: State, s': State, wid: nat)
    requires Inv(s) && Repointed(s, s', wid)
    requires PcMatches(s', s'.waiters[wid])
    requires Open(s'.waiters[wid]) ==> Open(s.waiters[wid])
    requires PinsOk(s')
    ensures Inv(s')
  {
    RepointKeepsWaiters(s, s', wid);
    RepointKeepsSpawns(s, s', wid);
    RepointKeepsAttended(s, s', wid);
    assert QueueOk(s') by {
      hide WaitersOk, SpawnsOk, Families, NoneForgotten, PinsOk, PetitionsKept, Shaped;
    }
    hide WaitersOk, SpawnsOk, Families, NoneForgotten, PinsOk, QueueOk;
  }

  lemma LocalPc(s: State, w: Waiter, m: Move, lapsed: set<Rid>)
    requires Local(m) && MoveEnabled(s, w, m)
    requires PcMatches(s, w) && WaiterMatches(s.disk, w) && Shape(s.disk.recs[w.rid].petition)
    requires s.lapsed <= lapsed && (GivesUp(s, w, m) ==> w.rid in lapsed)
    ensures PcMatches(s.(lapsed := lapsed), w.(pc := NextPc(s, w, m)))
    ensures Open(w.(pc := NextPc(s, w, m))) ==> Open(w)
    ensures !NextPc(s, w, m).Hold?
  {
  }

  lemma LocalKeeps(s: State, wid: nat, m: Move)
    requires Inv(s) && wid in s.waiters && Local(m) && MoveEnabled(s, s.waiters[wid], m)
    ensures Inv(MovedLocally(s, wid, m))
  {
    var s' := MovedLocally(s, wid, m);
    var w := s.waiters[wid];
    assert WaiterOk(s, w);
    LocalPc(s, w, m, s'.lapsed);
    hide Families, SpawnsOk, QueueOk, NoneForgotten, PinsOk, PetitionsKept, WaitersOk, NextPc, PcMatches, WaiterOk;
    RepointKeepsPins(s, s', wid);
    RepointKeeps(s, s', wid);
  }

  lemma FreezeKeepsPins(s: State, wid: nat, g: nat)
    requires PinsOk(s) && wid in s.waiters && s.waiters[wid].pc.Hold?
    ensures PinsOk(Frozen(s, wid, g))
  {
    var s' := Frozen(s, wid, g);
    if !s'.crashed {
      forall h | h in s'.stopped ensures exists i :: HeldBy(s', i, h) {
        if h == g {
          assert HeldBy(s', wid, h);
        } else {
          var i :| HeldBy(s, i, h);
          assert HeldBy(s', i, h);
        }
      }
    }
  }

  lemma FreezeKeeps(s: State, wid: nat, g: nat)
    requires Inv(s) && wid in s.waiters && s.waiters[wid].pc.Hold?
    ensures Inv(Frozen(s, wid, g))
  {
    assert WaiterOk(s, s.waiters[wid]);
    FreezeKeepsPins(s, wid, g);
    RepointKeeps(s, Frozen(s, wid, g), wid);
  }

  /** Only the waiter's program counter moves. */
  lemma AdvanceKeeps(s: State, wid: nat, pc: Pc)
    requires Inv(s) && wid in s.waiters && !pc.Hold?
    requires PcMatches(s, s.waiters[wid].(pc := pc))
    requires Open(s.waiters[wid].(pc := pc)) ==> Open(s.waiters[wid])
    ensures Inv(Put(s, wid, s.waiters[wid].(pc := pc)))
  {
    hide Families, SpawnsOk, QueueOk, NoneForgotten, PinsOk, PetitionsKept, WaitersOk, Shaped, WaiterMatches;
    var s' := Put(s, wid, s.waiters[wid].(pc := pc));
    assert PcMatches(s', s'.waiters[wid]);
    hide PcMatches;
    RepointKeepsPins(s, s', wid);
    RepointKeeps(s, s', wid);
  }

  lemma SavingAgainKeeps(s: State, rid: Rid, rec: PendingRecord)
    requires Inv(s) && rid in s.disk.recs && rec.petition == s.disk.recs[rid].petition
    ensures Inv(s.(disk := SaveRec(s.disk, rid, rec)))
  {
    hide SpawnsOk, QueueOk, NoneForgotten, PinsOk, WaitersOk, Families;
    var d' := SaveRec(s.disk, rid, rec);
    DiskStepIsCalm(s, d');
    CalmKeeps(s, s.(disk := d'));
  }

  lemma PinKeeps(s: State, wid: nat)
    requires Inv(s) && wid in s.waiters && s.waiters[wid].pc.PinSave?
    ensures Inv(Pinned(s, wid))
  {
    var w := s.waiters[wid];
    assert WaiterOk(s, w);
    hide SpawnsOk, QueueOk, NoneForgotten, PinsOk, Families, Shaped, PetitionsKept, WaitersOk;
    SavingAgainKeeps(s, w.rid, w.pc.pinned);
    AdvanceKeeps(s.(disk := SaveRec(s.disk, w.rid, w.pc.pinned)), wid, PollVerdict);
  }

  lemma FilingKeeps(s: State, rid: Rid, slip: Slip)
    requires Inv(s) && SlipAllowed(s.disk, rid, slip)
    ensures Inv(s.(disk := WithCreated(s.disk, rid, slip)))
    ensures forall r | Settled(s, r) :: Settled(s.(disk := WithCreated(s.disk, rid, slip)), r)
  {
    CreateGrows(s.disk, rid, slip);
    hide WithCreated, SpawnsOk, QueueOk, NoneForgotten, PinsOk, WaitersOk, Families;
    DiskStepIsCalm(s, WithCreated(s.disk, rid, slip));
    CalmKeeps(s, s.(disk := WithCreated(s.disk, rid, slip)));
  }

  lemma FileKeeps(s: State, wid: nat)
    requires Inv(s) && wid in s.waiters && s.waiters[wid].pc.File?
    ensures Inv(Filed(s, wid))
  {
    var w := s.waiters[wid];
    var slip := VerdictSlip(VerdictRecord(w.pc.filed, ""));
    assert WaiterOk(s, w);
    FilingKeeps(s, w.rid, slip);
    hide SpawnsOk, QueueOk, NoneForgotten, PinsOk, Families, Shaped, PetitionsKept, WaitersOk, WithCreated, Settled;
    AdvanceKeeps(s.(disk := WithCreated(s.disk, w.rid, slip)), wid, Report(w.pc.after));
  }

  lemma RecordingKeeps(s: State, rid: Rid, res: RunResult)
    requires Inv(s)
    ensures Inv(s.(disk := SaveResult(s.disk, rid, res.exit, res.output)))
  {
    var d' := SaveResult(s.disk, rid, res.exit, res.output);
    hide Truncated, SpawnsOk, QueueOk, NoneForgotten, PinsOk, WaitersOk, Families;
    DiskStepIsCalm(s, d');
    CalmKeeps(s, s.(disk := d'));
  }

  lemma ReportKeeps(s: State, wid: nat)
    requires Inv(s) && wid in s.waiters && s.waiters[wid].pc.Report? && s.waiters[wid].pc.todo != []
    ensures Inv(Reported(s, wid))
  {
    var w := s.waiters[wid];
    var (rid, res) := w.pc.todo[0];
    assert WaiterOk(s, w);
    hide SpawnsOk, QueueOk, NoneForgotten, PinsOk, Families, Shaped, PetitionsKept, WaitersOk, Truncated;
    RecordingKeeps(s, rid, res);
    AdvanceKeeps(s.(disk := SaveResult(s.disk, rid, res.exit, res.output)), wid, Report(w.pc.todo[1..]));
  }

  // ----- The confirmation record -----------------------------------------------------------------------

  lemma ConfirmKeepsWaiters(s: State, s': State, wid: nat, child: Rid, rec: PendingRecord)
    requires Inv(s) && wid in s.waiters && s.waiters[wid].pc.ConfirmSave?
    requires DiskGains(s.disk, s'.disk, child, rec) && Families(s'.disk)
    requires var w := s.waiters[wid];
      && rec.petition.confirmOf == Some(w.rid) && rec.petition.step == Confirm
      && rec.petition.argv == w.argv && rec.petition.uid == w.uid && rec.petition.cwd == w.cwd
      && wid in s'.waiters
      && var w' := s'.waiters[wid];
         && w'.rid == child && w'.root == w.root && w'.stage == Confirm && w'.pc.PollVerdict?
         && w'.argv == w.argv && w'.uid == w.uid && w'.cwd == w.cwd
         && s'.waiters == s.waiters[wid := w']
    requires s'.spawns == s.spawns && s'.lapsed == s.lapsed
    ensures WaitersOk(s')
  {
    hide SpawnsOk, QueueOk, NoneForgotten, PinsOk, PetitionsKept;
    var w := s.waiters[wid];
    assert WaiterOk(s, w);
    forall i | i in s'.waiters ensures WaiterOk(s', s'.waiters[i]) {
      if i != wid {
        assert WaiterOk(s, s.waiters[i]);
        assert s.waiters[i].rid != w.rid;
        GainKeepsOthers(s, s', child, rec, i);
      }
    }
  }

  lemma ConfirmKeepsAttended(s: State, s': State, wid: nat, child: Rid)
    requires NoneForgotten(s) && wid in s.waiters && wid in s'.waiters
    requires s'.disk.recs.Keys == s.disk.recs.Keys + {child}
    requires forall r | r in s.disk.recs && r != child :: s'.disk.recs[r] == s.disk.recs[r]
    requires s'.disk.verdicts == s.disk.verdicts && s'.disk.cancels == s.disk.cancels && s'.lapsed == s.lapsed
    requires s'.phase == s.phase && s'.waiters == s.waiters[wid := s'.waiters[wid]]
    requires s'.waiters[wid].rid == child
    requires Settled(s, s.waiters[wid].rid)
    ensures NoneForgotten(s')
  {
    forall r | r in s'.disk.recs && s'.disk.recs[r].petition.kind == Exec && !Settled(s', r)
      ensures Attended(s', r)
    {
      if r == child {
        assert Watches(s', wid, r);
      } else {
        assert !Settled(s, r) && Attended(s, r);
        if r !in Queue(s.phase) {
          var i :| Watches(s, i, r);
          assert Watches(s', i, r);
        }
      }
    }
  }

  lemma ConfirmKeepsPins(s: State, s': State, wid: nat)
    requires PinsOk(s) && wid in s.waiters && wid in s'.waiters
    requires s'.waiters == s.waiters[wid := s'.waiters[wid]] && s'.stopped == s.stopped && s'.crashed == s.crashed
    requires s'.waiters[wid].pin == s.waiters[wid].pin && s'.waiters[wid].origin == s.waiters[wid].origin
    requires !s'.waiters[wid].pc.Hold?
    ensures PinsOk(s')
  {
    if !s'.crashed {
      forall g | g in s'.stopped ensures exists i :: HeldBy(s', i, g) {
        var i :| HeldBy(s, i, g);
        assert HeldBy(s', i, g);
      }
    }
  }

  lemma ConfirmKeepsFamilies(s: State, wid: nat, child: Rid, rec: PendingRecord)
    requires Inv(s) && wid in s.waiters && s.waiters[wid].pc.ConfirmSave? && child !in s.disk.recs
    requires rec.petition.confirmOf == Some(s.waiters[wid].rid)
    requires var w := s.waiters[wid];
      rec.petition.argv == w.argv && rec.petition.uid == w.uid && rec.petition.cwd == w.cwd
    ensures Families(SaveRec(s.disk, child, rec))
    ensures Unspawned(s, s.waiters[wid].rid) && Settled(s, s.waiters[wid].rid)
  {
    var w := s.waiters[wid];
    assert WaiterOk(s, w);
    assert w.root == w.rid;
    GainKeepsFamilies(s.disk, SaveRec(s.disk, child, rec), child, rec);
  }

  lemma ConfirmKeeps(s: State, wid: nat, child: Rid, expires: int, git: int, fd: int, seal: int)
    requires Inv(s) && wid in s.waiters && s.waiters[wid].pc.ConfirmSave? && Unused(s.disk, child)
    ensures Inv(Confirming(s, wid, child, expires, git, fd, seal))
  {
    hide PetitionsKept, Shaped, Families, WaitersOk, SpawnsOk, QueueOk, NoneForgotten, PinsOk;
    var s' := Confirming(s, wid, child, expires, git, fd, seal);
    var w := s.waiters[wid];
    var rec := ChildRecord(w, w.pc.parent, expires, git, fd, seal);
    ConfirmKeepsFamilies(s, wid, child, rec);
    GainKeepsPetitions(s, s', child, rec);
    GainKeepsShape(s.disk, s'.disk, child, rec);
    ConfirmKeepsWaiters(s, s', wid, child, rec);
    GainKeepsSpawns(s, s', child, rec);
    GainKeepsQueue(s, s', child, rec);
    ConfirmKeepsAttended(s, s', wid, child);
    ConfirmKeepsPins(s, s', wid);
  }

  // ----- The spawn -------------------------------------------------------------------------------------

  lemma SpawnKeepsSpawns(s: State, s': State, wid: nat, e: Spawn)
    requires WaitersOk(s) && SpawnsOk(s) && wid in s.waiters && s.waiters[wid].pc.Gate?
    requires s'.disk == s.disk && s'.spawns == s.spawns + [e]
    requires var w := s.waiters[wid];
      var p := w.pc.stored.petition;
      e == Spawn(w.rid, w.root, p.argv, p.uid, p.cwd)
    ensures SpawnsOk(s')
  {
    assert WaiterOk(s, s.waiters[wid]);
    forall x | x in s'.spawns ensures SpawnOk(s', x) {
      if x in s.spawns {
        assert SpawnOk(s, x);
      }
    }
    forall i, j | 0 <= i < j < |s'.spawns| ensures s'.spawns[i].root != s'.spawns[j].root {
      if j == |s.spawns| {
        assert s.spawns[i] in s.spawns;
      }
    }
  }

  lemma SpawnKeepsWaiters(s: State, s': State, wid: nat, e: Spawn)
    requires WaitersOk(s) && wid in s.waiters && s.waiters[wid].pc.Gate?
    requires wid in s'.waiters && s'.waiters[wid].pc.Report?
    requires s'.waiters == s.waiters[wid := s.waiters[wid].(pc := s'.waiters[wid].pc)]
    requires s'.disk == s.disk && s'.lapsed == s.lapsed && s'.spawns == s.spawns + [e]
    requires e.root == s.waiters[wid].root
    ensures WaitersOk(s')
  {
    assert WaiterOk(s, s.waiters[wid]);
    forall i | i in s'.waiters ensures WaiterOk(s', s'.waiters[i]) {
      assert WaiterOk(s, s.waiters[i]);
    }
  }

  lemma SpawnKeeps(s: State, wid: nat, exit: int, output: string)
    requires Inv(s) && wid in s.waiters && s.waiters[wid].pc.Gate?
    ensures Inv(Spawned(s, wid, exit, output))
  {
    var s' := Spawned(s, wid, exit, output);
    var w := s.waiters[wid];
    var p := w.pc.stored.petition;
    var e := Spawn(w.rid, w.root, p.argv, p.uid, p.cwd);
    var mid := s.(waiters := s'.waiters);
    SpawnKeepsSpawns(s, s', wid, e);
    SpawnKeepsWaiters(s, s', wid, e);
    hide Families, WaitersOk, SpawnsOk, Finish;
    RepointKeepsAttended(s, mid, wid);
    RepointKeepsPins(s, mid, wid);
    hide NoneForgotten, PinsOk;
    SpawnFrame(mid, s');
  }

  /** The spawn history is none of the other parts' business. */
  lemma SpawnFrame(s: State, s': State)
    requires s' == s.(spawns := s'.spawns)
    requires NoneForgotten(s) && PinsOk(s)
    ensures NoneForgotten(s') && PinsOk(s')
  {
    forall r | r in s'.disk.recs && s'.disk.recs[r].petition.kind == Exec && !Settled(s', r)
      ensures Attended(s', r)
    {
      assert !Settled(s, r) && Attended(s, r);
      if r !in Queue(s.phase) {
        var i :| Watches(s, i, r);
        assert Watches(s', i, r);
      }
    }
    if !s'.crashed {
      forall g | g in s'.stopped ensures exists i :: HeldBy(s', i, g) {
        var i :| HeldBy(s, i, g);
        assert HeldBy(s', i, g);
      }
    }
  }

  // ----- The end of a waiter, the crash, the restart scan --------------------------------------------------

  lemma EndKeepsAttended(s: State, s': State, wid: nat)
    requires NoneForgotten(s) && wid in s.waiters && Settled(s, s.waiters[wid].rid)
    requires s' == s.(waiters := s.waiters - {wid}, stopped := s'.stopped)
    ensures NoneForgotten(s')
  {
    forall r | r in s'.disk.recs && s'.disk.recs[r].petition.kind == Exec && !Settled(s', r)
      ensures Attended(s', r)
    {
      assert !Settled(s, r) && Attended(s, r);
      if r !in Queue(s.phase) {
        var i :| Watches(s, i, r);
        assert Watches(s', i, r);
      }
    }
  }

  lemma EndKeepsPins(s: State, wid: nat, readable: bool)
    requires PinsOk(s) && wid in s.waiters
    ensures PinsOk(Ended(s, wid, readable))
  {
    var s' := Ended(s, wid, readable);
    if !s'.crashed {
      forall g | g in s'.stopped ensures exists i :: HeldBy(s', i, g) {
        var i :| HeldBy(s, i, g);
        assert HeldBy(s', i, g);
      }
    }
  }

  lemma EndKeepsOthers(s: State, s': State, wid: nat)
    requires WaitersOk(s) && SpawnsOk(s) && QueueOk(s) && wid in s.waiters
    requires s' == s.(waiters := s.waiters - {wid}, stopped := s'.stopped)
    ensures WaitersOk(s') && SpawnsOk(s') && QueueOk(s')
  {
    forall i | i in s'.waiters ensures WaiterOk(s', s'.waiters[i]) {
      assert WaiterOk(s, s.waiters[i]);
    }
    forall e | e in s'.spawns ensures SpawnOk(s', e) {
      assert SpawnOk(s, e);
    }
  }

  lemma EndKeeps(s: State, wid: nat, readable: bool)
    requires Inv(s) && wid in s.waiters && s.waiters[wid].pc.Report?
    ensures Inv(Ended(s, wid, readable))
  {
    var s' := Ended(s, wid, readable);
    assert WaiterOk(s, s.waiters[wid]);
    hide Families, SpawnsOk, NoneForgotten, PinsOk, WaitersOk, QueueOk;
    EndKeepsPins(s, wid, readable);
    EndKeepsOthers(s, s', wid);
    EndKeepsAttended(s, s', wid);
  }

  lemma CrashGrows(d: Disk)
    requires Shaped(d)
    ensures DiskGrows(d, AfterCrash(d)) && Shaped(AfterCrash(d))
  {
  }

  lemma CrashKeeps(s: State)
    requires Inv(s)
    ensures Inv(Crashed(s))
  {
    var mid := s.(disk := AfterCrash(s.disk));
    CrashGrows(s.disk);
    DiskStepIsCalm(s, mid.disk);
    CalmKeeps(s, mid);
    DropKeeps(mid, Crashed(s));
  }

  lemma DropKeeps(s: State, s': State)
    requires Inv(s)
    requires s' == s.(phase := Listing(s.disk.recs.Keys, {}, s.now), waiters := map[], edits := {}, crashed := true)
    ensures Inv(s')
  {
    hide Families, Shaped;
    forall e | e in s'.spawns ensures SpawnOk(s', e) {
      assert SpawnOk(s, e);
    }
  }

  /** A scan step that only shortens the queue, dropping ids that are decided or set aside. */
  ghost predicate Dropped(s: State, s': State) {
    && s' == s.(phase := s'.phase, lapsed := s'.lapsed)
    && s.lapsed <= s'.lapsed
    && Queue(s'.phase) <= Queue(s.phase)
    && s'.phase.at == s.phase.at
    && (forall r | r in s'.phase.items && r !in s.phase.items && r in s.disk.recs ::
          s.disk.recs[r].petition.expires > s.phase.at)
    && (forall r | r in Queue(s.phase) && r !in Queue(s'.phase) && r in s.disk.recs
          && s.disk.recs[r].petition.kind == Exec :: Settled(s', r))
  }

  lemma DropFromQueueKeeps(s: State, s': State)
    requires Inv(s) && Dropped(s, s')
    ensures Inv(s')
  {
    forall i | i in s'.waiters ensures WaiterOk(s', s'.waiters[i]) {
      assert WaiterOk(s, s.waiters[i]);
    }
    forall e | e in s'.spawns ensures SpawnOk(s', e) {
      assert SpawnOk(s, e);
    }
    DropKeepsAttended(s, s');
    DropKeepsPins(s, s');
  }

  lemma DropKeepsAttended(s: State, s': State)
    requires NoneForgotten(s) && Dropped(s, s')
    ensures NoneForgotten(s')
  {
    forall r | r in s'.disk.recs && s'.disk.recs[r].petition.kind == Exec && !Settled(s', r)
      ensures Attended(s', r)
    {
      assert !Settled(s, r) && Attended(s, r);
      if r !in Queue(s'.phase) {
        var i :| Watches(s, i, r);
        assert Watches(s', i, r);
      }
    }
  }

  lemma DropKeepsPins(s: State, s': State)
    requires PinsOk(s) && Dropped(s, s')
    ensures PinsOk(s')
  {
    if !s'.crashed {
      forall g | g in s'.stopped ensures exists i :: HeldBy(s', i, g) {
        var i :| HeldBy(s, i, g);
        assert HeldBy(s', i, g);
      }
    }
  }

  /** What the listing takes had not expired at the one clock reading both passes use, so the branch of
      the adoption pass for expired records is never taken. */
  lemma ExpiryBranchIsDead(s: State, rid: Rid)
    requires Inv(s)
    ensures !LookEnabled(s, AdoptExpired(rid))
  {
    hide WaitersOk, SpawnsOk, Families, NoneForgotten, PinsOk, PetitionsKept, Shaped;
  }

  /** The scan starts a waiter for an undecided, unexpired id it had listed. */
  ghost predicate Adopts(s: State, s': State, rid: Rid, wid: nat) {
    && s.phase.Adopting? && rid in s.phase.items && rid in s.disk.recs && wid !in s.waiters
    && Verdict(s.disk, rid).None?
    && s' == s.(phase := s.phase.(items := s.phase.items - {rid}),
                waiters := s.waiters[wid := AdoptedWaiter(rid, s.disk.recs[rid].petition)])
  }

  /** In the family of an undecided record everyone else is decided. */
  lemma FamilyUndecided(d: Disk, rid: Rid, r: Rid)
    requires Shaped(d) && Families(d) && rid in d.recs && r in d.recs && Verdict(d, rid).None?
    requires r != rid && Root(d, r) == Root(d, rid)
    ensures d.recs[rid].petition.step == Confirm && ChildOf(d, rid, r) && Verdict(d, r).Some?
  {
    if d.recs[rid].petition.confirmOf.None? {
      assert ChildOf(d, r, rid);
    } else {
      var p := d.recs[rid].petition.confirmOf.value;
      assert ChildOf(d, rid, p);
      if d.recs[r].petition.confirmOf.Some? {
        assert ChildOf(d, r, p);
      }
    }
  }

  lemma UndecidedChildless(d: Disk, rid: Rid)
    requires Families(d) && rid in d.recs && Verdict(d, rid).None?
    ensures Childless(d, rid)
  {
    forall c ensures !ChildOf(d, c, rid) {
    }
  }

  lemma UndecidedUnspawned(s: State, rid: Rid)
    requires Shaped(s.disk) && Families(s.disk) && SpawnsOk(s)
    requires rid in s.disk.recs && Verdict(s.disk, rid).None?
    ensures Unspawned(s, Root(s.disk, rid))
  {
    forall e | e in s.spawns ensures e.root != Root(s.disk, rid) {
      assert SpawnOk(s, e);
      if e.root == Root(s.disk, rid) && e.rid != rid {
        FamilyUndecided(s.disk, rid, e.rid);
        assert false;
      }
    }
  }

  lemma AdoptKeepsWaiters(s: State, s': State, rid: Rid, wid: nat)
    requires Inv(s) && Adopts(s, s', rid, wid)
    ensures WaitersOk(s')
  {
    hide Families, SpawnsOk, NoneForgotten, PinsOk, PetitionsKept, WaiterOk;
    AdoptedIsOk(s, s', rid, wid);
    forall i | i in s'.waiters && i != wid ensures WaiterOk(s', s'.waiters[i]) {
      SameWaiter(s, s', s.waiters[i]);
    }
    assert s'.waiters[wid].root == Root(s.disk, rid);
  }

  lemma SameWaiter(s: State, s': State, w: Waiter)
    requires WaiterOk(s, w) && s'.disk == s.disk && s'.lapsed == s.lapsed && s'.spawns == s.spawns
    ensures WaiterOk(s', w)
  {
  }

  lemma AdoptedIsOk(s: State, s': State, rid: Rid, wid: nat)
    requires Inv(s) && Adopts(s, s', rid, wid)
    ensures WaiterOk(s', s'.waiters[wid])
  {
    UndecidedUnspawned(s, rid);
    UndecidedChildless(s.disk, rid);
    hide Families, SpawnsOk, NoneForgotten, PinsOk, PetitionsKept, WaitersOk, QueueOk;
  }

  lemma AdoptKeepsQueue(s: State, s': State, rid: Rid, wid: nat)
    requires Inv(s) && Adopts(s, s', rid, wid)
    ensures QueueOk(s')
  {
    hide WaitersOk, SpawnsOk, NoneForgotten, PinsOk, PetitionsKept;
    forall r, i | r in Queue(s'.phase) && i in s'.waiters && s'.waiters[i].root == Root(s'.disk, r)
      ensures Verdict(s'.disk, r).Some?
    {
      if i == wid {
        FamilyUndecided(s.disk, rid, r);
      }
    }
  }

  lemma AdoptKeepsAttended(s: State, s': State, rid: Rid, wid: nat)
    requires NoneForgotten(s) && Adopts(s, s', rid, wid)
    ensures NoneForgotten(s')
  {
    assert Watches(s', wid, rid);
    forall r | r in s'.disk.recs && s'.disk.recs[r].petition.kind == Exec && !Settled(s', r)
      ensures Attended(s', r)
    {
      assert !Settled(s, r) && Attended(s, r);
      if r !in Queue(s'.phase) && r != rid {
        var i :| Watches(s, i, r);
        assert Watches(s', i, r);
      }
    }
  }

  lemma AdoptKeeps(s: State, rid: Rid, wid: nat)
    requires Inv(s) && LookEnabled(s, AdoptWait(rid, wid))
    ensures Inv(Looked(s, AdoptWait(rid, wid)))
  {
    var s' := Looked(s, AdoptWait(rid, wid));
    assert Adopts(s, s', rid, wid);
    GainKeepsPins(s, s');
    hide Families, WaitersOk, QueueOk, NoneForgotten, PinsOk, PetitionsKept, Shaped, Adopts;
    AdoptKeepsWaiters(s, s', rid, wid);
    AdoptKeepsQueue(s, s', rid, wid);
    AdoptKeepsAttended(s, s', rid, wid);
    forall e | e in s'.spawns ensures SpawnOk(s', e) {
      assert SpawnOk(s, e);
    }
  }

  lemma LookDrops(s: State, look: Look)
    requires Shaped(s.disk) && LookEnabled(s, look) && !look.AdoptExpired? && !look.AdoptWait?
    ensures Dropped(s, Looked(s, look))
  {
    match look {
      case ListTake(rid) =>
      case ListSkip(rid) =>
      case ListUnreadable(rid) =>
      case ListDone =>
      case AdoptUnreadable(rid) =>
      case AdoptDecided(rid) =>
    }
  }

  lemma LookKeeps(s: State, look: Look)
    requires Inv(s) && LookEnabled(s, look)
    ensures Inv(Looked(s, look))
  {
    if look.AdoptExpired? {
      ExpiryBranchIsDead(s, look.rid);
      assert false;
    } else if look.AdoptWait? {
      AdoptKeeps(s, look.rid, look.wid);
    } else {
      hide Families, SpawnsOk, QueueOk, NoneForgotten, PinsOk, PetitionsKept, WaitersOk, Shaped, Looked;
      LookDrops(s, look);
      DropFromQueueKeeps(s, Looked(s, look));
    }
  }

  lemma MoveKeeps(s: State, wid: nat, m: Move)
    requires Inv(s) && wid in s.waiters && MoveEnabled(s, s.waiters[wid], m)
    ensures Inv(Moved(s, wid, m))
  {
    match m {
      case Freeze(g) => FreezeKeeps(s, wid, g);
      case PinSaves => PinKeeps(s, wid);
      case ConfirmSaves(child, expires, git, fd, seal) => ConfirmKeeps(s, wid, child, expires, git, fd, seal);
      case Spawns(exit, output) => SpawnKeeps(s, wid, exit, output);
      case Files => FileKeeps(s, wid);
      case Reports => ReportKeeps(s, wid);
      case Ends(readable) => EndKeeps(s, wid, readable);
      case _ => LocalKeeps(s, wid, m);
    }
  }

  /** The invariant is inductive. */
  lemma StepKeeps(s: State, st: Step)
    requires Inv(s) && Enabled(s, st)
    ensures Inv(Apply(s, st))
  {
    match st {
      case NewRun(rid, wid, p, detached) => NewRunKeeps(s, rid, wid, p, detached);
      case NewOther(rid, p) => NewOtherKeeps(s, rid, p);
      case Do(deed) => DeedKeeps(s, deed);
      case Crash => CrashKeeps(s);
      case Scan(look) => LookKeeps(s, look);
      case Act(wid, m) => MoveKeeps(s, wid, m);
    }
  }
}
