/** Concrete runs: that the guarantees speak of something, and what they cannot be strengthened to. */
module Witness {
  import opened Records
  import opened Protocol
  import opened Queries
  import opened Cancelling
  import opened TornCalls
  import TornReads

  const START := Boot(0, Config(false, {}, false))

  const LS := Petition(["ls"], 1000, "/", 100, Initial, None, Exec, "", [], false, 0, 0, 0)

  const OP := VerdictRecord(Approve, "op")
  const MARK := CancelRecord("op", "")

  const NONE: map<Rid, Once<VerdictRecord>> := map[]
  const OPENED := map["r" := Creating(OP)]
  const HELD := map["r" := Holds(OP)]
  const KEPT: map<Rid, Once<CancelRecord>> := map[]
  const CANCELLED := map["r" := Holds(MARK)]
  const BLANK: map<Rid, RunResult> := map[]

  function Files(verdicts: map<Rid, Once<VerdictRecord>>, cancels: map<Rid, Once<CancelRecord>>, results: map<Rid,
      RunResult>): Disk {
    Disk(map["r" := NewRecord(LS)], verdicts, cancels, map[], map[], results)
  }

  /** One foreground waiter on one petition, standing at `pc`. */
  function At(d: Disk, pc: Pc, spawns: seq<Spawn>, pin: Option<nat>): State {
    State(
      d, map["r" := NewRecord(LS)], Adopting({}, 0),
      map[0 := RunWaiter("r", LS, false).(pc := pc, pin := pin)],
      {}, spawns, if pin.Some? then {pin.value} else {}, 0, Config(false, {}, false), {}, false)
  }

  /** One step onwards from a known state to a known state. */
  lemma On(s: State, st: Step, t: State, rest: seq<Step>)
    requires Enabled(s, st) && Apply(s, st) == t && CanRun(t, rest)
    ensures CanRun(s, [st] + rest) && RunTo(s, [st] + rest) == RunTo(t, rest)
  {
    hide Enabled, Apply;
    assert ([st] + rest)[1..] == rest;
  }

  lemma Stop(s: State)
    ensures CanRun(s, []) && RunTo(s, []) == s
  {
  }

  /** What the git gate writes. */
  const DRIFT := "git-drift:" + " moved"
  const BLOCK := Act(0, Blocks(DRIFT))

  lemma DriftIsMarked()
    ensures Drifted(DRIFT) && |DRIFT| == 16 && DriftOf(DRIFT) == "git-drift"
  {
    assert DRIFT[..10] == "git-drift:";
  }

  const NEW := NewRun("r", 0, LS, false)
  const CREATE := Do(CreateSlip("r", VerdictSlip(OP)))
  const FILL := Do(FillSlip("r", VerdictFile))
  const CANCEL := Do(CreateSlip("r", CancelSlip(MARK)))
  const CANCEL_FILL := Do(FillSlip("r", CancelFile))

  function Ran(output: string): seq<Spawn> {
    [Spawn("r", "r", ["ls"], 1000, "/")]
  }

  function Left(output: string): Pc {
    Report([("r", RunResult(0, output))])
  }

  lemma Starts()
    ensures Enabled(START, NEW) && Apply(START, NEW) == At(Files(NONE, KEPT, BLANK), Hold, [], None)
  {
  }

  lemma Waits()
    ensures var s := At(Files(NONE, KEPT, BLANK), Hold, [], None);
      Enabled(s, Act(0, NoHold)) && Apply(s, Act(0, NoHold)) == At(Files(NONE, KEPT, BLANK), PollVerdict, [], None)
  {
  }

  lemma Opens(pc: Pc)
    ensures var s := At(Files(NONE, KEPT, BLANK), pc, [], None);
      Enabled(s, CREATE) && Apply(s, CREATE) == At(Files(OPENED, KEPT, BLANK), pc, [], None)
  {
  }

  lemma Fills(cancels: map<Rid, Once<CancelRecord>>, results: map<Rid, RunResult>)
    ensures var s := At(Files(OPENED, cancels, results), PollVerdict, [], None);
      Enabled(s, FILL) && Apply(s, FILL) == At(Files(HELD, cancels, results), PollVerdict, [], None)
  {
  }

  lemma Polls(cancels: map<Rid, Once<CancelRecord>>, results: map<Rid, RunResult>)
    ensures var d := Files(HELD, cancels, results);
      Enabled(At(d, PollVerdict, [], None), Act(0, Poll))
      && Apply(At(d, PollVerdict, [], None), Act(0, Poll)) == At(d, Decided(Approve), [], None)
  {
    assert Verdict(Files(HELD, cancels, results), "r") == Some(OP);
  }

  lemma Branches(d: Disk)
    ensures var s := At(d, Decided(Approve), [], None);
      Enabled(s, Act(0, Branch)) && Apply(s, Act(0, Branch)) == At(d, RunLoad, [], None)
  {
  }

  lemma Loads(verdicts: map<Rid, Once<VerdictRecord>>, cancels: map<Rid, Once<CancelRecord>>, results: map<Rid,
      RunResult>)
    ensures var d := Files(verdicts, cancels, results);
      Enabled(At(d, RunLoad, [], None), Act(0, RunLoads))
      && Apply(At(d, RunLoad, [], None), Act(0, RunLoads)) == At(d, Gate(NewRecord(LS)), [], None)
  {
  }

  lemma SpawnsNow(d: Disk, output: string)
    ensures var s := At(d, Gate(NewRecord(LS)), [], None); var st := Act(0, Spawns(0, output));
      Enabled(s, st) && Apply(s, st) == At(d, Left(output), Ran(output), None)
  {
    assert [("r", RunResult(0, output))] + [] == [("r", RunResult(0, output))] && [] + Ran(output) == Ran(output);
  }

  function ToGate(more: seq<Step>): seq<Step> {
    [FILL] + ([Act(0, Poll)] + ([Act(0, Branch)] + ([Act(0, RunLoads)] + more)))
  }

  function Tail(output: string): seq<Step> {
    ToGate([Act(0, Spawns(0, output))] + [])
  }

  /** Once the approval is being written, the waiter at the start of its loop can go through to the gate,
      whatever else is on the disk. */
  lemma Approaches(cancels: map<Rid, Once<CancelRecord>>, results: map<Rid, RunResult>, more: seq<Step>)
    requires CanRun(At(Files(HELD, cancels, results), Gate(NewRecord(LS)), [], None), more)
    ensures var s := At(Files(OPENED, cancels, results), PollVerdict, [], None);
      && CanRun(s, ToGate(more))
      && RunTo(s, ToGate(more)) == RunTo(At(Files(HELD, cancels, results), Gate(NewRecord(LS)), [], None), more)
  {
    var d := Files(HELD, cancels, results);
    hide Apply, Enabled, CanRun, RunTo, At, Files;
    Loads(HELD, cancels, results);
    On(At(d, RunLoad, [], None), Act(0, RunLoads), At(d, Gate(NewRecord(LS)), [], None), more);
    var t2 := [Act(0, RunLoads)] + more;
    Branches(d);
    On(At(d, Decided(Approve), [], None), Act(0, Branch), At(d, RunLoad, [], None), t2);
    var t3 := [Act(0, Branch)] + t2;
    Polls(cancels, results);
    On(At(d, PollVerdict, [], None), Act(0, Poll), At(d, Decided(Approve), [], None), t3);
    Fills(cancels, results);
    On(At(Files(OPENED, cancels, results), PollVerdict, [], None), FILL, At(d, PollVerdict, [], None),
      [Act(0, Poll)] + t3);
  }

  /** And on to a process. */
  lemma GoesThrough(cancels: map<Rid, Once<CancelRecord>>, results: map<Rid, RunResult>, output: string,
      more: seq<Step>)
    requires CanRun(At(Files(HELD, cancels, results), Left(output), Ran(output), None), more)
    ensures var s := At(Files(OPENED, cancels, results), PollVerdict, [], None);
      && CanRun(s, Tail(output) + more)
      && RunTo(s, Tail(output) + more) == RunTo(At(Files(HELD, cancels, results), Left(output), Ran(output), None),
         more)
  {
    var d := Files(HELD, cancels, results);
    hide Apply, Enabled, CanRun, RunTo, At, Files;
    SpawnsNow(d, output);
    On(At(d, Gate(NewRecord(LS)), [], None), Act(0, Spawns(0, output)), At(d, Left(output), Ran(output), None), more);
    Approaches(cancels, results, [Act(0, Spawns(0, output))] + more);
    assert Tail(output) + more == ToGate([Act(0, Spawns(0, output))] + more);
  }

  const HEAD: seq<Step> := [NEW] + ([Act(0, NoHold)] + ([CREATE] + []))

  lemma Reached(more: seq<Step>)
    requires CanRun(At(Files(OPENED, KEPT, BLANK), PollVerdict, [], None), more)
    ensures CanRun(START, HEAD + more)
    ensures RunTo(START, HEAD + more) == RunTo(At(Files(OPENED, KEPT, BLANK), PollVerdict, [], None), more)
  {
    hide Apply, Enabled, CanRun, RunTo, At, Files;
    Opens(PollVerdict);
    On(At(Files(NONE, KEPT, BLANK), PollVerdict, [], None), CREATE,
      At(Files(OPENED, KEPT, BLANK), PollVerdict, [], None), more);
    Waits();
    On(At(Files(NONE, KEPT, BLANK), Hold, [], None), Act(0, NoHold),
      At(Files(NONE, KEPT, BLANK), PollVerdict, [], None), [CREATE] + more);
    Starts();
    On(START, NEW, At(Files(NONE, KEPT, BLANK), Hold, [], None), [Act(0, NoHold)] + ([CREATE] + more));
    assert HEAD + more == [NEW] + ([Act(0, NoHold)] + ([CREATE] + more));
  }

  /** An approved command does run. */
  lemma ApprovedCommandSpawns()
    ensures var steps := HEAD + (Tail("") + []); CanRun(START, steps) && RunTo(START, steps).spawns == Ran("")
  {
    Stop(At(Files(HELD, KEPT, BLANK), Left(""), Ran(""), None));
    GoesThrough(KEPT, BLANK, "", []);
    Reached(Tail("") + []);
  }

  // ----- Cancelling too late -------------------------------------------------------------------------

  lemma CancelsLate()
    ensures var s := At(Files(HELD, KEPT, BLANK), Left(""), Ran(""), None);
      && Enabled(s, CANCEL) && Enabled(Apply(s, CANCEL), CANCEL_FILL)
      && Apply(Apply(s, CANCEL), CANCEL_FILL) == At(Files(HELD, CANCELLED, BLANK), Left(""), Ran(""), None)
  {
  }

  /** A cancellation whose read of the verdict and write of its file lie apart can come too late: the
      command has run, and the petition reads as cancelled. */
  lemma SplitCancelCanLose()
    ensures var steps := HEAD + (Tail("") + ([CANCEL] + ([CANCEL_FILL] + [])));
      && CanRun(START, steps)
      && var s := RunTo(START, steps);
         s.spawns == Ran("") && CancelInfo(s.disk, "r").Some? && Status(s.disk, ["r"], "r", 0).status == "cancelled"
  {
    var s := At(Files(HELD, KEPT, BLANK), Left(""), Ran(""), None);
    var t := At(Files(HELD, CANCELLED, BLANK), Left(""), Ran(""), None);
    CancelsLate();
    Stop(t);
    On(Apply(s, CANCEL), CANCEL_FILL, t, []);
    On(s, CANCEL, Apply(s, CANCEL), [CANCEL_FILL] + []);
    GoesThrough(KEPT, BLANK, "", [CANCEL] + ([CANCEL_FILL] + []));
    Reached(Tail("") + ([CANCEL] + ([CANCEL_FILL] + [])));
    hide Apply, Enabled, CanRun, RunTo;
  }

  const CALL := CancelRequest("r", 0, 0, "op", "")
  const SAID := map["r" := RunResult(-1, "cancelled")]

  lemma CallAnswersYes()
    ensures var s := At(Files(OPENED, KEPT, BLANK), PollVerdict, [], None);
      && CancelOutcome(s.disk, ["r"], CALL, s.now).response.cancelled
      && CalledTorn(s, CALL, ["r"], Faults({}, {})) == At(Files(OPENED, CANCELLED, SAID), PollVerdict, [], None)
  {
    var s := At(Files(OPENED, KEPT, BLANK), PollVerdict, [], None);
    var o := CancelOutcome(s.disk, ["r"], CALL, s.now);
    assert !KnownCancelled(s.disk, ["r"], "r") by {
      FoundIsChild(s.disk, ["r"], "r");
    }
    assert o == CancelInitial(s.disk, ["r"], CALL, 0);
    assert o.disk == Files(OPENED, CANCELLED, SAID) && o.resumed == {};
    assert Damaged(OPENED, OPENED, {}) == OPENED && Damaged(KEPT, CANCELLED, {}) == CANCELLED;
  }

  /** Even as one step the call can come too late: while an approval is being written it finds no verdict,
      answers yes, and the command runs. */
  lemma ApprovalUnderWayWins()
    ensures var s := RunTo(At(Files(OPENED, KEPT, BLANK), PollVerdict, [], None), []);
      && CanRun(START, HEAD + []) && RunTo(START, HEAD + []) == s
      && CancelOutcome(s.disk, ["r"], CALL, s.now).response.cancelled
      && var s' := CalledTorn(s, CALL, ["r"], Faults({}, {}));
         CanRun(s', Tail("") + []) && RunTo(s', Tail("") + []).spawns == Ran("")
  {
    Stop(At(Files(OPENED, KEPT, BLANK), PollVerdict, [], None));
    Reached([]);
    CallAnswersYes();
    Stop(At(Files(HELD, CANCELLED, SAID), Left(""), Ran(""), None));
    GoesThrough(CANCELLED, SAID, "", []);
    hide Apply, Enabled, CanRun, CancelOutcome, CalledTorn;
  }

  // ----- A printed word ------------------------------------------------------------------------------

  lemma Recorded(output: string)
    requires |output| <= 8192
    ensures var s := At(Files(HELD, KEPT, BLANK), Left(output), Ran(output), None);
      && Enabled(s, Act(0, Reports))
      && Apply(s, Act(0, Reports)) == At(Files(HELD, KEPT, map["r" := RunResult(0, output)]), Report([]), Ran(output),
         None)
  {
    assert [("r", RunResult(0, output))][1..] == [];
  }

  /** A command that printed just the word reads as cancelled, with no cancel file anywhere. */
  lemma PrintedWordReadsCancelled()
    ensures var steps := HEAD + (Tail("cancelled") + ([Act(0, Reports)] + []));
      && CanRun(START, steps)
      && var s := RunTo(START, steps);
         s.spawns == Ran("cancelled") && s.disk.cancels == map[] && "r" in s.disk.results
           && s.disk.results["r"].exit == 0
         && Status(s.disk, ["r"], "r", 0).status == "cancelled"
  {
    var s := At(Files(HELD, KEPT, BLANK), Left("cancelled"), Ran("cancelled"), None);
    var t := At(Files(HELD, KEPT, map["r" := RunResult(0, "cancelled")]), Report([]), Ran("cancelled"), None);
    Recorded("cancelled");
    Stop(t);
    On(s, Act(0, Reports), t, []);
    GoesThrough(KEPT, BLANK, "cancelled", [Act(0, Reports)] + []);
    Reached(Tail("cancelled") + ([Act(0, Reports)] + []));
    hide Apply, Enabled, CanRun, RunTo;
  }

  // ----- A drift gate's text -------------------------------------------------------------------------

  const STOPPED := map["r" := RunResult(-1, DRIFT)]

  lemma BlocksAlone()
    ensures var s := At(Files(HELD, KEPT, BLANK), Gate(NewRecord(LS)), [], None);
      Enabled(s, BLOCK) && Apply(s, BLOCK) == At(Files(HELD, KEPT, BLANK), Report([("r", RunResult(-1, DRIFT))]), [],
        None)
    ensures var s := At(Files(HELD, KEPT, BLANK), Report([("r", RunResult(-1, DRIFT))]), [], None);
      Enabled(s, Act(0, Reports)) && Apply(s, Act(0, Reports)) == At(Files(HELD, KEPT, STOPPED), Report([]), [], None)
  {
    DriftIsMarked();
    assert [("r", RunResult(-1, DRIFT))] + [] == [("r", RunResult(-1, DRIFT))];
    assert [("r", RunResult(-1, DRIFT))][1..] == [];
  }

  /** An approved run that a drift gate blocks: the store reads it as completed, and the daemon answers that
      it was denied. */
  lemma BlockedRunReadsDenied()
    ensures var steps := HEAD + ToGate([BLOCK] + ([Act(0, Reports)] + []));
      && CanRun(START, steps)
      && var d := RunTo(START, steps).disk;
         && d.results == STOPPED && StoreStatus(d, ["r"], "r", 0).status == "completed"
         && Status(d, ["r"], "r", 0).status == "denied" && Status(d, ["r"], "r", 0).decision == "git-drift"
  {
    var t := At(Files(HELD, KEPT, STOPPED), Report([]), [], None);
    DriftIsMarked();
    BlockedIsDenied(t.disk, ["r"], "r", 0);
    BlockedInStore();
    BlocksAlone();
    Stop(t);
    hide Apply, Enabled, CanRun, RunTo, At, Files, Status, StoreStatus;
    var d := Files(HELD, KEPT, BLANK);
    On(At(d, Report([("r", RunResult(-1, DRIFT))]), [], None), Act(0, Reports), t, []);
    On(At(d, Gate(NewRecord(LS)), [], None), BLOCK, At(d, Report([("r", RunResult(-1, DRIFT))]), [], None),
       [Act(0, Reports)] + []);
    Approaches(KEPT, BLANK, [BLOCK] + ([Act(0, Reports)] + []));
    Reached(ToGate([BLOCK] + ([Act(0, Reports)] + [])));
  }

  lemma BlockedInStore()
    ensures StoreStatus(Files(HELD, KEPT, STOPPED), ["r"], "r", 0).status == "completed"
  {
    DriftIsMarked();
    assert Verdict(Files(HELD, KEPT, STOPPED), "r") == Some(OP);
    FoundIsChild(Files(HELD, KEPT, STOPPED), ["r"], "r");
  }

  const CALL_DRIFT := CancelRequest("r", 0, 0, "op", DRIFT)

  /** A cancellation whose reason starts like a drift gate's text: the call answers yes, the store reads the
      petition as cancelled, and the daemon answers that it was denied. */
  lemma DriftReasonReadsDenied()
    ensures var ops := [Small(NEW)];
      && CanDo(START, ops)
      && var s := DoAll(START, ops);
         && CancelOutcome(s.disk, ["r"], CALL_DRIFT, s.now).response.cancelled
         && var d := Called(s, CALL_DRIFT, ["r"]).disk;
            StoreStatus(d, ["r"], "r", 0).status == "cancelled" && Status(d, ["r"], "r", 0).status == "denied"
  {
    var s := At(Files(NONE, KEPT, BLANK), Hold, [], None);
    assert OpEnabled(START, Small(NEW)) && OpApply(START, Small(NEW)) == s by {
      Starts();
      hide Apply, Enabled;
    }
    assert CanDo(s, []) && DoAll(s, []) == s;
    assert [Small(NEW)][1..] == [];
    DriftIsMarked();
    FoundIsChild(s.disk, ["r"], "r");
    assert CancelOutcome(s.disk, ["r"], CALL_DRIFT, 0) == CancelInitial(s.disk, ["r"], CALL_DRIFT, 0);
    CancelFileReads(Called(s, CALL_DRIFT, ["r"]).disk, ["r"], "r", 0);
  }

  // ----- A torn cancellation undone ------------------------------------------------------------------

  const LEFT := VerdictRecord(ClientAborted, "")
  const PENDING := [("r", RunResult(-1, "client_aborted"))]
  const CUT: map<Rid, Once<CancelRecord>> := map["r" := Torn]

  /** The caller has left. */
  function Gone(d: Disk, pc: Pc): State {
    At(d, pc, [], None).(lapsed := {"r"})
  }

  lemma PollsOn()
    ensures var d := Files(NONE, KEPT, BLANK);
      && Enabled(At(d, PollVerdict, [], None), Act(0, Poll))
      && Apply(At(d, PollVerdict, [], None), Act(0, Poll)) == At(d, PollCancel, [], None)
      && Enabled(At(d, PollCancel, [], None), Act(0, Poll))
      && Apply(At(d, PollCancel, [], None), Act(0, Poll)) == At(d, PollClock, [], None)
      && Enabled(At(d, PollClock, [], None), Act(0, Poll))
      && Apply(At(d, PollClock, [], None), Act(0, Poll)) == At(d, PollClient, [], None)
  {
  }

  lemma Aborts()
    ensures var d := Files(NONE, KEPT, BLANK);
      && Enabled(At(d, PollClient, [], None), Act(0, Abort))
      && Apply(At(d, PollClient, [], None), Act(0, Abort)) == Gone(d, Decided(ClientAborted))
      && Enabled(Gone(d, Decided(ClientAborted)), Act(0, Branch))
      && Apply(Gone(d, Decided(ClientAborted)), Act(0, Branch)) == Gone(d, File(ClientAborted, PENDING))
  {
  }

  lemma FilesAbort()
    ensures var d := Files(NONE, KEPT, BLANK); var d' := Files(map["r" := Creating(LEFT)], KEPT, BLANK);
      && Enabled(Gone(d, File(ClientAborted, PENDING)), Act(0, Protocol.Files))
      && Apply(Gone(d, File(ClientAborted, PENDING)), Act(0, Protocol.Files)) == Gone(d', Report(PENDING))
      && Enabled(Gone(d', Report(PENDING)), FILL)
      && Apply(Gone(d', Report(PENDING)), FILL) == Gone(Files(map["r" := Holds(LEFT)], KEPT, BLANK), Report(PENDING))
  {
  }

  const ABORTING: seq<Step> := [NEW] + ([Act(0, NoHold)] + ([Act(0, Poll)] + ([Act(0, Poll)] + ([Act(0, Poll)]
    + ([Act(0, Abort)] + ([Act(0, Branch)] + ([Act(0, Protocol.Files)] + ([FILL] + []))))))))

  lemma Aborted()
    ensures CanRun(START, ABORTING)
    ensures RunTo(START, ABORTING) == Gone(Files(map["r" := Holds(LEFT)], KEPT, BLANK), Report(PENDING))
  {
    var d, d' := Files(NONE, KEPT, BLANK), Files(map["r" := Creating(LEFT)], KEPT, BLANK);
    var end := Gone(Files(map["r" := Holds(LEFT)], KEPT, BLANK), Report(PENDING));
    Stop(end);
    hide Apply, Enabled, CanRun, RunTo, At, Files, Gone;
    FilesAbort();
    On(Gone(d', Report(PENDING)), FILL, end, []);
    var r1 := [FILL] + [];
    On(Gone(d, File(ClientAborted, PENDING)), Act(0, Protocol.Files), Gone(d', Report(PENDING)), r1);
    var r2 := [Act(0, Protocol.Files)] + r1;
    Aborts();
    On(Gone(d, Decided(ClientAborted)), Act(0, Branch), Gone(d, File(ClientAborted, PENDING)), r2);
    var r3 := [Act(0, Branch)] + r2;
    On(At(d, PollClient, [], None), Act(0, Abort), Gone(d, Decided(ClientAborted)), r3);
    var r4 := [Act(0, Abort)] + r3;
    PollsOn();
    On(At(d, PollClock, [], None), Act(0, Poll), At(d, PollClient, [], None), r4);
    var r5 := [Act(0, Poll)] + r4;
    On(At(d, PollCancel, [], None), Act(0, Poll), At(d, PollClock, [], None), r5);
    On(At(d, PollVerdict, [], None), Act(0, Poll), At(d, PollCancel, [], None), [Act(0, Poll)] + r5);
    var r6 := [Act(0, Poll)] + ([Act(0, Poll)] + r5);
    Waits();
    On(At(d, Hold, [], None), Act(0, NoHold), At(d, PollVerdict, [], None), r6);
    Starts();
    On(START, NEW, At(d, Hold, [], None), [Act(0, NoHold)] + r6);
  }

  lemma CutCall()
    ensures var s := Gone(Files(map["r" := Holds(LEFT)], KEPT, BLANK), Report(PENDING));
      && CancelOutcome(s.disk, ["r"], CALL, s.now).response.cancelled
      && CalledTorn(s, CALL, ["r"], Faults({}, {"r"}))
         == Gone(Files(map["r" := Holds(LEFT)], CUT, SAID), Report(PENDING))
  {
    var s := Gone(Files(map["r" := Holds(LEFT)], KEPT, BLANK), Report(PENDING));
    var o := CancelOutcome(s.disk, ["r"], CALL, s.now);
    assert Verdict(s.disk, "r") == Some(LEFT);
    assert !KnownCancelled(s.disk, ["r"], "r") by {
      FoundIsChild(s.disk, ["r"], "r");
    }
    assert o == CancelInitial(s.disk, ["r"], CALL, 0);
    assert o.disk == Files(map["r" := Holds(LEFT)], CANCELLED, SAID) && o.resumed == {};
    assert Damaged(s.disk.verdicts, s.disk.verdicts, {}) == s.disk.verdicts && Damaged(KEPT, CANCELLED, {"r"}) == CUT;
  }

  lemma ReportsAbort()
    ensures var s := Gone(Files(map["r" := Holds(LEFT)], CUT, SAID), Report(PENDING));
      && Enabled(s, Act(0, Reports))
      && Apply(s, Act(0, Reports))
         == Gone(Files(map["r" := Holds(LEFT)], CUT, map["r" := RunResult(-1, "client_aborted")]), Report([]))
  {
    assert PENDING[1..] == [];
  }

  /** A call whose cancel file is torn and that found the caller's disconnect on file: it answers yes, the
      petition reads as cancelled by its result text, until the waiter records its own. */
  lemma TornCancelIsUndone()
    ensures CanRun(START, ABORTING)
    ensures var s := RunTo(START, ABORTING);
      && CancelOutcome(s.disk, ["r"], CALL, s.now).response.cancelled
      && var s' := CalledTorn(s, CALL, ["r"], Faults({}, {"r"}));
         && Status(s'.disk, ["r"], "r", 0).status == "cancelled"
         && Enabled(s', Act(0, Reports)) && TornReads.Overwrites(s', Act(0, Reports), "r")
         && Status(Apply(s', Act(0, Reports)).disk, ["r"], "r", 0).status == "client_aborted"
  {
    hide CanRun, RunTo, CancelOutcome, CalledTorn, Enabled, Apply, Status, Files;
    Aborted();
    CutCall();
    ReportsAbort();
    AbortOverwrites();
    UndoneReads();
  }

  lemma AbortOverwrites()
    ensures TornReads.Overwrites(Gone(Files(map["r" := Holds(LEFT)], CUT, SAID), Report(PENDING)), Act(0, Reports), "r")
  {
    assert "client_aborted"[1] != "cancelled"[1];
  }

  lemma CutReadsCancelled()
    ensures Status(Files(map["r" := Holds(LEFT)], CUT, SAID), ["r"], "r", 0).status == "cancelled"
  {
    var d := Files(map["r" := Holds(LEFT)], CUT, SAID);
    assert Verdict(d, "r") == Some(LEFT);
    TornReads.WordedReads(d, ["r"], "r", 0);
    hide Status;
  }

  lemma LeftReadsAborted()
    ensures var d := Files(map["r" := Holds(LEFT)], CUT, map["r" := RunResult(-1, "client_aborted")]);
      Status(d, ["r"], "r", 0).status == "client_aborted"
  {
    var d := Files(map["r" := Holds(LEFT)], CUT, map["r" := RunResult(-1, "client_aborted")]);
    var word := "client_aborted";
    assert StoreStatus(d, ["r"], "r", 0) == StatusResponse(word, word, -1, word) by {
      assert Verdict(d, "r") == Some(LEFT) && "client_aborted"[1] != "cancelled"[1];
      assert "client_aborted"[1] != "confirmation_timeout"[1];
    }
    StatusIs(d, ["r"], "r", 0);
    PlainTexts();
    hide Status, StoreStatus, Drifted, DriftOf;
  }

  lemma UndoneReads()
    ensures Status(Files(map["r" := Holds(LEFT)], CUT, SAID), ["r"], "r", 0).status == "cancelled"
    ensures var d := Files(map["r" := Holds(LEFT)], CUT, map["r" := RunResult(-1, "client_aborted")]);
      Status(d, ["r"], "r", 0).status == "client_aborted"
  {
    CutReadsCancelled();
    LeftReadsAborted();
    hide Status;
  }

  // ----- A crash -------------------------------------------------------------------------------------

  const G: nat := 7
  const PINNED := NewRecord(LS).(suspend := Some(SuspendPin(G, true)))

  function Stopped(rec: PendingRecord, verdicts: map<Rid, Once<VerdictRecord>>, pc: Pc): State {
    At(Files(verdicts, KEPT, BLANK).(recs := map["r" := rec]), pc, [], Some(G))
  }

  function AfterCrashWith(phase: Phase): State {
    State(
      Files(HELD, KEPT, BLANK).(recs := map["r" := PINNED]),
      map["r" := NewRecord(LS)], phase, map[], {}, [], {G}, 0, Config(false, {}, false), {}, true)
  }

  lemma Freezes()
    ensures var s := At(Files(NONE, KEPT, BLANK), Hold, [], None);
      Enabled(s, Act(0, Freeze(G))) && Apply(s, Act(0, Freeze(G))) == Stopped(NewRecord(LS), NONE, PinLoad(G))
    ensures var s := Stopped(NewRecord(LS), NONE, PinLoad(G));
      Enabled(s, Act(0, PinLoads)) && Apply(s, Act(0, PinLoads)) == Stopped(NewRecord(LS), NONE, PinSave(PINNED))
    ensures var s := Stopped(NewRecord(LS), NONE, PinSave(PINNED));
      Enabled(s, Act(0, PinSaves)) && Apply(s, Act(0, PinSaves)) == Stopped(PINNED, NONE, PollVerdict)
  {
    assert {} + {G} == {G};
  }

  lemma Approves()
    ensures var s := Stopped(PINNED, NONE, PollVerdict);
      Enabled(s, CREATE) && Apply(s, CREATE) == Stopped(PINNED, OPENED, PollVerdict)
    ensures var s := Stopped(PINNED, OPENED, PollVerdict);
      Enabled(s, FILL) && Apply(s, FILL) == Stopped(PINNED, HELD, PollVerdict)
  {
  }

  lemma Falls()
    ensures var s := Stopped(PINNED, HELD, PollVerdict);
      Enabled(s, Crash) && Apply(s, Crash) == AfterCrashWith(Listing({"r"}, {}, 0))
  {
    var s := Stopped(PINNED, HELD, PollVerdict);
    assert TearAll(HELD) == HELD && TearAll(KEPT) == KEPT;
    assert TearAll(s.disk.acks) == map[] && TearAll(s.disk.selections) == map[];
    assert s.disk.recs.Keys == {"r"};
  }

  lemma Restarts()
    ensures var s := AfterCrashWith(Listing({"r"}, {}, 0)); var skip := Scan(ListSkip("r"));
      Enabled(s, skip) && Apply(s, skip) == AfterCrashWith(Listing({}, {}, 0))
    ensures var s := AfterCrashWith(Listing({}, {}, 0));
      Enabled(s, Scan(ListDone)) && Apply(s, Scan(ListDone)) == AfterCrashWith(Adopting({}, 0))
  {
    assert Verdict(AfterCrashWith(Listing({"r"}, {}, 0)).disk, "r") == Some(OP);
    assert {"r"} - {"r"} == {};
  }

  const CRASHING: seq<Step> := [NEW] + ([Act(0,
    Freeze(G))] + ([Act(0, PinLoads)] + ([Act(0, PinSaves)] + ([CREATE] + ([FILL]
    + ([Crash] + ([Scan(ListSkip("r"))] + ([Scan(ListDone)] + []))))))))

  /** With a crash in the run a group can be left stopped for good although its pin is on record: the
      petition was decided, so the restart passes it over, and nobody is left to resume the group. */
  lemma CrashCanLeaveStopped()
    ensures CanRun(START, CRASHING)
    ensures var s := RunTo(START, CRASHING);
      G in s.stopped && StoredPin(s.disk, "r") == {G} && s.waiters == map[] && s.phase == Adopting({}, 0)
        && s.edits == {}
  {
    var end := AfterCrashWith(Adopting({}, 0));
    Stop(end);
    hide Apply, Enabled, CanRun, RunTo, At, Stopped, Files;
    Restarts();
    On(AfterCrashWith(Listing({}, {}, 0)), Scan(ListDone), end, []);
    var r1 := [Scan(ListDone)] + [];
    On(AfterCrashWith(Listing({"r"}, {}, 0)), Scan(ListSkip("r")), AfterCrashWith(Listing({}, {}, 0)), r1);
    Falls();
    var r2 := [Scan(ListSkip("r"))] + r1;
    On(Stopped(PINNED, HELD, PollVerdict), Crash, AfterCrashWith(Listing({"r"}, {}, 0)), r2);
    Approves();
    var r3 := [Crash] + r2;
    On(Stopped(PINNED, OPENED, PollVerdict), FILL, Stopped(PINNED, HELD, PollVerdict), r3);
    On(Stopped(PINNED, NONE, PollVerdict), CREATE, Stopped(PINNED, OPENED, PollVerdict), [FILL] + r3);
    Freezes();
    var r4 := [CREATE] + ([FILL] + r3);
    On(Stopped(NewRecord(LS), NONE, PinSave(PINNED)), Act(0, PinSaves), Stopped(PINNED, NONE, PollVerdict), r4);
    var r5 := [Act(0, PinSaves)] + r4;
    On(Stopped(NewRecord(LS), NONE, PinLoad(G)), Act(0, PinLoads), Stopped(NewRecord(LS), NONE, PinSave(PINNED)), r5);
    var r6 := [Act(0, PinLoads)] + r5;
    On(At(Files(NONE, KEPT, BLANK), Hold, [], None), Act(0, Freeze(G)), Stopped(NewRecord(LS), NONE, PinLoad(G)), r6);
    Starts();
    On(START, NEW, At(Files(NONE, KEPT, BLANK), Hold, [], None), [Act(0, Freeze(G))] + r6);
  }

  // ----- A blocked confirmation ----------------------------------------------------------------------

  /** The command is listed for confirmation, and confirm-all is off. */
  const CAREFUL := Config(false, {["ls"]}, false)
  const LS2 := LS.(step := Confirm, confirmOf := Some("r"))
  const BOTH := map["r" := Holds(OP), "c" := Holds(OP)]
  const MID := map["r" := Holds(OP), "c" := Creating(OP)]

  function Two(verdicts: map<Rid, Once<VerdictRecord>>, results: map<Rid, RunResult>): Disk {
    Disk(map["r" := NewRecord(LS), "c" := NewRecord(LS2)], verdicts, map[], map[], map[], results)
  }

  /** The waiter on the confirmation. */
  function On2(d: Disk, pc: Pc): State {
    State(
      d, map["r" := NewRecord(LS), "c" := NewRecord(LS2)], Adopting({}, 0),
      map[0 := RunWaiter("r", LS, false).(rid := "c", stage := Confirm, pc := pc)],
      {}, [], {}, 0, CAREFUL, {}, false)
  }

  const CONFIRMS := Act(0, ConfirmSaves("c", 100, 0, 0, 0))
  const CREATE2 := Do(CreateSlip("c", VerdictSlip(OP)))
  const FILL2 := Do(FillSlip("c", VerdictFile))

  function Careful(s: State): State {
    s.(cfg := CAREFUL)
  }

  lemma AsksAgain()
    ensures var s := At(Files(HELD, KEPT, BLANK), Decided(Approve), [], None); var st := Do(Reconfigure(CAREFUL));
      Enabled(s, st) && Apply(s, st) == Careful(s)
    ensures var s := Careful(At(Files(HELD, KEPT, BLANK), Decided(Approve), [], None));
      Enabled(s, Act(0, Branch)) && Apply(s, Act(0, Branch))
        == Careful(At(Files(HELD, KEPT, BLANK), ConfirmLoad, [], None))
    ensures var s := Careful(At(Files(HELD, KEPT, BLANK), ConfirmLoad, [], None));
      Enabled(s, Act(0, ConfirmLoads))
      && Apply(s, Act(0, ConfirmLoads)) == Careful(At(Files(HELD, KEPT, BLANK), ConfirmSave(NewRecord(LS)), [], None))
  {
  }

  lemma Confirms()
    ensures var s := Careful(At(Files(HELD, KEPT, BLANK), ConfirmSave(NewRecord(LS)), [], None));
      Enabled(s, CONFIRMS) && Apply(s, CONFIRMS) == On2(Two(HELD, BLANK), PollVerdict)
  {
    var s := Careful(At(Files(HELD, KEPT, BLANK), ConfirmSave(NewRecord(LS)), [], None));
    var w := s.waiters[0];
    assert ChildRecord(w, NewRecord(LS), 100, 0, 0, 0) == NewRecord(LS2);
    assert Confirming(s, 0, "c", 100, 0, 0, 0) == On2(Two(HELD, BLANK), PollVerdict);
  }

  lemma ApprovesAgain()
    ensures var s := On2(Two(HELD, BLANK), PollVerdict);
      Enabled(s, CREATE2) && Apply(s, CREATE2) == On2(Two(MID, BLANK), PollVerdict)
    ensures var s := On2(Two(MID, BLANK), PollVerdict);
      Enabled(s, FILL2) && Apply(s, FILL2) == On2(Two(BOTH, BLANK), PollVerdict)
  {
  }

  lemma PollsChild()
    ensures var s := On2(Two(BOTH, BLANK), PollVerdict);
      Enabled(s, Act(0, Poll)) && Apply(s, Act(0, Poll)) == On2(Two(BOTH, BLANK), Decided(Approve))
  {
    assert Verdict(Two(BOTH, BLANK), "c") == Some(OP);
  }

  lemma Goes()
    ensures var s := On2(Two(BOTH, BLANK), Decided(Approve));
      Enabled(s, Act(0, Branch)) && Apply(s, Act(0, Branch)) == On2(Two(BOTH, BLANK), RunLoad)
    ensures var s := On2(Two(BOTH, BLANK), RunLoad);
      Enabled(s, Act(0, RunLoads)) && Apply(s, Act(0, RunLoads)) == On2(Two(BOTH, BLANK), Gate(NewRecord(LS2)))
  {
  }

  const TODO := [("c", RunResult(-1, DRIFT)), ("r", RunResult(0, ""))]
  const ONE := map["c" := RunResult(-1, DRIFT)]
  const ALL := map["c" := RunResult(-1, DRIFT), "r" := RunResult(0, "")]

  lemma Blocked()
    ensures var s := On2(Two(BOTH, BLANK), Gate(NewRecord(LS2)));
      Enabled(s, BLOCK) && Apply(s, BLOCK) == On2(Two(BOTH, BLANK), Report(TODO))
  {
    DriftIsMarked();
    assert TODO == [("c", RunResult(-1, DRIFT))] + [("r", RunResult(0, ""))];
  }

  lemma RecordsBoth()
    ensures var s := On2(Two(BOTH, BLANK), Report(TODO));
      Enabled(s, Act(0, Reports)) && Apply(s, Act(0, Reports)) == On2(Two(BOTH, ONE), Report(TODO[1..]))
    ensures var s := On2(Two(BOTH, ONE), Report(TODO[1..]));
      Enabled(s, Act(0, Reports)) && Apply(s, Act(0, Reports)) == On2(Two(BOTH, ALL), Report([]))
  {
    DriftIsMarked();
    assert BLANK["c" := RunResult(-1, DRIFT)] == ONE && ONE["r" := RunResult(0, "")] == ALL;
    assert TODO[1..] == [("r", RunResult(0, ""))] && TODO[1..][1..] == [];
  }

  function ToGate2(more: seq<Step>): seq<Step> {
    [CREATE2] + ([FILL2] + ([Act(0, Poll)] + ([Act(0, Branch)] + ([Act(0, RunLoads)] + more))))
  }

  /** The confirmation is approved and its waiter comes to the gate. */
  lemma Approaches2(more: seq<Step>)
    requires CanRun(On2(Two(BOTH, BLANK), Gate(NewRecord(LS2))), more)
    ensures CanRun(On2(Two(HELD, BLANK), PollVerdict), ToGate2(more))
    ensures RunTo(On2(Two(HELD, BLANK), PollVerdict), ToGate2(more))
            == RunTo(On2(Two(BOTH, BLANK), Gate(NewRecord(LS2))), more)
  {
    hide Apply, Enabled, CanRun, RunTo, On2, Two;
    PollsChild();
    Goes();
    On(On2(Two(BOTH, BLANK), RunLoad), Act(0, RunLoads), On2(Two(BOTH, BLANK), Gate(NewRecord(LS2))), more);
    var r4 := [Act(0, RunLoads)] + more;
    On(On2(Two(BOTH, BLANK), Decided(Approve)), Act(0, Branch), On2(Two(BOTH, BLANK), RunLoad), r4);
    var r5 := [Act(0, Branch)] + r4;
    On(On2(Two(BOTH, BLANK), PollVerdict), Act(0, Poll), On2(Two(BOTH, BLANK), Decided(Approve)), r5);
    var r6 := [Act(0, Poll)] + r5;
    ApprovesAgain();
    On(On2(Two(MID, BLANK), PollVerdict), FILL2, On2(Two(BOTH, BLANK), PollVerdict), r6);
    On(On2(Two(HELD, BLANK), PollVerdict), CREATE2, On2(Two(MID, BLANK), PollVerdict), [FILL2] + r6);
  }

  function ToChild(more: seq<Step>): seq<Step> {
    HEAD + ([FILL] + ([Act(0, Poll)] + ([Do(Reconfigure(CAREFUL))] + ([Act(0, Branch)]
      + ([Act(0, ConfirmLoads)] + ([CONFIRMS] + more))))))
  }

  /** The command, listed by now, gets a confirmation, and its waiter waits for that one. */
  lemma AwaitsChild(more: seq<Step>)
    requires CanRun(On2(Two(HELD, BLANK), PollVerdict), more)
    ensures CanRun(START, ToChild(more))
    ensures RunTo(START, ToChild(more)) == RunTo(On2(Two(HELD, BLANK), PollVerdict), more)
  {
    var d := Files(HELD, KEPT, BLANK);
    hide Apply, Enabled, CanRun, RunTo, At, Files, On2, Two, Careful;
    Confirms();
    On(Careful(At(d, ConfirmSave(NewRecord(LS)), [], None)), CONFIRMS, On2(Two(HELD, BLANK), PollVerdict), more);
    var r1 := [CONFIRMS] + more;
    AsksAgain();
    On(Careful(At(d, ConfirmLoad, [], None)), Act(0, ConfirmLoads),
      Careful(At(d, ConfirmSave(NewRecord(LS)), [], None)), r1);
    var r2 := [Act(0, ConfirmLoads)] + r1;
    On(Careful(At(d, Decided(Approve), [], None)), Act(0, Branch), Careful(At(d, ConfirmLoad, [], None)), r2);
    var r3 := [Act(0, Branch)] + r2;
    On(At(d, Decided(Approve), [], None), Do(Reconfigure(CAREFUL)), Careful(At(d, Decided(Approve), [], None)), r3);
    var r4 := [Do(Reconfigure(CAREFUL))] + r3;
    Polls(KEPT, BLANK);
    On(At(d, PollVerdict, [], None), Act(0, Poll), At(d, Decided(Approve), [], None), r4);
    var r5 := [Act(0, Poll)] + r4;
    Fills(KEPT, BLANK);
    On(At(Files(OPENED, KEPT, BLANK), PollVerdict, [], None), FILL, At(d, PollVerdict, [], None), r5);
    Reached([FILL] + r5);
    assert ToChild(more) == HEAD + ([FILL] + r5);
  }

  lemma SpawnsChild()
    ensures var s := On2(Two(BOTH, BLANK), Gate(NewRecord(LS2))); var st := Act(0, Spawns(0, ""));
      Enabled(s, st) && Apply(s, st).spawns == [Spawn("c", "r", ["ls"], 1000, "/")]
  {
    assert [] + [Spawn("c", "r", ["ls"], 1000, "/")] == [Spawn("c", "r", ["ls"], 1000, "/")];
  }

  /** A listed command with confirm-all off: its approval leads to a confirmation and to no process, and
      only the approved confirmation to one. */
  lemma ListedCommandTakesTwo()
    ensures CanRun(START, ToChild([]))
    ensures var s := RunTo(START, ToChild([]));
      && s.cfg == Config(false, {["ls"]}, false) && Approved(s.disk, "r") && s.spawns == []
      && s.disk.recs == map["r" := NewRecord(LS), "c" := NewRecord(LS2)]
    ensures var steps := ToChild(ToGate2([Act(0, Spawns(0, ""))] + []));
      CanRun(START, steps) && RunTo(START, steps).spawns == [Spawn("c", "r", ["ls"], 1000, "/")]
  {
    assert Verdict(On2(Two(HELD, BLANK), PollVerdict).disk, "r") == Some(OP);
    Stop(On2(Two(HELD, BLANK), PollVerdict));
    AwaitsChild([]);
    var s := On2(Two(BOTH, BLANK), Gate(NewRecord(LS2)));
    SpawnsChild();
    hide Apply, Enabled, CanRun, RunTo;
    Stop(Apply(s, Act(0, Spawns(0, ""))));
    On(s, Act(0, Spawns(0, "")), Apply(s, Act(0, Spawns(0, ""))), []);
    Approaches2([Act(0, Spawns(0, ""))] + []);
    AwaitsChild(ToGate2([Act(0, Spawns(0, ""))] + []));
  }

  lemma BlockedTail()
    ensures CanRun(On2(Two(HELD, BLANK), PollVerdict),
          ToGate2([BLOCK] + ([Act(0, Reports)] + ([Act(0, Reports)] + []))))
    ensures RunTo(On2(Two(HELD, BLANK), PollVerdict), ToGate2([BLOCK] + ([Act(0, Reports)] + ([Act(0, Reports)] + []))))
            == On2(Two(BOTH, ALL), Report([]))
  {
    Stop(On2(Two(BOTH, ALL), Report([])));
    hide Apply, Enabled, CanRun, RunTo, On2, Two;
    RecordsBoth();
    On(On2(Two(BOTH, ONE), Report(TODO[1..])), Act(0, Reports), On2(Two(BOTH, ALL), Report([])), []);
    var r1 := [Act(0, Reports)] + [];
    On(On2(Two(BOTH, BLANK), Report(TODO)), Act(0, Reports), On2(Two(BOTH, ONE), Report(TODO[1..])), r1);
    Blocked();
    On(On2(Two(BOTH, BLANK), Gate(NewRecord(LS2))), BLOCK, On2(Two(BOTH, BLANK), Report(TODO)), [Act(0, Reports)] + r1);
    Approaches2([BLOCK] + ([Act(0, Reports)] + r1));
  }

  /** A confirmed run that the gate blocks: nothing ran, the confirmation says why and reads as denied, and
      its parent has exit code 0, no output, and reads as completed. */
  lemma BlockedReadsCompleted()
    ensures var steps := ToChild(ToGate2([BLOCK] + ([Act(0, Reports)] + ([Act(0, Reports)] + []))));
      && CanRun(START, steps)
      && var s := RunTo(START, steps);
         && s.spawns == [] && s.disk.results == ALL
         && Status(s.disk, ["r", "c"], "r", 0).status == "completed"
         && Status(s.disk, ["r", "c"], "c", 0).status == "denied"
  {
    BlockedReads();
    hide Apply, Enabled, CanRun, RunTo, Status;
    BlockedTail();
    AwaitsChild(ToGate2([BLOCK] + ([Act(0, Reports)] + ([Act(0, Reports)] + []))));
  }

  lemma BlockedReads()
    ensures var s := On2(Two(BOTH, ALL), Report([]));
      && s.spawns == [] && s.disk.results == ALL
      && Status(s.disk, ["r", "c"], "r", 0).status == "completed"
         && Status(s.disk, ["r", "c"], "c", 0).status == "denied"
  {
    DriftIsMarked();
    CompletedIff(Two(BOTH, ALL), ["r", "c"], "r", 0);
    BlockedIsDenied(Two(BOTH, ALL), ["r", "c"], "c", 0);
    hide Status;
  }
}
