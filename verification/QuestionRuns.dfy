/** Concrete runs around questions: a confirmation chained onto one, and an answer beside a cancellation. */
module QuestionRuns {
  import opened Records
  import opened Protocol
  import opened Invariant
  import opened Queries
  import opened Cancelling
  import opened Agreement
  import Question

  const CFG := Config(true, {}, false)
  const START := Boot(0, CFG)

  const ASK := Petition([], 1000, "", 100, Initial, None, Ask, "q", ["a", "b"], false, 0, 0, 0)
  const SURE := ASK.(step := Confirm, confirmOf := Some("r"), kind := Exec, question := "", options := [])

  const OP := VerdictRecord(Approve, "op")
  const YES := map["r" := Holds(OP)]
  const PICK := SelectionRecord("a", 0, [], "op")
  const MARK := CancelRecord("op", "")

  const CALL_R := CancelRequest("r", 0, 0, "op", "")
  const CALL_C := CancelRequest("c", 0, 0, "op", "")

  function OneDisk(verdicts: map<Rid, Once<VerdictRecord>>, cancels: map<Rid, Once<CancelRecord>>,
                   sel: map<Rid, Once<SelectionRecord>>): Disk {
    Disk(map["r" := NewRecord(ASK)], verdicts, cancels, map[], sel, map[])
  }

  const ONE := OneDisk(map[], map[], map[])
  const ONE_YES := OneDisk(YES, map[], map[])

  function Alone(d: Disk, phase: Phase, waiters: map<nat, Waiter>, crashed: bool): State {
    State(d, map["r" := NewRecord(ASK)], phase, waiters, {}, [], {}, 0, CFG, {}, crashed)
  }

  function Waiting1(pc: Pc): map<nat, Waiter> {
    map[0 := AdoptedWaiter("r", ASK).(pc := pc)]
  }

  /** One operation onwards from a known state to a known state. */
  lemma On(s: State, op: Op, t: State, rest: seq<Op>)
    requires OpEnabled(s, op) && OpApply(s, op) == t && CanDo(t, rest)
    ensures CanDo(s, [op] + rest) && DoAll(s, [op] + rest) == DoAll(t, rest)
  {
    hide OpEnabled, OpApply;
    assert ([op] + rest)[1..] == rest;
  }

  lemma Stop(s: State)
    ensures CanDo(s, []) && DoAll(s, []) == s
  {
  }

  const ASKS := Small(NewOther("r", ASK))

  lemma Asks()
    ensures OpEnabled(START, ASKS) && OpApply(START, ASKS) == Alone(ONE, Adopting({}, 0), map[], false)
  {
  }

  // ----- An answer beside a cancellation -------------------------------------------------------------

  const MARKED := map["r" := Holds(MARK)]
  const PICKED := map["r" := Holds(PICK)]

  lemma CancelsQuestion()
    ensures var s := Alone(ONE, Adopting({}, 0), map[], false);
      OpEnabled(s, CancelCall(CALL_R, ["r"]))
      && OpApply(s, CancelCall(CALL_R, ["r"])) == Alone(OneDisk(map[], MARKED, map[]), Adopting({}, 0), map[], false)
  {
    var s := Alone(ONE, Adopting({}, 0), map[], false);
    FoundIsChild(ONE, ["r"], "r");
    assert !KnownCancelled(ONE, ["r"], "r");
    assert CancelOutcome(ONE, ["r"], CALL_R, 0) == CancelScratch(ONE, CALL_R, false, "already decided", 0);
    assert Called(s, CALL_R, ["r"]).stopped == {};
  }

  lemma AnswersLate()
    ensures var s := Alone(OneDisk(map[], MARKED, map[]), Adopting({}, 0), map[], false);
      OpEnabled(s, Answer("r", SelectionSlip(PICK)))
      && OpApply(s, Answer("r", SelectionSlip(PICK)))
         == Alone(OneDisk(map[], MARKED, PICKED), Adopting({}, 0), map[], false)
  {
  }

  /** A question can be answered after it was cancelled: its caller is told the answer, status reads
      cancelled. */
  lemma AnswerBesideCancel()
    ensures var ops := [ASKS] + ([CancelCall(CALL_R, ["r"])] + ([Answer("r", SelectionSlip(PICK))] + []));
      && CanDo(START, ops)
      && var d := DoAll(START, ops).disk;
         && SelectionInfo(d, "r") == Some(PICK) && CancelInfo(d, "r").Some?
         && Question.Told(Question.Glance(SelectionInfo(d, "r"), true, 0, false), 100, true) == Question.Selected(PICK)
         && Status(d, ["r"], "r", 0).status == "cancelled"
  {
    var t := Alone(OneDisk(map[], MARKED, PICKED), Adopting({}, 0), map[], false);
    Stop(t);
    AnswersLate();
    On(Alone(OneDisk(map[], MARKED, map[]), Adopting({}, 0), map[], false), Answer("r", SelectionSlip(PICK)), t, []);
    CancelsQuestion();
    On(Alone(ONE, Adopting({}, 0), map[], false), CancelCall(CALL_R, ["r"]),
       Alone(OneDisk(map[], MARKED, map[]), Adopting({}, 0), map[], false), [Answer("r", SelectionSlip(PICK))] + []);
    Asks();
    On(START, ASKS, Alone(ONE, Adopting({}, 0), map[], false),
      [CancelCall(CALL_R, ["r"])] + ([Answer("r", SelectionSlip(PICK))] + []));
    hide OpApply, OpEnabled, CanDo, DoAll;
  }

  /** The question unanswered, or answered, once its deadline has passed. */
  function Late(sel: map<Rid, Once<SelectionRecord>>): State {
    Alone(OneDisk(map[], map[], sel), Adopting({}, 0), map[], false).(now := 101)
  }

  const TICK := Small(Do(Tick(101)))
  const AT_LAST := Question.Glance(None, false, 101 * Question.NANOS, false)

  lemma Passes()
    ensures var s := Alone(ONE, Adopting({}, 0), map[], false); OpEnabled(s, TICK) && OpApply(s, TICK) == Late(map[])
    ensures OpEnabled(Late(map[]), Answer("r", SelectionSlip(PICK)))
    ensures OpApply(Late(map[]), Answer("r", SelectionSlip(PICK))) == Late(PICKED)
  {
  }

  /** An answer that comes between the last look past the deadline and the reply: the caller is told that
      the time is up, status reads selected. */
  lemma AnswerAfterLastLook()
    ensures var ops := [ASKS] + ([TICK] + []);
      && CanDo(START, ops)
      && var s := DoAll(START, ops);
         && AT_LAST.sel == SelectionInfo(s.disk, "r") && AT_LAST.cancelled == CancelInfo(s.disk, "r").Some?
         && AT_LAST.now == s.now * Question.NANOS
         && OpEnabled(s, Answer("r", SelectionSlip(PICK)))
         && var d := OpApply(s, Answer("r", SelectionSlip(PICK))).disk;
            && Question.Told(AT_LAST, 100 * Question.NANOS, CancelInfo(d, "r").Some?) == Question.TimedOut
            && Status(d, ["r"], "r", 101).status == "selected"
  {
    Stop(Late(map[]));
    Passes();
    On(Alone(ONE, Adopting({}, 0), map[], false), TICK, Late(map[]), []);
    Asks();
    On(START, ASKS, Alone(ONE, Adopting({}, 0), map[], false), [TICK] + []);
    LateReads();
    hide OpApply, OpEnabled, CanDo, DoAll, Status;
  }

  lemma LateReads()
    ensures Status(Late(PICKED).disk, ["r"], "r", 101).status == "selected"
  {
    StatusIs(Late(PICKED).disk, ["r"], "r", 101);
    PlainTexts();
    hide Status, Drifted;
  }

  // ----- A verdict on a question ---------------------------------------------------------------------

  lemma ApprovesQuestion()
    ensures var s := Alone(ONE, Adopting({}, 0), map[], false);
      OpEnabled(s, Answer("r", VerdictSlip(OP)))
      && OpApply(s, Answer("r", VerdictSlip(OP))) == Alone(ONE_YES, Adopting({}, 0), map[], false)
  {
  }

  /** A question approved by mistake reads as pending but is not listed. */
  lemma PendingAskMayBeUnlisted()
    ensures var ops := [ASKS] + ([Answer("r", VerdictSlip(OP))] + []);
      && CanDo(START, ops)
      && var s := DoAll(START, ops);
         Status(s.disk, ["r"], "r", s.now).status == "pending" && !Listed(s.disk, s.now, "r")
  {
    var s := Alone(ONE, Adopting({}, 0), map[], false);
    var t := Alone(ONE_YES, Adopting({}, 0), map[], false);
    Stop(t);
    ApprovesQuestion();
    On(s, Answer("r", VerdictSlip(OP)), t, []);
    Asks();
    On(START, ASKS, s, [Answer("r", VerdictSlip(OP))] + []);
    YesReads();
    hide OpApply, OpEnabled, CanDo, DoAll, Status, Listed;
  }

  lemma YesReads()
    ensures Status(ONE_YES, ["r"], "r", 0).status == "pending" && !Listed(ONE_YES, 0, "r")
  {
    assert Verdict(ONE_YES, "r") == Some(OP);
    StatusIs(ONE_YES, ["r"], "r", 0);
    PlainTexts();
    hide Status, Drifted;
  }

  // ----- A confirmation chained onto a question ------------------------------------------------------

  lemma Falls()
    ensures var s := Alone(ONE, Adopting({}, 0), map[], false);
      OpEnabled(s, Small(Crash)) && OpApply(s, Small(Crash)) == Alone(ONE, Listing({"r"}, {}, 0), map[], true)
  {
    assert TearAll(ONE.verdicts) == map[] && TearAll(ONE.cancels) == map[];
    assert TearAll(ONE.acks) == map[] && TearAll(ONE.selections) == map[];
    assert ONE.recs.Keys == {"r"};
  }

  lemma Scans()
    ensures var s := Alone(ONE, Listing({"r"}, {}, 0), map[], true); var op := Small(Scan(ListTake("r")));
      OpEnabled(s, op) && OpApply(s, op) == Alone(ONE, Listing({}, {"r"}, 0), map[], true)
    ensures var s := Alone(ONE, Listing({}, {"r"}, 0), map[], true); var op := Small(Scan(ListDone));
      OpEnabled(s, op) && OpApply(s, op) == Alone(ONE, Adopting({"r"}, 0), map[], true)
    ensures var s := Alone(ONE, Adopting({"r"}, 0), map[], true); var op := Small(Scan(AdoptWait("r", 0)));
      OpEnabled(s, op) && OpApply(s, op) == Alone(ONE, Adopting({}, 0), Waiting1(PollVerdict), true)
  {
    assert {"r"} - {"r"} == {} && {} + {"r"} == {"r"};
  }

  lemma Approves()
    ensures var s := Alone(ONE, Adopting({}, 0), Waiting1(PollVerdict), true); var op := Answer("r", VerdictSlip(OP));
      OpEnabled(s, op) && OpApply(s, op) == Alone(ONE_YES, Adopting({}, 0), Waiting1(PollVerdict), true)
    ensures var s := Alone(ONE_YES, Adopting({}, 0), Waiting1(PollVerdict), true); var op := Small(Act(0, Poll));
      OpEnabled(s, op) && OpApply(s, op) == Alone(ONE_YES, Adopting({}, 0), Waiting1(Decided(Approve)), true)
  {
    assert Verdict(ONE_YES, "r") == Some(OP);
  }

  lemma Branches()
    ensures var s := Alone(ONE_YES, Adopting({}, 0), Waiting1(Decided(Approve)), true); var op := Small(Act(0, Branch));
      OpEnabled(s, op) && OpApply(s, op) == Alone(ONE_YES, Adopting({}, 0), Waiting1(ConfirmLoad), true)
    ensures var s := Alone(ONE_YES, Adopting({}, 0), Waiting1(ConfirmLoad), true);
      var op := Small(Act(0, ConfirmLoads));
      OpEnabled(s, op) && OpApply(s, op) == Alone(ONE_YES, Adopting({}, 0), Waiting1(ConfirmSave(NewRecord(ASK))), true)
  {
  }

  function TwoDisk(verdicts: map<Rid, Once<VerdictRecord>>, cancels: map<Rid, Once<CancelRecord>>,
                   sel: map<Rid, Once<SelectionRecord>>, results: map<Rid, RunResult>): Disk {
    Disk(map["r" := NewRecord(ASK), "c" := NewRecord(SURE)], verdicts, cancels, map[], sel, results)
  }

  function Chain(d: Disk): State {
    State(d, map["r" := NewRecord(ASK), "c" := NewRecord(SURE)], Adopting({}, 0),
          map[0 := AdoptedWaiter("r", ASK).(rid := "c", stage := Confirm)], {}, [], {}, 0, CFG, {}, true)
  }

  const CONFIRMS := Small(Act(0, ConfirmSaves("c", 100, 0, 0, 0)))

  lemma Confirms()
    ensures var s := Alone(ONE_YES, Adopting({}, 0), Waiting1(ConfirmSave(NewRecord(ASK))), true);
      OpEnabled(s, CONFIRMS) && OpApply(s, CONFIRMS) == Chain(TwoDisk(YES, map[], map[], map[]))
  {
    var s := Alone(ONE_YES, Adopting({}, 0), Waiting1(ConfirmSave(NewRecord(ASK))), true);
    assert ChildRecord(s.waiters[0], NewRecord(ASK), 100, 0, 0, 0) == NewRecord(SURE);
    assert Confirming(s, 0, "c", 100, 0, 0, 0) == Chain(TwoDisk(YES, map[], map[], map[]));
  }

  const HEAD: seq<Op> := [ASKS] + ([Small(Crash)] + ([Small(Scan(ListTake("r")))] + ([Small(Scan(ListDone))]
    + ([Small(Scan(AdoptWait("r", 0)))] + ([Answer("r", VerdictSlip(OP))]
    + ([Small(Act(0, Poll))] + ([Small(Act(0, Branch))]
    + ([Small(Act(0, ConfirmLoads))] + ([CONFIRMS] + [])))))))))

  /** A question is adopted after a crash, approved, and under confirm-all a confirmation is chained on. */
  lemma ChainedOn(more: seq<Op>)
    requires CanDo(Chain(TwoDisk(YES, map[], map[], map[])), more)
    ensures CanDo(START, HEAD + more) && DoAll(START, HEAD + more)
          == DoAll(Chain(TwoDisk(YES, map[], map[], map[])), more)
  {
    hide OpApply, OpEnabled, CanDo, DoAll, Alone, Chain, TwoDisk, OneDisk, Waiting1;
    Confirms();
    On(Alone(ONE_YES, Adopting({}, 0), Waiting1(ConfirmSave(NewRecord(ASK))), true), CONFIRMS,
      Chain(TwoDisk(YES, map[], map[], map[])), more);
    var r1 := [CONFIRMS] + more;
    Branches();
    On(Alone(ONE_YES, Adopting({}, 0), Waiting1(ConfirmLoad), true), Small(Act(0, ConfirmLoads)),
       Alone(ONE_YES, Adopting({}, 0), Waiting1(ConfirmSave(NewRecord(ASK))), true), r1);
    var r2 := [Small(Act(0, ConfirmLoads))] + r1;
    On(Alone(ONE_YES, Adopting({}, 0), Waiting1(Decided(Approve)), true), Small(Act(0, Branch)),
       Alone(ONE_YES, Adopting({}, 0), Waiting1(ConfirmLoad), true), r2);
    var r3 := [Small(Act(0, Branch))] + r2;
    Approves();
    On(Alone(ONE_YES, Adopting({}, 0), Waiting1(PollVerdict), true), Small(Act(0, Poll)),
       Alone(ONE_YES, Adopting({}, 0), Waiting1(Decided(Approve)), true), r3);
    var r4 := [Small(Act(0, Poll))] + r3;
    On(Alone(ONE, Adopting({}, 0), Waiting1(PollVerdict), true), Answer("r", VerdictSlip(OP)),
       Alone(ONE_YES, Adopting({}, 0), Waiting1(PollVerdict), true), r4);
    var r5 := [Answer("r", VerdictSlip(OP))] + r4;
    Scans();
    On(Alone(ONE, Adopting({"r"}, 0), map[], true), Small(Scan(AdoptWait("r", 0))),
       Alone(ONE, Adopting({}, 0), Waiting1(PollVerdict), true), r5);
    var r6 := [Small(Scan(AdoptWait("r", 0)))] + r5;
    On(Alone(ONE, Listing({}, {"r"}, 0), map[], true), Small(Scan(ListDone)),
      Alone(ONE, Adopting({"r"}, 0), map[], true), r6);
    var r7 := [Small(Scan(ListDone))] + r6;
    On(Alone(ONE, Listing({"r"}, {}, 0), map[], true), Small(Scan(ListTake("r"))),
      Alone(ONE, Listing({}, {"r"}, 0), map[], true), r7);
    var r8 := [Small(Scan(ListTake("r")))] + r7;
    Falls();
    On(Alone(ONE, Adopting({}, 0), map[], false), Small(Crash), Alone(ONE, Listing({"r"}, {}, 0), map[], true), r8);
    Asks();
    On(START, ASKS, Alone(ONE, Adopting({}, 0), map[], false), [Small(Crash)] + r8);
    assert HEAD + more == [ASKS] + ([Small(Crash)] + r8);
  }

  lemma Finds(d: Disk)
    requires d.recs == map["r" := NewRecord(ASK), "c" := NewRecord(SURE)]
    ensures FindConfirmation(d, ["r", "c"], "r") == Some("c") && FindConfirmation(d, ["r", "c"], "c") == None
  {
    FoundIsChild(d, ["r", "c"], "r");
    FoundIsChild(d, ["r", "c"], "c");
  }

  lemma CancelsParent()
    ensures var s := Chain(TwoDisk(YES, map[], map[], map[])); var op := CancelCall(CALL_R, ["r", "c"]);
      OpEnabled(s, op) && OpApply(s, op) == Chain(TwoDisk(YES, MARKED, map[], map[]))
  {
    var s := Chain(TwoDisk(YES, map[], map[], map[]));
    Finds(s.disk);
    assert !KnownCancelled(s.disk, ["r", "c"], "r");
    assert CancelOutcome(s.disk, ["r", "c"], CALL_R, 0) == CancelScratch(s.disk, CALL_R, false, "already decided", 0);
    assert Called(s, CALL_R, ["r", "c"]).stopped == {};
  }

  /** The question is cancelled, then its confirmation: the call answers yes, changes nothing, and the
      confirmation reads as pending. */
  lemma ConfirmationPassedOver()
    ensures var ops := HEAD + ([CancelCall(CALL_R, ["r", "c"])] + []);
      && CanDo(START, ops)
      && var s := DoAll(START, ops);
         && CancelOutcome(s.disk, ["r", "c"], CALL_C, s.now) == AlreadyCancelled(s.disk)
         && Status(s.disk, ["r", "c"], "c", 0).status == "pending" && PassedOver(s.disk, "c")
  {
    var t := Chain(TwoDisk(YES, MARKED, map[], map[]));
    Stop(t);
    CancelsParent();
    On(Chain(TwoDisk(YES, map[], map[], map[])), CancelCall(CALL_R, ["r", "c"]), t, []);
    ChainedOn([CancelCall(CALL_R, ["r", "c"])] + []);
    hide OpApply, OpEnabled, CanDo, DoAll;
    Finds(t.disk);
  }

  const SAID := map["c" := RunResult(-1, "cancelled"), "r" := RunResult(-1, "cancelled")]
  const GONE := map["r" := Holds(OP), "c" := Holds(VerdictRecord(Cancelled, "op"))]
  const MARKED2 := map["c" := Holds(MARK), "r" := Holds(MARK)]

  lemma Selects()
    ensures var s := Chain(TwoDisk(YES, map[], map[], map[])); var op := Answer("r", SelectionSlip(PICK));
      OpEnabled(s, op) && OpApply(s, op) == Chain(TwoDisk(YES, map[], PICKED, map[]))
  {
  }

  lemma CancelsConfirmation()
    ensures var s := Chain(TwoDisk(YES, map[], PICKED, map[])); var op := CancelCall(CALL_C, ["r", "c"]);
      OpEnabled(s, op) && OpApply(s, op) == Chain(TwoDisk(GONE, MARKED2, PICKED, SAID))
  {
    var s := Chain(TwoDisk(YES, map[], PICKED, map[]));
    Finds(s.disk);
    assert !KnownCancelled(s.disk, ["r", "c"], "c");
    assert CancelOutcome(s.disk, ["r", "c"], CALL_C, 0) == CancelConfirm(s.disk, CALL_C, 0);
    var mid := CancelOne(s.disk, "c", CALL_C);
    assert mid == TwoDisk(GONE, map["c" := Holds(MARK)], PICKED, map["c" := RunResult(-1, "cancelled")]);
    assert CancelOne(mid, "r", CALL_C) == TwoDisk(GONE, MARKED2, PICKED, SAID);
    assert Called(s, CALL_C, ["r", "c"]).stopped == {};
  }

  /** A selected question becomes cancelled through the confirmation chained onto it. */
  lemma SelectedBecomesCancelled()
    ensures var ops := HEAD + ([Answer("r", SelectionSlip(PICK))] + []); var call := CancelCall(CALL_C, ["r", "c"]);
      && CanDo(START, ops)
      && var s := DoAll(START, ops);
         && Status(s.disk, ["r", "c"], "r", 0).status == "selected" && OpEnabled(s, call)
            && CancelsThrough(s, call, "r")
         && Status(OpApply(s, call).disk, ["r", "c"], "r", 0).status == "cancelled"
  {
    var t := Chain(TwoDisk(YES, map[], PICKED, map[]));
    Stop(t);
    Selects();
    On(Chain(TwoDisk(YES, map[], map[], map[])), Answer("r", SelectionSlip(PICK)), t, []);
    ChainedOn([Answer("r", SelectionSlip(PICK))] + []);
    CancelsConfirmation();
    hide OpApply, OpEnabled, CanDo, DoAll;
  }
}
