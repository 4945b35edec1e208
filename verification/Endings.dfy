/** How a wait ends and what is then read: when a waiter decides, and that status says for good what it
    decided, or what its command did. */
module Endings {
  import opened Records
  import opened Protocol
  import opened Invariant
  import opened Preserve
  import opened Guarantees
  import opened Queries

  // ----- When a wait ends ----------------------------------------------------------------------------

  /** Every waiter's deadline is the one on the record it waits on. */
  ghost predicate Punctual(s: State) {
    forall i | i in s.waiters :: s.waiters[i].rid in s.disk.recs
                                 && s.waiters[i].expires == s.disk.recs[s.waiters[i].rid].petition.expires
  }

  lemma OthersPunctual(s: State, s': State, i: nat)
    requires PetitionsKept(s) && PetitionsKept(s') && Later(s, s') && Punctual(s)
    requires i in s.waiters && i in s'.waiters && s'.waiters[i].rid == s.waiters[i].rid
    requires s'.waiters[i].expires == s.waiters[i].expires
    ensures s'.waiters[i].rid in s'.disk.recs
    ensures s'.waiters[i].expires == s'.disk.recs[s'.waiters[i].rid].petition.expires
  {
    assert s.waiters[i].rid in s.first;
  }

  /** Who a step leaves waiting: as before, or newly at the record's own deadline. */
  ghost predicate WaitersMoved(s: State, s': State) {
    forall i | i in s'.waiters ::
      || (i in s.waiters && s'.waiters[i].rid == s.waiters[i].rid && s'.waiters[i].expires == s.waiters[i].expires)
      || (s'.waiters[i].rid in s'.disk.recs && s'.waiters[i].expires
         == s'.disk.recs[s'.waiters[i].rid].petition.expires)
  }

  lemma MoveMoves(s: State, wid: nat, m: Move)
    requires wid in s.waiters && MoveEnabled(s, s.waiters[wid], m)
    ensures WaitersMoved(s, Moved(s, wid, m))
  {
    hide NextPc;
  }

  lemma DeedMoves(s: State, deed: Deed)
    requires DeedEnabled(s, deed)
    ensures Done(s, deed).waiters == s.waiters
  {
  }

  lemma StepMoves(s: State, st: Step)
    requires Enabled(s, st)
    ensures WaitersMoved(s, Apply(s, st))
  {
    match st {
      case NewRun(_, _, _, _) =>
      case NewOther(_, _) =>
      case Crash =>
      case Scan(look) =>
      case Do(deed) =>
        DeedMoves(s, deed);
        hide Done, DeedEnabled;
      case Act(wid, m) =>
        MoveMoves(s, wid, m);
        hide Moved, MoveEnabled;
    }
  }

  lemma StepIsPunctual(s: State, st: Step)
    requires Inv(s) && Punctual(s) && Enabled(s, st)
    ensures Punctual(Apply(s, st))
  {
    var s' := Apply(s, st);
    StepKeeps(s, st);
    StepIsLater(s, st);
    StepMoves(s, st);
    assert PetitionsKept(s) && PetitionsKept(s');
    hide Inv, Apply, Enabled, Later, PetitionsKept;
    forall i | i in s'.waiters
      ensures s'.waiters[i].rid in s'.disk.recs
      ensures s'.waiters[i].expires == s'.disk.recs[s'.waiters[i].rid].petition.expires
    {
      if i in s.waiters && s'.waiters[i].rid == s.waiters[i].rid && s'.waiters[i].expires == s.waiters[i].expires {
        OthersPunctual(s, s', i);
      }
    }
  }

  lemma {:induction false} RunIsPunctual(s: State, steps: seq<Step>)
    requires Inv(s) && Punctual(s) && CanRun(s, steps)
    ensures Punctual(RunTo(s, steps))
    decreases |steps|
  {
    if steps != [] {
      StepIsPunctual(s, steps[0]);
      StepKeeps(s, steps[0]);
      hide Inv, Punctual, Apply, Enabled;
      RunIsPunctual(Apply(s, steps[0]), steps[1..]);
    }
  }

  function Polls(wid: nat, n: nat): seq<Step> {
    if n == 0 then [] else [Act(wid, Poll)] + Polls(wid, n - 1)
  }

  lemma PollOnce(s: State, wid: nat, rest: seq<Step>)
    requires Enabled(s, Act(wid, Poll)) && CanRun(Apply(s, Act(wid, Poll)), rest)
    ensures CanRun(s, [Act(wid, Poll)] + rest)
    ensures RunTo(s, [Act(wid, Poll)] + rest) == RunTo(Apply(s, Act(wid, Poll)), rest)
  {
    hide Enabled, Apply;
    assert ([Act(wid, Poll)] + rest)[1..] == rest;
  }

  /** One turn of the wait, in any reachable state: a readable verdict comes before a cancellation, that
      before the deadline on the record, and that before a look at the caller. */
  lemma TurnDecides(now: int, cfg: Config, before: seq<Step>, wid: nat)
    requires CanRun(Boot(now, cfg), before)
    requires var s := RunTo(Boot(now, cfg), before); wid in s.waiters && s.waiters[wid].pc == PollVerdict
    ensures var s := RunTo(Boot(now, cfg), before);
      var rid := s.waiters[wid].rid;
      var v := Verdict(s.disk, rid);
      var turn := Polls(wid, if v.Some? then 1 else if CancelInfo(s.disk, rid).Some? then 2 else 3);
      && rid in s.disk.recs && CanRun(s, turn)
      && var s' := RunTo(s, turn);
         && wid in s'.waiters && s'.disk == s.disk
         && s'.waiters[wid].pc ==
              (if v.Some? then Decided(v.value.decision)
               else if CancelInfo(s.disk, rid).Some? then Decided(Cancelled)
               else if s.now > s.disk.recs[rid].petition.expires then Decided(Timeout)
               else PollClient)
  {
    ReachableIsGood(now, cfg, before);
    BootIsGood(now, cfg);
    RunIsPunctual(Boot(now, cfg), before);
    var s := RunTo(Boot(now, cfg), before);
    hide Inv, RunTo, CanRun;
    TurnFrom(s, wid);
  }

  lemma TurnFrom(s: State, wid: nat)
    requires wid in s.waiters && s.waiters[wid].pc == PollVerdict && Punctual(s)
    ensures var rid := s.waiters[wid].rid;
      var v := Verdict(s.disk, rid);
      var turn := Polls(wid, if v.Some? then 1 else if CancelInfo(s.disk, rid).Some? then 2 else 3);
      && CanRun(s, turn)
      && var s' := RunTo(s, turn);
         && wid in s'.waiters && s'.disk == s.disk
         && s'.waiters[wid].pc ==
              (if v.Some? then Decided(v.value.decision)
               else if CancelInfo(s.disk, rid).Some? then Decided(Cancelled)
               else if s.now > s.disk.recs[rid].petition.expires then Decided(Timeout)
               else PollClient)
  {
    var w := s.waiters[wid];
    var s1 := Apply(s, Act(wid, Poll));
    assert CanRun(s1, []) && RunTo(s1, []) == s1;
    if Verdict(s.disk, w.rid).Some? {
      assert s1.waiters[wid].pc == Decided(Verdict(s.disk, w.rid).value.decision) && s1.disk == s.disk;
      PollOnce(s, wid, []);
      assert Polls(wid, 1) == [Act(wid, Poll)] + Polls(wid, 0);
    } else {
      assert s1.disk == s.disk && s1.now == s.now && s1.waiters[wid] == w.(pc := PollCancel);
      var s2 := Apply(s1, Act(wid, Poll));
      assert CanRun(s2, []) && RunTo(s2, []) == s2;
      assert Polls(wid, 2) == [Act(wid, Poll)] + Polls(wid, 1) && Polls(wid, 1) == [Act(wid, Poll)] + Polls(wid, 0);
      if CancelInfo(s.disk, w.rid).Some? {
        assert s2.waiters[wid].pc == Decided(Cancelled) && s2.disk == s.disk;
        PollOnce(s1, wid, []);
        PollOnce(s, wid, Polls(wid, 1));
      } else {
        assert s2.disk == s.disk && s2.now == s.now && s2.waiters[wid] == w.(pc := PollClock);
        var s3 := Apply(s2, Act(wid, Poll));
        assert CanRun(s3, []) && RunTo(s3, []) == s3 && s3.disk == s.disk;
        assert Polls(wid, 3) == [Act(wid, Poll)] + Polls(wid, 2);
        PollOnce(s2, wid, []);
        PollOnce(s1, wid, Polls(wid, 1));
        PollOnce(s, wid, Polls(wid, 2));
      }
    }
    hide Apply, Enabled;
  }

  // ----- What is then on file ------------------------------------------------------------------------

  function AllFiled(d: Disk, todo: seq<(Rid, RunResult)>): Disk
    decreases |todo|
  {
    if todo == [] then d else AllFiled(SaveResult(d, todo[0].0, todo[0].1.exit, todo[0].1.output), todo[1..])
  }

  /** The disk once a waiter has filed and recorded what it holds at `pc`. */
  function Filing(d: Disk, rid: Rid, pc: Pc): Disk {
    match pc
    case File(filed, after) => AllFiled(d.(verdicts := WriteOnce(d.verdicts, rid, VerdictRecord(filed, ""))), after)
    case Report(todo) => AllFiled(d, todo)
    case _ => d
  }

  lemma FiledPair(d: Disk, a: (Rid, RunResult), b: (Rid, RunResult))
    ensures AllFiled(d, [a]) == SaveResult(d, a.0, a.1.exit, a.1.output)
    ensures AllFiled(d, [a, b]) == SaveResult(SaveResult(d, a.0, a.1.exit, a.1.output), b.0, b.1.exit, b.1.output)
    ensures [a] + [] == [a] && [a] + [b] == [a, b]
  {
    assert [a][1..] == [] && [a, b][1..] == [b];
    var d1 := SaveResult(d, a.0, a.1.exit, a.1.output);
    assert AllFiled(d1, [b]) == AllFiled(SaveResult(d1, b.0, b.1.exit, b.1.output), [b][1..]);
  }

  /** The status word of a wait that was not approved. */
  function WordOf(dec: Decision): string {
    match dec
    case Approve => "completed"
    case Deny => "denied"
    case Cancelled => "cancelled"
    case Timeout => "timeout"
    case ConfirmationTimeout => "timeout"
    case ClientAborted => "client_aborted"
  }

  /** The decision is what the verdict file says, or there is no such file: then the deadline has passed
      or the caller, still connected until then, has left. */
  predicate Grounded(d: Disk, w: Waiter, dec: Decision, time: int)
    requires w.rid in d.recs
  {
    && dec != Approve && CancelInfo(d, w.rid).None?
    && if w.rid in d.verdicts then Verdict(d, w.rid).Some? && Verdict(d, w.rid).value.decision == dec
       else
         || (dec == Timeout && d.recs[w.rid].petition.expires <= time)
         || (dec == ClientAborted && w.origin == Foreground)
  }

  /** The result text of such a wait. */
  function TextOf(w: Waiter, dec: Decision): string {
    if Chained(w) then
      match dec
      case Cancelled => "cancelled"
      case Timeout => "confirmation_timeout"
      case ConfirmationTimeout => "confirmation_timeout"
      case ClientAborted => "client_aborted"
      case _ => ""
    else if dec == Cancelled && w.origin != Adopted then "cancelled"
    else if dec == ClientAborted && w.origin == Foreground then "client_aborted"
    else ""
  }

  /** What a waiter leaves that closes its petition: a verdict file for some endings if there was none, and
      one and the same result on the petition and, for a confirmation, on its parent. */
  lemma CloseFiles(d: Disk, w: Waiter, dec: Decision)
    requires dec != Approve
    ensures var d' := Filing(d, w.rid, Close(w, dec));
      && d'.recs == d.recs && d'.cancels == d.cancels
      && (d'.verdicts == d.verdicts
          || (w.rid !in d.verdicts && dec != Deny
              && d'.verdicts == d.verdicts[w.rid := Holds(VerdictRecord(if dec == ConfirmationTimeout then Timeout
                 else dec, ""))]))
      && (w.rid !in d.verdicts && dec == ClientAborted && w.origin == Foreground ==> w.rid in d'.verdicts)
      && (w.rid !in d.verdicts && Chained(w) && dec == Timeout ==> w.rid in d'.verdicts)
      && var res := RunResult(-1, TextOf(w, dec));
         d'.results == if Chained(w) then d.results[w.rid := res][w.root := res] else d.results[w.rid := res]
  {
    var text := TextOf(w, dec);
    FiledPair(d, Denied(w.rid, text), Denied(w.root, text));
    FiledPair(d.(verdicts := WriteOnce(d.verdicts, w.rid,
      VerdictRecord(if dec == ConfirmationTimeout then Timeout else dec, ""))),
      Denied(w.rid, text), Denied(w.root, text));
    hide AllFiled;
  }

  lemma WordReads(d: Disk, files: seq<Rid>, rid: Rid, time: int, dec: Decision)
    requires rid in d.recs && d.recs[rid].petition.kind == Exec && CancelInfo(d, rid).None? && dec != Approve
    requires rid in d.results && d.results[rid].exit == -1
    requires d.results[rid].output == "" ||
             (dec == Cancelled && d.results[rid].output == "cancelled") ||
             (dec in {Timeout, ConfirmationTimeout} && d.results[rid].output == "confirmation_timeout") ||
             (dec == ClientAborted && d.results[rid].output == "client_aborted")
    requires Verdict(d, rid).Some? && WordOf(Verdict(d, rid).value.decision) == WordOf(dec)
    ensures Status(d, files, rid, time).status == WordOf(dec)
  {
    Words();
    StatusIs(d, files, rid, time);
    PlainTexts();
    hide Status, Drifted, DriftOf, FindConfirmation;
  }

  lemma Words()
    ensures "completed"[1] == 'o' && "denied"[1] == 'e' && "cancelled"[1] == 'a' && "timeout"[1] == 'i'
    ensures "client_aborted"[1] == 'l' && "confirmation_timeout"[1] == 'o'
  {
  }

  lemma UnfiledReads(d: Disk, files: seq<Rid>, rid: Rid, time: int)
    requires rid in d.recs && d.recs[rid].petition.kind == Exec && CancelInfo(d, rid).None? && rid !in d.verdicts
    requires d.recs[rid].petition.expires <= time
    ensures Status(d, files, rid, time).status == "timeout"
  {
    StatusIs(d, files, rid, time);
    PlainTexts();
    hide Status, Drifted, DriftOf;
  }

  lemma ParentReads(d: Disk, files: seq<Rid>, c: Rid, p: Rid, time: int, dec: Decision)
    requires Families(d) && Lists(d, files) && ChildOf(d, c, p) && d.recs[p].petition.kind == Exec && dec != Approve
    requires CancelInfo(d, c).None? && CancelInfo(d, p).None?
    requires p in d.results && d.results[p].exit == -1
    requires (dec == Deny && d.results[p].output == "") ||
             (dec == Cancelled && d.results[p].output == "cancelled") ||
             (dec in {Timeout, ConfirmationTimeout} && d.results[p].output == "confirmation_timeout") ||
             (dec == ClientAborted && d.results[p].output == "client_aborted")
    requires Verdict(d, c).Some? && WordOf(Verdict(d, c).value.decision) == WordOf(dec)
    ensures Status(d, files, p, time).status == WordOf(dec)
  {
    Words();
    FindIgnoresOrder(d, files, files, p);
    StatusIs(d, files, p, time);
    PlainTexts();
    hide Status, Drifted, DriftOf, FindConfirmation, Lists;
  }

  /** When a waiter has closed a petition that was not approved and nobody cancelled, status reads what it
      decided: on the petition, and for a confirmation on its parent, too. */
  lemma ClosedReads(d: Disk, w: Waiter, dec: Decision, files: seq<Rid>, time: int)
    requires Families(d) && Lists(d, files) && w.rid in d.recs && d.recs[w.rid].petition.kind == Exec
    requires Grounded(d, w, dec, time)
    requires Chained(w) ==>
               ChildOf(d, w.rid, w.root) && w.rid != w.root && d.recs[w.root].petition.kind == Exec
                 && CancelInfo(d, w.root).None?
    ensures var d' := Filing(d, w.rid, Close(w, dec));
      && Status(d', files, w.rid, time).status == WordOf(dec)
      && (Chained(w) ==> Status(d', files, w.root, time).status == WordOf(dec))
  {
    var d' := Filing(d, w.rid, Close(w, dec));
    CloseFiles(d, w, dec);
    hide Filing, Close, Status, Families, Lists;
    Words();
    if w.rid in d'.verdicts {
      WordReads(d', files, w.rid, time, dec);
    } else {
      UnfiledReads(d', files, w.rid, time);
    }
    if Chained(w) {
      FamiliesStay(d, d', files, w.rid);
      ParentReads(d', files, w.rid, w.root, time, dec);
    }
  }

  lemma FamiliesStay(d: Disk, d': Disk, files: seq<Rid>, rid: Rid)
    requires Families(d) && Lists(d, files) && d'.recs == d.recs
    requires forall r | Verdict(d, r).Some? :: Verdict(d', r) == Verdict(d, r)
    ensures Families(d') && Lists(d', files)
    ensures forall c, p :: ChildOf(d', c, p) == ChildOf(d, c, p)
  {
    assert forall c, p :: ChildOf(d', c, p) == ChildOf(d, c, p);
  }

  /** In the machine: from the branch on a decision other than an approval the waiter holds just that. */
  lemma BranchCloses(s: State, wid: nat)
    requires wid in s.waiters && s.waiters[wid].pc.Decided? && s.waiters[wid].pc.decision != Approve
    ensures Enabled(s, Act(wid, Branch))
    ensures Apply(s, Act(wid, Branch)).waiters[wid].pc == Close(s.waiters[wid], s.waiters[wid].pc.decision)
  {
  }

  // ----- What a confirmation takes over ---------------------------------------------------------------

  /** A confirmation is filed for the command, user and directory its waiter was handed, with the deadline it
      waits for, and takes over the card and the pin that its parent's record had when it was loaded. */
  lemma ConfirmationTakesOver(s: State, wid: nat, child: Rid, expires: int, git: int, fd: int, seal: int)
    requires wid in s.waiters && s.waiters[wid].pc.ConfirmLoad? && s.waiters[wid].rid in s.disk.recs
          && Unused(s.disk, child)
    ensures Enabled(s, Act(wid, ConfirmLoads))
    ensures var s1 := Apply(s, Act(wid, ConfirmLoads)); var saves := Act(wid,
          ConfirmSaves(child, expires, git, fd, seal));
      && Enabled(s1, saves)
      && var w, parent, s2 := s.waiters[wid], s.disk.recs[s.waiters[wid].rid], Apply(s1, saves);
         && child in s2.disk.recs && s2.waiters[wid].rid == child && s2.waiters[wid].expires == expires
         && var rec := s2.disk.recs[child];
            && rec.suspend == parent.suspend && rec.chatId == parent.chatId && rec.msgId == parent.msgId
            && rec.petition.confirmOf == Some(w.rid) && rec.petition.expires == expires
            && rec.petition.argv == w.argv && rec.petition.uid == w.uid && rec.petition.cwd == w.cwd
  {
    hide Close, Refuse, Finish;
  }

  // ----- What a run leaves ---------------------------------------------------------------------------

  /** A run leaves its exit code and its output, cut to size, on the petition and on the one it confirms. */
  lemma RunLeavesResult(s: State, wid: nat, m: Move)
    requires wid in s.waiters && MoveEnabled(s, s.waiters[wid], m) && (m.Spawns? || m.Declines?)
    ensures var w := s.waiters[wid];
      var d' := Filing(s.disk, w.rid, Apply(s, Act(wid, m)).waiters[wid].pc);
      var res := RunResult(m.exit, Truncated(m.output));
      && d'.recs == s.disk.recs && d'.verdicts == s.disk.verdicts && d'.cancels == s.disk.cancels
      && d'.results == if Chained(w) then s.disk.results[w.rid := res][w.root := res] else s.disk.results[w.rid := res]
  {
    var w := s.waiters[wid];
    FiledPair(s.disk, (w.rid, RunResult(m.exit, m.output)), (w.root, RunResult(m.exit, m.output)));
    hide AllFiled, Truncated;
  }

  /** A refused run leaves the reason, and a plain zero on the one it confirms. */
  lemma RefusalLeavesReason(s: State, wid: nat, reason: string)
    requires wid in s.waiters && MoveEnabled(s, s.waiters[wid], Blocks(reason))
    ensures var w := s.waiters[wid];
      var d' := Filing(s.disk, w.rid, Apply(s, Act(wid, Blocks(reason))).waiters[wid].pc);
      var res := RunResult(-1, Truncated(reason));
      d'.results == if Chained(w) then s.disk.results[w.rid := res][w.root := RunResult(0, "")]
        else s.disk.results[w.rid := res]
  {
    var w := s.waiters[wid];
    FiledPair(s.disk, (w.rid, RunResult(-1, reason)), (w.root, RunResult(0, "")));
    assert Truncated("") == "";
    hide AllFiled, Truncated;
  }
}
