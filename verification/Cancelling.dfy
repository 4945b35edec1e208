/** The cancel call, as one step among store operations that are each one step, and what its
    positive answer promises. */
module Cancelling {
  import opened Records
  import opened Protocol
  import opened Invariant
  import opened Preserve
  import opened Guarantees
  import opened Queries

  // ----- The call ------------------------------------------------------------------------------------

  datatype CancelResponse = CancelResponse(cancelled: bool, error: string)

  /** Who calls, the daemon's own uid, the cleaned attribution and the reason. */
  datatype CancelRequest = CancelRequest(rid: Rid, caller: nat, daemon: nat, who: string, reason: string)

  /** What the call answers, the disk it leaves, and the process groups it resumed. */
  datatype Outcome = Outcome(response: CancelResponse, disk: Disk, resumed: set<nat>)

  predicate IsAdmin(q: CancelRequest) {
    q.caller == 0 || q.caller == q.daemon
  }

  function Refusal(d: Disk, error: string): Outcome {
    Outcome(CancelResponse(false, error), d, {})
  }

  function AlreadyCancelled(d: Disk): Outcome {
    Outcome(CancelResponse(true, ""), d, {})
  }

  /** The store's own cancel: a write-once file beside an existing record. */
  function FileCancel(d: Disk, rid: Rid, c: CancelRecord): Disk {
    if rid in d.recs then d.(cancels := WriteOnce(d.cancels, rid, c)) else d
  }

  function Consume(d: Disk, rid: Rid, v: VerdictRecord): Disk {
    d.(verdicts := WriteOnce(d.verdicts, rid, v))
  }

  /** Cancelling one record: the cancel file, then the verdict if none was filed, then the result. */
  function CancelOne(d: Disk, rid: Rid, q: CancelRequest): Disk {
    SaveResult(
      Consume(FileCancel(d, rid, CancelRecord(q.who, q.reason)), rid, VerdictRecord(Cancelled, q.who)),
      rid, -1, "cancelled")
  }

  /** A cancel already on record for this petition, its parent or its confirmation. */
  predicate KnownCancelled(d: Disk, dir: seq<Rid>, rid: Rid)
    requires rid in d.recs
  {
    var p := d.recs[rid].petition;
    || CancelInfo(d, rid).Some?
    || (Verdict(d, rid).Some? && Verdict(d, rid).value.decision == Cancelled)
    || (p.step == Confirm && p.confirmOf.Some? && CancelInfo(d, p.confirmOf.value).Some?)
    || (p.step == Initial && FindConfirmation(d, dir, rid).Some?
        && CancelInfo(d, FindConfirmation(d, dir, rid).value).Some?)
  }

  function CancelScratch(d: Disk, q: CancelRequest, decided: bool, error: string, now: int): Outcome
    requires q.rid in d.recs
  {
    if decided then Refusal(d, error)
    else if d.recs[q.rid].petition.expires <= now then Refusal(d, "already expired")
    else Outcome(CancelResponse(true, ""), FileCancel(d, q.rid, CancelRecord(q.who, q.reason)), {})
  }

  function CancelConfirm(d: Disk, q: CancelRequest, now: int): Outcome
    requires q.rid in d.recs
  {
    var p := d.recs[q.rid].petition;
    var v := Verdict(d, q.rid);
    if v.Some? && v.value.decision != Cancelled then Refusal(d, "already decided")
    else if p.expires <= now then Refusal(d, "already expired")
    else if p.confirmOf.None? then Outcome(CancelResponse(true, ""), CancelOne(d, q.rid, q), StoredPin(d, q.rid))
    else
      var parent := p.confirmOf.value;
      Outcome(CancelResponse(true, ""), CancelOne(CancelOne(d, q.rid, q), parent, q),
              StoredPin(d, q.rid) + StoredPin(d, parent))
  }

  function CancelInitial(d: Disk, dir: seq<Rid>, q: CancelRequest, now: int): Outcome
    requires q.rid in d.recs
  {
    var v := Verdict(d, q.rid);
    if v.None? then
      if d.recs[q.rid].petition.expires <= now then Refusal(d, "already expired")
      else Outcome(CancelResponse(true, ""), CancelOne(d, q.rid, q), StoredPin(d, q.rid))
    else if v.value.decision == Deny then Refusal(d, "already denied")
    else if v.value.decision == Approve then
      var child := FindConfirmation(d, dir, q.rid);
      if child.None? || child.value !in d.recs then Refusal(d, "already executed")
      else
        var cv := Verdict(d, child.value);
        if cv.Some? && cv.value.decision != Cancelled then Refusal(d, "already decided")
        else if d.recs[child.value].petition.expires <= now then Refusal(d, "already expired")
        else
          Outcome(CancelResponse(true, ""), CancelOne(CancelOne(d, child.value, q), q.rid, q),
                  StoredPin(d, child.value) + StoredPin(d, q.rid))
    else Outcome(CancelResponse(true, ""), CancelOne(d, q.rid, q), StoredPin(d, q.rid))
  }

  function CancelOutcome(d: Disk, dir: seq<Rid>, q: CancelRequest, now: int): Outcome {
    if q.rid == "" then Refusal(d, "missing id")
    else if q.rid !in d.recs then Refusal(d, "not found")
    else
      var p := d.recs[q.rid].petition;
      if !IsAdmin(q) && q.caller != p.uid then Refusal(d, "unauthorized")
      else if KnownCancelled(d, dir, q.rid) then AlreadyCancelled(d)
      else if p.kind == Ask then
        CancelScratch(d, q, SelectionInfo(d, q.rid).Some?, "already decided", now)
      else if p.kind == Notify then
        CancelScratch(d, q, AckInfo(d, q.rid).Some?, "already acknowledged", now)
      else if p.step == Confirm then CancelConfirm(d, q, now)
      else CancelInitial(d, dir, q, now)
  }

  /** A call that is refused, or that finds the cancel already on record, leaves everything alone. */
  lemma RefusalChangesNothing(d: Disk, dir: seq<Rid>, q: CancelRequest, now: int)
    ensures var o := CancelOutcome(d, dir, q, now);
      !o.response.cancelled || (q.rid in d.recs && KnownCancelled(d, dir, q.rid)) ==> o.disk == d && o.resumed == {}
  {
  }

  // ----- Who may cancel ------------------------------------------------------------------------------

  /** Neither root, nor the daemon's own user, nor the one who filed the petition. */
  predicate Stranger(d: Disk, q: CancelRequest)
    requires q.rid in d.recs
  {
    q.caller != 0 && q.caller != q.daemon && q.caller != d.recs[q.rid].petition.uid
  }

  /** A call for a stored petition is turned away as unauthorized exactly if it comes from a stranger, and
      then nothing is cancelled, written or resumed, whatever state the petition is in. */
  lemma UnauthorizedIff(d: Disk, dir: seq<Rid>, q: CancelRequest, now: int)
    requires q.rid != "" && q.rid in d.recs
    ensures var o := CancelOutcome(d, dir, q, now);
      && (o.response.error == "unauthorized" <==> Stranger(d, q))
      && (Stranger(d, q) ==> !o.response.cancelled && o.disk == d && o.resumed == {})
  {
    assert "already decided"[0] != "unauthorized"[0] && "already expired"[0] != "unauthorized"[0];
    assert "already acknowledged"[0] != "unauthorized"[0] && "already denied"[0] != "unauthorized"[0];
    assert "already executed"[0] != "unauthorized"[0];
    hide KnownCancelled, CancelOne, FindConfirmation;
  }

  lemma UnknownIsNotFound(d: Disk, dir: seq<Rid>, q: CancelRequest, now: int)
    requires q.rid == "" || q.rid !in d.recs
    ensures CancelOutcome(d, dir, q, now).response.error != "unauthorized"
  {
    assert "missing id"[0] != "unauthorized"[0] && "not found"[0] != "unauthorized"[0];
  }

  // ----- What it leaves ------------------------------------------------------------------------------

  lemma UnknownIsRefused(d: Disk, dir: seq<Rid>, q: CancelRequest, now: int)
    ensures q.rid !in d.recs ==> !CancelOutcome(d, dir, q, now).response.cancelled
  {
  }

  /** Files are only added, with what the call says; everything but the results is otherwise kept. */
  ghost predicate Adds(d: Disk, d': Disk, q: CancelRequest) {
    && d'.recs == d.recs && d'.acks == d.acks && d'.selections == d.selections
    && (forall r | r in d.verdicts :: r in d'.verdicts && d'.verdicts[r] == d.verdicts[r])
    && (forall r | r in d.cancels :: r in d'.cancels && d'.cancels[r] == d.cancels[r])
    && (forall r | r in d'.verdicts && r !in d.verdicts ::
       d'.verdicts[r].Holds? && d'.verdicts[r].content.decision == Cancelled)
    && (forall r | r in d'.cancels && r !in d.cancels :: d'.cancels[r] == Holds(CancelRecord(q.who, q.reason)))
  }

  /** The reason that is on the petition's cancel file after a call: an earlier one, or the call's. */
  function FiledReason(d: Disk, rid: Rid, q: CancelRequest): string {
    if CancelInfo(d, rid).Some? then CancelInfo(d, rid).value.reason else q.reason
  }

  lemma AddsTwice(a: Disk, b: Disk, c: Disk, q: CancelRequest)
    requires Adds(a, b, q) && Adds(b, c, q)
    ensures Adds(a, c, q)
  {
  }

  lemma OneAdds(d: Disk, rid: Rid, q: CancelRequest)
    ensures Adds(d, CancelOne(d, rid, q), q)
    ensures rid in CancelOne(d, rid, q).verdicts && (rid in d.recs ==> rid in CancelOne(d, rid, q).cancels)
    ensures rid in CancelOne(d, rid, q).results && CancelOne(d, rid, q).results[rid].output == "cancelled"
    ensures forall r | r != rid && r in d.results ::
          r in CancelOne(d, rid, q).results && CancelOne(d, rid, q).results[r] == d.results[r]
  {
  }

  lemma ConfirmAdds(d: Disk, q: CancelRequest, now: int)
    requires q.rid in d.recs
    ensures Adds(d, CancelConfirm(d, q, now).disk, q)
  {
    hide CancelOne, Adds;
    SameAdds(d, q);
    OneAdds(d, q.rid, q);
    if d.recs[q.rid].petition.confirmOf.Some? {
      var parent := d.recs[q.rid].petition.confirmOf.value;
      var mid := CancelOne(d, q.rid, q);
      OneAdds(mid, parent, q);
      AddsTwice(d, mid, CancelOne(mid, parent, q), q);
    }
  }

  lemma SameAdds(d: Disk, q: CancelRequest)
    ensures Adds(d, d, q)
  {
  }

  lemma InitialAdds(d: Disk, dir: seq<Rid>, q: CancelRequest, now: int)
    requires q.rid in d.recs
    ensures Adds(d, CancelInitial(d, dir, q, now).disk, q)
  {
    hide CancelOne, Adds;
    SameAdds(d, q);
    OneAdds(d, q.rid, q);
    var child := FindConfirmation(d, dir, q.rid);
    if child.Some? {
      var mid := CancelOne(d, child.value, q);
      OneAdds(d, child.value, q);
      OneAdds(mid, q.rid, q);
      AddsTwice(d, mid, CancelOne(mid, q.rid, q), q);
    }
  }

  /** What the call can leave on disk. */
  lemma CallDisks(d: Disk, dir: seq<Rid>, q: CancelRequest, now: int)
    ensures var d' := CancelOutcome(d, dir, q, now).disk;
      || d' == d
      || (q.rid in d.recs
          && ((d.recs[q.rid].petition.kind != Exec && d' == FileCancel(d, q.rid, CancelRecord(q.who, q.reason)))
              || d' == CancelConfirm(d, q, now).disk || d' == CancelInitial(d, dir, q, now).disk))
  {
    hide CancelConfirm, CancelInitial, KnownCancelled, FileCancel;
  }

  lemma CallAdds(d: Disk, dir: seq<Rid>, q: CancelRequest, now: int)
    ensures Adds(d, CancelOutcome(d, dir, q, now).disk, q)
  {
    SameAdds(d, q);
    CallDisks(d, dir, q, now);
    if q.rid in d.recs {
      ConfirmAdds(d, q, now);
      InitialAdds(d, dir, q, now);
      ScratchAdds(d, q);
    }
    hide Adds, CancelOutcome, CancelConfirm, CancelInitial, FileCancel;
  }

  lemma ScratchAdds(d: Disk, q: CancelRequest)
    ensures Adds(d, FileCancel(d, q.rid, CancelRecord(q.who, q.reason)), q)
  {
  }

  // ----- Operations that are one step each ---------------------------------------------------------------

  /** A coarser grain: every store operation, and the whole cancel call, happens at once. */
  datatype Op =
    | Small(step: Step)
    | Answer(rid: Rid, slip: Slip)
    | WaiterFiles(wid: nat)
    | CancelCall(request: CancelRequest, dir: seq<Rid>)

  /** Steps that are not part of a larger operation. */
  predicate Whole(st: Step) {
    match st
    case Do(deed) => deed.Tick? || deed.Reconfigure? || deed.EditLoad? || deed.EditSave?
    case Act(_, m) => !m.Files?
    case _ => true
  }

  predicate OpEnabled(s: State, op: Op) {
    match op
    case Small(st) => Whole(st) && Enabled(s, st)
    case Answer(rid, slip) =>
      && SlipAllowed(s.disk, rid, slip) && !slip.CancelSlip?
      && (slip.VerdictSlip? ==> slip.verdict.decision == Approve || slip.verdict.decision == Deny)
    case WaiterFiles(wid) => wid in s.waiters && s.waiters[wid].pc.File?
    case CancelCall(_, dir) => Lists(s.disk, dir)
  }

  function Answered(d: Disk, rid: Rid, slip: Slip): Disk {
    match slip
    case VerdictSlip(v) => d.(verdicts := WriteOnce(d.verdicts, rid, v))
    case CancelSlip(c) => d.(cancels := WriteOnce(d.cancels, rid, c))
    case AckSlip(a) => d.(acks := WriteOnce(d.acks, rid, a))
    case SelectionSlip(x) => d.(selections := WriteOnce(d.selections, rid, x))
  }

  function Called(s: State, q: CancelRequest, dir: seq<Rid>): State {
    var o := CancelOutcome(s.disk, dir, q, s.now);
    s.(disk := o.disk, stopped := s.stopped - o.resumed)
  }

  function OpApply(s: State, op: Op): State
    requires OpEnabled(s, op)
  {
    match op
    case Small(st) => Apply(s, st)
    case Answer(rid, slip) => s.(disk := Answered(s.disk, rid, slip))
    case WaiterFiles(wid) =>
      var w := s.waiters[wid];
      Put(s.(disk := Consume(s.disk, w.rid, VerdictRecord(w.pc.filed, ""))), wid, w.(pc := Report(w.pc.after)))
    case CancelCall(q, dir) => Called(s, q, dir)
  }

  predicate CanDo(s: State, ops: seq<Op>)
    decreases |ops|
  {
    ops == [] || (OpEnabled(s, ops[0]) && CanDo(OpApply(s, ops[0]), ops[1..]))
  }

  function DoAll(s: State, ops: seq<Op>): State
    requires CanDo(s, ops)
    decreases |ops|
  {
    if ops == [] then s else DoAll(OpApply(s, ops[0]), ops[1..])
  }
}
