/** What `list`, `recent` and `status` read off the disk, and that the three agree. */
module Queries {
  import opened Records
  import opened Protocol
  import opened Invariant

  // ----- Confirmation lookup ---------------------------------------------------------------------

  /** The first record of a directory listing that confirms `parent`. */
  function FindConfirmation(d: Disk, dir: seq<Rid>, parent: Rid): Option<Rid> {
    if dir == [] then None
    else if ChildOf(d, dir[0], parent) then Some(dir[0])
    else FindConfirmation(d, dir[1..], parent)
  }

  /** A listing names every stored record, in some order, and perhaps files that do not parse. */
  predicate Lists(d: Disk, dir: seq<Rid>) {
    forall r | r in d.recs :: r in dir
  }

  lemma {:induction false} FoundIsChild(d: Disk, dir: seq<Rid>, parent: Rid)
    ensures match FindConfirmation(d, dir, parent)
            case Some(c) => c in dir && ChildOf(d, c, parent)
            case None => forall r | r in dir :: !ChildOf(d, r, parent)
  {
    if dir != [] && !ChildOf(d, dir[0], parent) {
      FoundIsChild(d, dir[1..], parent);
    }
  }

  /** Whatever order the directory is read in, the same confirmation is found. */
  lemma FindIgnoresOrder(d: Disk, dir: seq<Rid>, dir': seq<Rid>, parent: Rid)
    requires Families(d) && Lists(d, dir) && Lists(d, dir')
    ensures FindConfirmation(d, dir, parent) == FindConfirmation(d, dir', parent)
    ensures forall c :: FindConfirmation(d, dir, parent) == Some(c) <==> ChildOf(d, c, parent)
  {
    FoundIsChild(d, dir, parent);
    FoundIsChild(d, dir', parent);
  }

  // ----- Status ------------------------------------------------------------------------------------

  const WORD := "cancelled"

  datatype StatusResponse = StatusResponse(status: string, decision: string, exit: int, output: string)

  function DecisionName(d: Decision): string {
    match d
    case Approve => "approve"
    case Deny => "deny"
    case Cancelled => "cancelled"
    case Timeout => "timeout"
    case ConfirmationTimeout => "confirmation_timeout"
    case ClientAborted => "client_aborted"
  }

  function CancelledStatus(c: CancelRecord): StatusResponse {
    StatusResponse("cancelled", "cancelled", -1, c.reason)
  }

  function Waiting(rec: PendingRecord, now: int): StatusResponse {
    StatusResponse(if rec.petition.expires > now then "pending" else "timeout", "", -1, "")
  }

  function AskStatus(d: Disk, rid: Rid, now: int): StatusResponse
    requires rid in d.recs
  {
    if CancelInfo(d, rid).Some? then CancelledStatus(CancelInfo(d, rid).value)
    else if SelectionInfo(d, rid).Some? then StatusResponse("selected", "select", -1, "")
    else Waiting(d.recs[rid], now)
  }

  function NotifyStatus(d: Disk, rid: Rid, now: int): StatusResponse
    requires rid in d.recs
  {
    if CancelInfo(d, rid).Some? then CancelledStatus(CancelInfo(d, rid).value)
    else if AckInfo(d, rid).Some? then StatusResponse("acked", "ack", -1, "")
    else Waiting(d.recs[rid], now)
  }

  predicate IsInitial(rec: PendingRecord) {
    rec.petition.step != Confirm
  }

  /** Decided, but no result file yet. */
  function UnfinishedStatus(d: Disk, dir: seq<Rid>, rid: Rid, v: VerdictRecord): StatusResponse
    requires rid in d.recs
  {
    if v.decision == Cancelled then StatusResponse("cancelled", "cancelled", -1, "")
    else if v.decision == Approve then
      var child := if IsInitial(d.recs[rid]) then FindConfirmation(d, dir, rid) else None;
      if child.Some? && CancelInfo(d, child.value).Some? then CancelledStatus(CancelInfo(d, child.value).value)
      else if child.Some? && Verdict(d, child.value).None? then StatusResponse("confirming", "approve", -1, "")
      else StatusResponse("running", "approve", -1, "")
    else StatusResponse(DecisionName(v.decision), DecisionName(v.decision), -1, "")
  }

  /** Decided, with a result file: the sentinel outputs override the verdict. */
  function FinishedStatus(d: Disk, dir: seq<Rid>, rid: Rid, v: VerdictRecord, r: RunResult): StatusResponse {
    if v.decision == Deny then StatusResponse("denied", "deny", r.exit, r.output)
    else if v.decision == Cancelled || r.output == "cancelled" then
      StatusResponse("cancelled", "cancelled", r.exit, r.output)
    else if v.decision == Timeout || v.decision == ConfirmationTimeout || r.output == "confirmation_timeout" then
      StatusResponse("timeout",
                     if r.output == "confirmation_timeout" then "confirmation_timeout" else DecisionName(v.decision),
                     r.exit, r.output)
    else if v.decision == ClientAborted || r.output == "client_aborted" then
      StatusResponse("client_aborted",
                     if r.output == "client_aborted" then "client_aborted" else DecisionName(v.decision),
                     r.exit, r.output)
    else if r.exit == -1 && FindConfirmation(d, dir, rid).Some? then
      ChildStatus(d, FindConfirmation(d, dir, rid).value, v, r)
    else StatusResponse("completed", DecisionName(v.decision), r.exit, r.output)
  }

  /** A run that left no exit code reads as its confirmation went. */
  function ChildStatus(d: Disk, child: Rid, v: VerdictRecord, r: RunResult): StatusResponse {
    if CancelInfo(d, child).Some? then
      var reason := CancelInfo(d, child).value.reason;
      StatusResponse("cancelled", "cancelled", r.exit, if reason != "" then reason else r.output)
    else if Verdict(d, child).Some? then
      var cv := Verdict(d, child).value.decision;
      var status :=
        match cv
        case Deny => "denied"
        case Timeout => "timeout"
        case ConfirmationTimeout => "timeout"
        case ClientAborted => "client_aborted"
        case Cancelled => "cancelled"
        case Approve => "completed";
      StatusResponse(status, DecisionName(cv), r.exit, r.output)
    else StatusResponse("completed", DecisionName(v.decision), r.exit, r.output)
  }

  /** What the store reads off the disk. */
  function StoreStatus(d: Disk, dir: seq<Rid>, rid: Rid, now: int): StatusResponse {
    if rid !in d.recs then StatusResponse("not_found", "", -1, "")
    else match d.recs[rid].petition.kind
      case Ask => AskStatus(d, rid, now)
      case Notify => NotifyStatus(d, rid, now)
      case Exec =>
        if CancelInfo(d, rid).Some? then CancelledStatus(CancelInfo(d, rid).value)
        else if Verdict(d, rid).None? then Waiting(d.recs[rid], now)
        else if rid !in d.results then UnfinishedStatus(d, dir, rid, Verdict(d, rid).value)
        else FinishedStatus(d, dir, rid, Verdict(d, rid).value, d.results[rid])
  }

  /** An output that starts like a drift gate's, at exit code -1, reads as a denial. */
  function DriftMarked(st: StatusResponse, drift: string): StatusResponse {
    if st.output != "" && drift + ":" <= st.output && st.exit == -1 then st.(status := "denied", decision := drift)
      else st
  }

  /** What the daemon answers: the store's response, after a look at its output for each kind of drift. */
  function Status(d: Disk, dir: seq<Rid>, rid: Rid, now: int): StatusResponse {
    DriftMarked(DriftMarked(DriftMarked(StoreStatus(d, dir, rid, now), "git-drift"), "fd-drift"), "seal-drift")
  }

  /** The kind of drift a blocked run's text begins with. */
  function DriftOf(text: string): string {
    if "git-drift:" <= text then "git-drift" else if "fd-drift:" <= text then "fd-drift" else "seal-drift"
  }

  /** How a cancelled petition reads, by the reason on file. */
  function ReasonWord(reason: string): string {
    if Drifted(reason) then "denied" else "cancelled"
  }

  predicate Blocked(st: StatusResponse) {
    st.exit == -1 && Drifted(st.output)
  }

  lemma StatusIs(d: Disk, dir: seq<Rid>, rid: Rid, now: int)
    ensures var st := StoreStatus(d, dir, rid, now);
      Status(d, dir, rid, now) == if Blocked(st) then st.(status := "denied", decision := DriftOf(st.output)) else st
  {
    hide StoreStatus;
    var text := StoreStatus(d, dir, rid, now).output;
    DriftNames();
    DriftStarts(text);
  }

  lemma DriftNames()
    ensures "git-drift" + ":" == "git-drift:"
    ensures "fd-drift" + ":" == "fd-drift:"
    ensures "seal-drift" + ":" == "seal-drift:"
  {
  }

  lemma DriftStarts(text: string)
    ensures "git-drift:" <= text ==> text[0] == 'g'
    ensures "fd-drift:" <= text ==> text[0] == 'f'
    ensures "seal-drift:" <= text ==> text[0] == 's'
    ensures Drifted(text) ==> text != "" && text[0] in {'g', 'f', 's'}
  {
    assert "git-drift:"[0] == 'g' && "fd-drift:"[0] == 'f' && "seal-drift:"[0] == 's';
  }

  /** Texts that no gate writes. */
  lemma PlainTexts()
    ensures !Drifted("") && !Drifted("cancelled") && !Drifted("confirmation_timeout") && !Drifted("client_aborted")
    ensures !Drifted(LOST_RECORD) && !Drifted("timeout")
  {
    DriftStarts("cancelled");
    DriftStarts("confirmation_timeout");
    DriftStarts("client_aborted");
    DriftStarts(LOST_RECORD);
    DriftStarts("timeout");
    assert "cancelled"[0] == 'c' && "confirmation_timeout"[0] == 'c' && "client_aborted"[0] == 'c';
    assert LOST_RECORD[0] == 'l' && "timeout"[0] == 't';
  }

  /** A status word other than the denial is the store's, where no drift is marked. */
  lemma WordIs(d: Disk, dir: seq<Rid>, rid: Rid, now: int, word: string)
    requires word != "denied"
    ensures Status(d, dir, rid, now).status == word <==>
            StoreStatus(d, dir, rid, now).status == word && !Blocked(StoreStatus(d, dir, rid, now))
  {
    StatusIs(d, dir, rid, now);
    hide StoreStatus, Status, Blocked, DriftOf;
  }

  /** A cancel file decides how any petition reads, by the reason on it. */
  lemma CancelFileReads(d: Disk, dir: seq<Rid>, rid: Rid, now: int)
    requires rid in d.recs && CancelInfo(d, rid).Some?
    ensures Status(d, dir, rid, now).status == ReasonWord(CancelInfo(d, rid).value.reason)
  {
    StatusIs(d, dir, rid, now);
    hide Status, Drifted;
  }

  /** The decision `recent` shows for one file group, or nothing when it skips the group. */
  function RecentDecision(d: Disk, dir: seq<Rid>, rid: Rid): Option<string> {
    if rid !in d.recs then None
    else if CancelInfo(d, rid).Some? then Some("cancelled")
    else if AckInfo(d, rid).Some? then Some("ack")
    else if Verdict(d, rid).None? then
      if SelectionInfo(d, rid).Some? then Some("select") else None
    else
      var v := Verdict(d, rid).value.decision;
      var r := if rid in d.results then d.results[rid] else RunResult(-1, "");
      var child := FindConfirmation(d, dir, rid);
      if r.exit != -1 then Some(DecisionName(v))
      else if r.output == "confirmation_timeout" then Some("timeout")
      else if r.output == "client_aborted" then Some("client_aborted")
      else if r.output == "cancelled" then Some("cancelled")
      else if child.Some? && CancelInfo(d, child.value).Some? then Some("cancelled")
      else if child.Some? && Verdict(d, child.value).Some? then
        Some(DecisionName(Verdict(d, child.value).value.decision))
      else Some(DecisionName(v))
  }

  // ----- Agreement -------------------------------------------------------------------------------

  lemma UnfinishedIsDecided(d: Disk, dir: seq<Rid>, rid: Rid, v: VerdictRecord)
    requires rid in d.recs
    ensures UnfinishedStatus(d, dir, rid, v).status != "pending"
  {
    match v.decision {
      case Approve =>
      case Deny => assert "deny"[0] != "pending"[0];
      case Cancelled =>
      case Timeout => assert "timeout"[0] != "pending"[0];
      case ConfirmationTimeout => assert "confirmation_timeout"[0] != "pending"[0];
      case ClientAborted => assert "client_aborted"[0] != "pending"[0];
    }
  }

  lemma FinishedIsDecided(d: Disk, dir: seq<Rid>, rid: Rid, v: VerdictRecord, r: RunResult)
    ensures FinishedStatus(d, dir, rid, v, r).status != "pending"
  {
    assert "denied"[0] != "pending"[0] && "timeout"[0] != "pending"[0] && "cancelled"[0] != "pending"[0];
    assert "client_aborted"[0] != "pending"[0] && "completed"[0] != "pending"[0];
  }

  /** A listed petition reads as pending, and a pending one is listed unless a verdict was filed on
      it; an executable petition with a verdict never reads as pending; and what is listed is not in
      the history. */
  lemma ListedIffPending(d: Disk, dir: seq<Rid>, rid: Rid, now: int)
    requires Shaped(d)
    ensures Listed(d, now, rid) <==> Status(d, dir, rid, now).status == "pending" && Verdict(d, rid).None?
    ensures rid in d.recs && d.recs[rid].petition.kind == Exec && Status(d, dir, rid, now).status == "pending"
            ==> Verdict(d, rid).None?
    ensures Listed(d, now, rid) ==> RecentDecision(d, dir, rid).None?
  {
    assert "denied"[0] != "pending"[0];
    WordIs(d, dir, rid, now, "pending");
    PendingInStore(d, dir, rid, now);
    hide Status, StoreStatus;
  }

  lemma PendingInStore(d: Disk, dir: seq<Rid>, rid: Rid, now: int)
    ensures StoreStatus(d, dir, rid, now).status == "pending" ==> !Blocked(StoreStatus(d, dir, rid, now))
    ensures StoreStatus(d, dir, rid, now).status == "pending" <==>
            && rid in d.recs && CancelInfo(d, rid).None? && d.recs[rid].petition.expires > now
            && match d.recs[rid].petition.kind
               case Ask => SelectionInfo(d, rid).None?
               case Notify => AckInfo(d, rid).None?
               case Exec => Verdict(d, rid).None?
  {
    PlainTexts();
    hide Drifted;
    assert "timeout"[0] != "pending"[0] && "cancelled"[0] != "pending"[0] && "not_found"[0] != "pending"[0];
    assert "selected"[0] != "pending"[0] && "acked"[0] != "pending"[0];
    if rid in d.recs && Verdict(d, rid).Some? {
      UnfinishedIsDecided(d, dir, rid, Verdict(d, rid).value);
      if rid in d.results {
        FinishedIsDecided(d, dir, rid, Verdict(d, rid).value, d.results[rid]);
      }
    }
  }

  /** A confirmation on which the exit code -1 of a result makes status look: cancelled, or decided
      otherwise than by an approval. */
  predicate Overruled(d: Disk, dir: seq<Rid>, rid: Rid) {
    var child := FindConfirmation(d, dir, rid);
    && child.Some?
    && (CancelInfo(d, child.value).Some?
        || (Verdict(d, child.value).Some? && Verdict(d, child.value).value.decision != Approve))
  }

  /** A petition with a recorded result reads as completed exactly if its verdict is an approval, it is
      not cancelled, its output is none of three texts, and, where the exit code is -1, its output is not a
      drift gate's and its confirmation does not overrule it. */
  lemma CompletedIff(d: Disk, dir: seq<Rid>, rid: Rid, now: int)
    requires rid in d.recs && d.recs[rid].petition.kind == Exec && rid in d.results
    ensures var r := d.results[rid];
      Status(d, dir, rid, now).status == "completed" <==>
        && Approved(d, rid) && CancelInfo(d, rid).None?
        && r.output != "cancelled" && r.output != "confirmation_timeout" && r.output != "client_aborted"
        && !(r.exit == -1 && (Drifted(r.output) || Overruled(d, dir, rid)))
  {
    assert "denied"[0] != "completed"[0];
    WordIs(d, dir, rid, now, "completed");
    hide Status, Drifted;
    assert "pending"[0] != "completed"[0] && "timeout"[0] != "completed"[0] && "denied"[0] != "completed"[0];
    assert "cancelled"[1] != "completed"[1] && "client_aborted"[1] != "completed"[1];
  }

  /** An approved petition that is not cancelled and whose recorded run a drift gate blocked reads as denied
      for that drift. */
  lemma BlockedIsDenied(d: Disk, dir: seq<Rid>, rid: Rid, now: int)
    requires rid in d.recs && d.recs[rid].petition.kind == Exec && rid in d.results
    requires Approved(d, rid) && CancelInfo(d, rid).None?
    requires d.results[rid].exit == -1 && Drifted(d.results[rid].output)
    requires forall c | ChildOf(d, c, rid) :: CancelInfo(d, c).None?
    ensures var st := Status(d, dir, rid, now); st.status == "denied" && st.decision == DriftOf(d.results[rid].output)
  {
    StatusIs(d, dir, rid, now);
    FoundIsChild(d, dir, rid);
    PlainTexts();
    hide Drifted, DriftOf, Status;
  }

  /** What completed shows is the run's own exit code and output, under an approval. */
  lemma CompletedShows(d: Disk, dir: seq<Rid>, rid: Rid, now: int)
    requires Status(d, dir, rid, now).status == "completed"
    ensures rid in d.recs && rid in d.results
    ensures Status(d, dir, rid, now) == StatusResponse("completed", "approve", d.results[rid].exit,
          d.results[rid].output)
  {
    assert "denied"[0] != "completed"[0];
    WordIs(d, dir, rid, now, "completed");
    StatusIs(d, dir, rid, now);
    hide Status, Drifted;
    assert "pending"[0] != "completed"[0] && "timeout"[0] != "completed"[0] && "not_found"[0] != "completed"[0];
    assert "cancelled"[1] != "completed"[1] && "client_aborted"[1] != "completed"[1] && "selected"[0] != "completed"[0];
    assert "acked"[0] != "completed"[0] && "running"[0] != "completed"[0] && "confirming"[2] != "completed"[2];
    assert "deny"[0] != "completed"[0] && "confirmation_timeout"[2] != "completed"[2];
  }

  /** An approved petition without a result, nothing around it cancelled, reads as confirming exactly if it
      has an undecided confirmation, and otherwise as running. */
  lemma ApprovedReads(d: Disk, dir: seq<Rid>, rid: Rid, now: int)
    requires Shaped(d) && Families(d) && Lists(d, dir) && rid in d.recs && d.recs[rid].petition.kind == Exec
    requires Approved(d, rid) && rid !in d.results && CancelInfo(d, rid).None?
    requires forall c | ChildOf(d, c, rid) :: CancelInfo(d, c).None?
    ensures var confirming := exists c :: ChildOf(d, c, rid) && Verdict(d, c).None?;
      Status(d, dir, rid, now) == StatusResponse(if confirming then "confirming" else "running", "approve", -1, "")
  {
    FindIgnoresOrder(d, dir, dir, rid);
    StatusIs(d, dir, rid, now);
    PlainTexts();
    hide Status, Drifted, FindConfirmation, Lists;
  }

  lemma NamesAre()
    ensures DecisionName(Approve) == "approve" && DecisionName(Deny) == "deny" && DecisionName(Cancelled) == "cancelled"
    ensures DecisionName(Timeout) == "timeout" && DecisionName(ConfirmationTimeout) == "confirmation_timeout"
    ensures DecisionName(ClientAborted) == "client_aborted"
  {
  }

  /** The history holds exactly the records with a readable cancellation, acknowledgement, verdict or
      selection. A cancellation comes first, then an acknowledgement, then a verdict, then a selection; a
      verdict shows as its own word where the run left an exit code, and otherwise as the result's text
      says, or as its confirmation went. */
  lemma HistorySays(d: Disk, dir: seq<Rid>, rid: Rid)
    requires Families(d) && Lists(d, dir)
    ensures var h := RecentDecision(d, dir, rid);
      var v, c, a, s := Verdict(d, rid), CancelInfo(d, rid), AckInfo(d, rid), SelectionInfo(d, rid);
      && (h.Some? <==> rid in d.recs && (v.Some? || c.Some? || a.Some? || s.Some?))
      && (rid in d.recs && c.Some? ==> h == Some("cancelled"))
      && (rid in d.recs && c.None? && a.Some? ==> h == Some("ack"))
      && (rid in d.recs && c.None? && a.None? && v.None? && s.Some? ==> h == Some("select"))
      && (rid in d.recs && c.None? && a.None? && v.Some? ==>
            var own := DecisionName(v.value.decision);
            if rid in d.results && d.results[rid].exit != -1 then h == Some(own)
            else
              var text := if rid in d.results then d.results[rid].output else "";
              && (text == "confirmation_timeout" ==> h == Some("timeout"))
              && (text == "client_aborted" ==> h == Some("client_aborted"))
              && (text == "cancelled" ==> h == Some("cancelled"))
              && (text !in {"confirmation_timeout", "client_aborted", "cancelled"} ==>
                    && ((forall k :: !ChildOf(d, k, rid)) ==> h == Some(own))
                    && forall k | ChildOf(d, k, rid) ::
                         h == Some(if CancelInfo(d, k).Some? then "cancelled"
                                   else if Verdict(d, k).Some? then DecisionName(Verdict(d, k).value.decision)
                                     else own)))
  {
    FindIgnoresOrder(d, dir, dir, rid);
    assert "confirmation_timeout"[1] != "cancelled"[1] && "client_aborted"[1] != "cancelled"[1];
    assert "client_aborted"[1] != "confirmation_timeout"[1];
    hide FindConfirmation, Lists, DecisionName;
  }
}
