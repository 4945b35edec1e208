/** The petition protocol as a state machine over the shared store.

    Every exclusive create, every write into a created file, every load and every save is a step
    of its own, so waiters, operators, cancellers, pagers and the clock interleave at that grain.
    A run is a sequence of steps; `Crash` drops every in-memory party and keeps the disk. */
module Protocol {
  import opened Records

  // ----- Configuration -------------------------------------------------------------------------

  datatype Config = Config(confirmAll: bool, confirm: set<seq<string>>, dryRun: bool)

  predicate NeedsConfirm(cfg: Config, argv: seq<string>) {
    cfg.confirmAll || argv in cfg.confirm
  }

  // ----- Read-modify-write helpers ---------------------------------------------------------------

  /** The updates that load a record, change some of its fields and save it back. */
  datatype Edit =
    | AttachPager(chat: string, msg: int)
    | SetAuthUrl(url: string)
    | SetPageList(title: string, lines: seq<string>)
    | SetSelectedIdxs(idxs: seq<int>)

  /** The record an update saves, or nothing when its guard gives up after the load. */
  function Edited(rec: PendingRecord, e: Edit): Option<PendingRecord> {
    match e
    case AttachPager(chat, msg) => Some(rec.(chatId := chat, msgId := msg))
    case SetAuthUrl(url) => if url == "" || rec.authUrl != "" then None else Some(rec.(authUrl := url))
    case SetPageList(title, lines) => Some(rec.(summary := title, pageLines := lines))
    case SetSelectedIdxs(idxs) =>
      if rec.petition.kind == Ask && rec.petition.multiSelect then Some(rec.(selectedIdxs := idxs)) else None
  }

  // ----- Waiters ---------------------------------------------------------------------------------

  datatype Origin = Foreground | Detached | Adopted

  /** Where a waiter stands. At the two `Pin` points its caller's group is stopped and the pin is not
      yet on the record; the four `Poll` points are one turn of the await loop. */
  datatype Pc =
    | Hold
    | PinLoad(pgid: nat)
    | PinSave(pinned: PendingRecord)
    | PollVerdict
    | PollCancel
    | PollClock
    | PollClient
    | Decided(decision: Decision)
    | ConfirmLoad
    | ConfirmSave(parent: PendingRecord)
    | RunLoad
    | Gate(stored: PendingRecord)
    | File(filed: Decision, after: seq<(Rid, RunResult)>)
    | Report(todo: seq<(Rid, RunResult)>)

  /** `rid` is the petition awaited now, `home` the one the waiter was started for and `root` the
      initial petition of the family. `argv`, `uid` and `cwd` are the request it was handed. */
  datatype Waiter = Waiter(
    origin: Origin, home: Rid, root: Rid, rid: Rid, stage: RecStep,
    argv: seq<string>, uid: nat, cwd: string, expires: int,
    pin: Option<nat>, pc: Pc)

  /** A waiter that created its own confirmation record and now awaits that one. */
  predicate Chained(w: Waiter) {
    w.rid != w.home
  }

  /** The command that reached a process, with the stored fields it was started from. */
  datatype Spawn = Spawn(rid: Rid, root: Rid, argv: seq<string>, uid: nat, cwd: string)

  /** The restart scan: first a listing of the whole directory, then one adoption per listed id. The
      clock is read once, when the scan starts. */
  datatype Phase = Listing(todo: set<Rid>, items: set<Rid>, at: int) | Adopting(items: set<Rid>, at: int)

  /** `lapsed` holds the ids somebody gave up on: found expired or unreadable, or the caller left. */
  datatype State = State(
    disk: Disk,
    first: map<Rid, PendingRecord>,
    phase: Phase,
    waiters: map<nat, Waiter>,
    edits: set<(Rid, PendingRecord)>,
    spawns: seq<Spawn>,
    stopped: set<nat>,
    now: int,
    cfg: Config,
    lapsed: set<Rid>,
    crashed: bool)

  function Boot(now: int, cfg: Config): State {
    State(EmptyDisk, map[], Adopting({}, now), map[], {}, [], {}, now, cfg, {}, false)
  }

  // ----- Steps -----------------------------------------------------------------------------------

  /** What a waiter does next; `LoadFails` is a record that cannot be read at that moment. */
  datatype Move =
    | NoHold
    | Freeze(pgid: nat)
    | PinLoads
    | PinSaves
    | Poll
    | Abort
    | Again
    | Branch
    | LoadFails
    | ConfirmLoads
    | ConfirmSaves(child: Rid, expires: int, git: int, fd: int, seal: int)
    | RunLoads
    | Blocks(reason: string)
    | Declines(exit: int, output: string)
    | Spawns(exit: int, output: string)
    | Files
    | Reports
    | Ends(readable: bool)

  /** What operators, cancellers, pagers, the clock and the policy file do to the store. */
  datatype Deed =
    | Tick(to: int)
    | Reconfigure(cfg: Config)
    | EditLoad(rid: Rid, edit: Edit)
    | EditSave(rid: Rid, rec: PendingRecord)
    | CreateSlip(rid: Rid, slip: Slip)
    | FillSlip(rid: Rid, file: SlipKind)
    | TearSlip(rid: Rid, file: SlipKind)
    | CancelResult(rid: Rid)
    | ResumeStored(rid: Rid)

  /** One look of the restart scan, at a listed file or at an id to adopt. */
  datatype Look =
    | ListTake(rid: Rid)
    | ListSkip(rid: Rid)
    | ListUnreadable(rid: Rid)
    | ListDone
    | AdoptUnreadable(rid: Rid)
    | AdoptDecided(rid: Rid)
    | AdoptExpired(rid: Rid)
    | AdoptWait(rid: Rid, wid: nat)

  datatype Step =
    | NewRun(rid: Rid, wid: nat, petition: Petition, detached: bool)
    | NewOther(rid: Rid, petition: Petition)
    | Do(deed: Deed)
    | Crash
    | Scan(look: Look)
    | Act(wid: nat, move: Move)

  /** The listing filter: undecided, unacked, unselected, not cancelled and unexpired. */
  predicate Listed(d: Disk, now: int, rid: Rid) {
    && rid in d.recs
    && Verdict(d, rid).None?
    && AckInfo(d, rid).None?
    && SelectionInfo(d, rid).None?
    && CancelInfo(d, rid).None?
    && d.recs[rid].petition.expires > now
  }

  /** The process group a record's stored pin would resume. */
  function StoredPin(d: Disk, rid: Rid): set<nat> {
    if rid in d.recs && d.recs[rid].suspend.Some? && d.recs[rid].suspend.value.suspended
    then {d.recs[rid].suspend.value.pgid} else {}
  }

  predicate NewRunPetition(p: Petition) {
    p.kind == Exec && p.step == Initial && p.confirmOf.None? && p.options == []
  }

  predicate NewOtherPetition(p: Petition) {
    p.kind != Exec && p.argv == [] && p.step == Initial && p.confirmOf.None?
  }

  /** What a slip needs before its create: acknowledgements and selections check the kind of the
      record, cancellations that there is one; a verdict may be filed on any id at all. */
  predicate SlipAllowed(d: Disk, rid: Rid, slip: Slip) {
    match slip
    case VerdictSlip(_) => true
    case CancelSlip(_) => rid in d.recs
    case AckSlip(_) => rid in d.recs && d.recs[rid].petition.kind == Notify
    case SelectionSlip(_) => rid in d.recs && d.recs[rid].petition.kind == Ask
  }

  function WithCreated(d: Disk, rid: Rid, slip: Slip): Disk {
    match slip
    case VerdictSlip(v) => d.(verdicts := Create(d.verdicts, rid, v))
    case CancelSlip(c) => d.(cancels := Create(d.cancels, rid, c))
    case AckSlip(a) => d.(acks := Create(d.acks, rid, a))
    case SelectionSlip(x) => d.(selections := Create(d.selections, rid, x))
  }

  function WithFilled(d: Disk, rid: Rid, file: SlipKind): Disk {
    match file
    case VerdictFile => d.(verdicts := Fill(d.verdicts, rid))
    case CancelFile => d.(cancels := Fill(d.cancels, rid))
    case AckFile => d.(acks := Fill(d.acks, rid))
    case SelectionFile => d.(selections := Fill(d.selections, rid))
  }

  function WithTorn(d: Disk, rid: Rid, file: SlipKind): Disk {
    match file
    case VerdictFile => d.(verdicts := Tear(d.verdicts, rid))
    case CancelFile => d.(cancels := Tear(d.cancels, rid))
    case AckFile => d.(acks := Tear(d.acks, rid))
    case SelectionFile => d.(selections := Tear(d.selections, rid))
  }

  function AfterCrash(d: Disk): Disk {
    d.(verdicts := TearAll(d.verdicts), cancels := TearAll(d.cancels),
       acks := TearAll(d.acks), selections := TearAll(d.selections))
  }

  // ----- The waiter's moves ----------------------------------------------------------------------

  function Denied(rid: Rid, output: string): (Rid, RunResult) {
    (rid, RunResult(-1, output))
  }

  /** The end of a wait that was not approved: whether a decision is filed, then the results. */
  function Close(w: Waiter, d: Decision): Pc {
    if Chained(w) then
      match d
      case ClientAborted => File(d, [Denied(w.rid, "client_aborted"), Denied(w.root, "client_aborted")])
      case Cancelled => File(d, [Denied(w.rid, "cancelled"), Denied(w.root, "cancelled")])
      case Timeout => File(Timeout, [Denied(w.rid, "confirmation_timeout"), Denied(w.root, "confirmation_timeout")])
      case ConfirmationTimeout =>
        File(Timeout, [Denied(w.rid, "confirmation_timeout"), Denied(w.root, "confirmation_timeout")])
      case _ => Report([Denied(w.rid, ""), Denied(w.root, "")])
    else match w.origin
      case Foreground =>
        if d == ClientAborted then File(d, [Denied(w.rid, "client_aborted")])
        else if d == Cancelled then File(d, [Denied(w.rid, "cancelled")])
        else Report([Denied(w.rid, "")])
      case Detached => Report([Denied(w.rid, if d == Cancelled then "cancelled" else "")])
      case Adopted => Report([Denied(w.rid, "")])
  }

  const LOST_RECORD := "lost-record: " + "stored request is missing or corrupt"

  /** A run that was refused before any process existed; the chained parent gets a plain zero. */
  function Refuse(w: Waiter, reason: string): Pc {
    Report([Denied(w.rid, reason)] + if Chained(w) then [(w.root, RunResult(0, ""))] else [])
  }

  /** A run whose exit and output are recorded, on the chained parent too. */
  function Finish(w: Waiter, exit: int, output: string): Pc {
    Report([(w.rid, RunResult(exit, output))] + if Chained(w) then [(w.root, RunResult(exit, output))] else [])
  }

  function ChildPetition(w: Waiter, expires: int, git: int, fd: int, seal: int): Petition {
    Petition(w.argv, w.uid, w.cwd, expires, Confirm, Some(w.rid), Exec, "", [], false, git, fd, seal)
  }

  function ChildRecord(w: Waiter, parent: PendingRecord, expires: int, git: int, fd: int, seal: int): PendingRecord {
    NewRecord(ChildPetition(w, expires, git, fd, seal)).(
      chatId := parent.chatId, msgId := parent.msgId, suspend := parent.suspend)
  }

  predicate MoveEnabled(s: State, w: Waiter, m: Move) {
    match m
    case NoHold => w.pc.Hold?
    case Freeze(_) => w.pc.Hold?
    case PinLoads => w.pc.PinLoad? && w.rid in s.disk.recs
    case PinSaves => w.pc.PinSave?
    case Poll => w.pc.PollVerdict? || w.pc.PollCancel? || w.pc.PollClock?
    case Abort => w.pc.PollClient? && w.origin == Foreground
    case Again => w.pc.PollClient?
    case Branch => w.pc.Decided?
    case LoadFails => w.pc.PinLoad? || w.pc.ConfirmLoad? || w.pc.RunLoad?
    case ConfirmLoads => w.pc.ConfirmLoad? && w.rid in s.disk.recs
    case ConfirmSaves(child, _, _, _, _) => w.pc.ConfirmSave? && Unused(s.disk, child)
    case RunLoads => w.pc.RunLoad? && w.rid in s.disk.recs
    case Blocks(reason) => w.pc.Gate? && Drifted(reason)
    case Declines(_, _) => w.pc.Gate?
    case Spawns(_, _) => w.pc.Gate? && !s.cfg.dryRun
    case Files => w.pc.File?
    case Reports => w.pc.Report? && w.pc.todo != []
    case Ends(_) => w.pc.Report? && w.pc.todo == []
  }

  function Put(s: State, wid: nat, w: Waiter): State {
    s.(waiters := s.waiters[wid := w])
  }

  function Polled(s: State, w: Waiter): Pc
    requires w.pc.PollVerdict? || w.pc.PollCancel? || w.pc.PollClock?
  {
    if w.pc.PollVerdict? then
      var v := Verdict(s.disk, w.rid);
      if v.Some? then Decided(v.value.decision) else PollCancel
    else if w.pc.PollCancel? then
      if CancelInfo(s.disk, w.rid).Some? then Decided(Cancelled) else PollClock
    else
      if s.now > w.expires then Decided(Timeout) else PollClient
  }

  function Branched(cfg: Config, w: Waiter): Pc
    requires w.pc.Decided?
  {
    if w.pc.decision != Approve then Close(w, w.pc.decision)
    else if w.stage != Confirm && NeedsConfirm(cfg, w.argv) then ConfirmLoad
    else RunLoad
  }

  function RunLoaded(s: State, w: Waiter): Pc
    requires w.rid in s.disk.recs
  {
    var rec := s.disk.recs[w.rid];
    if rec.petition.argv == [] then Refuse(w, LOST_RECORD)
    else Gate(rec)
  }

  /** The moves that change nothing but the waiter's own program counter. */
  predicate Local(m: Move) {
    m.NoHold? || m.PinLoads? || m.Poll? || m.Abort? || m.Again? || m.Branch? || m.LoadFails? || m.ConfirmLoads?
      || m.RunLoads?
    || m.Blocks? || m.Declines?
  }

  function NextPc(s: State, w: Waiter, m: Move): Pc
    requires Local(m) && MoveEnabled(s, w, m)
  {
    match m
    case NoHold => PollVerdict
    case PinLoads => PinSave(s.disk.recs[w.rid].(suspend := Some(SuspendPin(w.pc.pgid, true))))
    case Poll => Polled(s, w)
    case Abort => Decided(ClientAborted)
    case Again => PollVerdict
    case Branch => Branched(s.cfg, w)
    case LoadFails =>
      if w.pc.PinLoad? then PollVerdict
      else if w.pc.ConfirmLoad? then Report([])
      else Refuse(w, LOST_RECORD)
    case ConfirmLoads => ConfirmSave(s.disk.recs[w.rid])
    case RunLoads => RunLoaded(s, w)
    case Blocks(reason) => Refuse(w, reason)
    case Declines(exit, output) => Finish(w, exit, output)
  }

  predicate GivesUp(s: State, w: Waiter, m: Move) {
    m.Abort? || (m.Poll? && w.pc.PollClock? && s.now > w.expires)
  }

  function MovedLocally(s: State, wid: nat, m: Move): State
    requires wid in s.waiters && Local(m) && MoveEnabled(s, s.waiters[wid], m)
  {
    var w := s.waiters[wid];
    Put(s.(lapsed := if GivesUp(s, w, m) then s.lapsed + {w.rid} else s.lapsed), wid, w.(pc := NextPc(s, w, m)))
  }

  function Frozen(s: State, wid: nat, g: nat): State
    requires wid in s.waiters
  {
    Put(s.(stopped := s.stopped + {g}), wid, s.waiters[wid].(pin := Some(g), pc := PinLoad(g)))
  }

  function Pinned(s: State, wid: nat): State
    requires wid in s.waiters && s.waiters[wid].pc.PinSave?
  {
    var w := s.waiters[wid];
    Put(s.(disk := SaveRec(s.disk, w.rid, w.pc.pinned)), wid, w.(pc := PollVerdict))
  }

  function Confirming(s: State, wid: nat, child: Rid, expires: int, git: int, fd: int, seal: int): State
    requires wid in s.waiters && s.waiters[wid].pc.ConfirmSave?
  {
    var w := s.waiters[wid];
    var rec := ChildRecord(w, w.pc.parent, expires, git, fd, seal);
    Put(s.(disk := SaveRec(s.disk, child, rec), first := s.first[child := rec]), wid,
        w.(rid := child, stage := Confirm, expires := expires, pc := PollVerdict))
  }

  function Spawned(s: State, wid: nat, exit: int, output: string): State
    requires wid in s.waiters && s.waiters[wid].pc.Gate?
  {
    var w := s.waiters[wid];
    var p := w.pc.stored.petition;
    Put(s.(spawns := s.spawns + [Spawn(w.rid, w.root, p.argv, p.uid, p.cwd)]), wid, w.(pc := Finish(w, exit, output)))
  }

  function Filed(s: State, wid: nat): State
    requires wid in s.waiters && s.waiters[wid].pc.File?
  {
    var w := s.waiters[wid];
    Put(s.(disk := WithCreated(s.disk, w.rid, VerdictSlip(VerdictRecord(w.pc.filed, "")))), wid,
        w.(pc := Report(w.pc.after)))
  }

  function Reported(s: State, wid: nat): State
    requires wid in s.waiters && s.waiters[wid].pc.Report? && s.waiters[wid].pc.todo != []
  {
    var w := s.waiters[wid];
    var (rid, res) := w.pc.todo[0];
    Put(s.(disk := SaveResult(s.disk, rid, res.exit, res.output)), wid, w.(pc := Report(w.pc.todo[1..])))
  }

  /** The deferred resume: the waiter's own pin, or the stored one when the waiter was adopted. */
  function Ended(s: State, wid: nat, readable: bool): State
    requires wid in s.waiters
  {
    var w := s.waiters[wid];
    var resumed :=
      if w.origin == Adopted then (if readable then StoredPin(s.disk, w.home) else {})
      else if w.pin.Some? then {w.pin.value} else {};
    s.(waiters := s.waiters - {wid}, stopped := s.stopped - resumed)
  }

  function Moved(s: State, wid: nat, m: Move): State
    requires wid in s.waiters && MoveEnabled(s, s.waiters[wid], m)
  {
    match m
    case Freeze(g) => Frozen(s, wid, g)
    case PinSaves => Pinned(s, wid)
    case ConfirmSaves(child, expires, git, fd, seal) => Confirming(s, wid, child, expires, git, fd, seal)
    case Spawns(exit, output) => Spawned(s, wid, exit, output)
    case Files => Filed(s, wid)
    case Reports => Reported(s, wid)
    case Ends(readable) => Ended(s, wid, readable)
    case _ => MovedLocally(s, wid, m)
  }

  // ----- The whole machine -----------------------------------------------------------------------

  predicate DeedEnabled(s: State, deed: Deed) {
    match deed
    case EditLoad(rid, e) => rid in s.disk.recs && Edited(s.disk.recs[rid], e).Some?
    case EditSave(rid, rec) => (rid, rec) in s.edits
    case CreateSlip(rid, slip) => SlipAllowed(s.disk, rid, slip)
    case CancelResult(rid) => rid in s.disk.recs
    case ResumeStored(rid) => rid in s.disk.recs
    case _ => true
  }

  function Done(s: State, deed: Deed): State
    requires DeedEnabled(s, deed)
  {
    match deed
    case Tick(to) => s.(now := to)
    case Reconfigure(cfg) => s.(cfg := cfg)
    case EditLoad(rid, e) => s.(edits := s.edits + {(rid, Edited(s.disk.recs[rid], e).value)})
    case EditSave(rid, rec) => s.(disk := SaveRec(s.disk, rid, rec))
    case CreateSlip(rid, slip) => s.(disk := WithCreated(s.disk, rid, slip))
    case FillSlip(rid, file) => s.(disk := WithFilled(s.disk, rid, file))
    case TearSlip(rid, file) => s.(disk := WithTorn(s.disk, rid, file))
    case CancelResult(rid) => s.(disk := SaveResult(s.disk, rid, -1, "cancelled"))
    case ResumeStored(rid) => s.(stopped := s.stopped - StoredPin(s.disk, rid))
  }

  predicate LookEnabled(s: State, look: Look) {
    match look
    case ListTake(rid) => s.phase.Listing? && rid in s.phase.todo && Listed(s.disk, s.phase.at, rid)
    case ListSkip(rid) => s.phase.Listing? && rid in s.phase.todo && !Listed(s.disk, s.phase.at, rid)
    case ListUnreadable(rid) => s.phase.Listing? && rid in s.phase.todo
    case ListDone => s.phase.Listing? && s.phase.todo == {}
    case AdoptUnreadable(rid) => s.phase.Adopting? && rid in s.phase.items
    case AdoptDecided(rid) => s.phase.Adopting? && rid in s.phase.items && Verdict(s.disk, rid).Some?
    case AdoptExpired(rid) =>
      && s.phase.Adopting? && rid in s.phase.items && rid in s.disk.recs
      && Verdict(s.disk, rid).None? && s.disk.recs[rid].petition.expires <= s.phase.at
    case AdoptWait(rid, wid) =>
      && s.phase.Adopting? && rid in s.phase.items && rid in s.disk.recs && wid !in s.waiters
      && Verdict(s.disk, rid).None? && s.disk.recs[rid].petition.expires > s.phase.at
  }

  function Looked(s: State, look: Look): State
    requires LookEnabled(s, look)
  {
    match look
    case ListTake(rid) => s.(phase := s.phase.(todo := s.phase.todo - {rid}, items := s.phase.items + {rid}))
    case ListSkip(rid) =>
      s.(phase := s.phase.(todo := s.phase.todo - {rid}),
         lapsed := if rid in s.disk.recs && s.disk.recs[rid].petition.expires <= s.phase.at then s.lapsed + {rid}
           else s.lapsed)
    case ListUnreadable(rid) => s.(phase := s.phase.(todo := s.phase.todo - {rid}), lapsed := s.lapsed + {rid})
    case ListDone => s.(phase := Adopting(s.phase.items, s.phase.at))
    case AdoptUnreadable(rid) => s.(phase := s.phase.(items := s.phase.items - {rid}), lapsed := s.lapsed + {rid})
    case AdoptDecided(rid) => s.(phase := s.phase.(items := s.phase.items - {rid}))
    case AdoptExpired(rid) =>
      s.(phase := s.phase.(items := s.phase.items - {rid}), lapsed := s.lapsed + {rid},
         disk := SaveResult(s.disk, rid, -1, "timeout"), stopped := s.stopped - StoredPin(s.disk, rid))
    case AdoptWait(rid, wid) =>
      s.(phase := s.phase.(items := s.phase.items - {rid}),
         waiters := s.waiters[wid := AdoptedWaiter(rid, s.disk.recs[rid].petition)])
  }

  function RunWaiter(rid: Rid, p: Petition, detached: bool): Waiter {
    Waiter(if detached then Detached else Foreground, rid, rid, rid, Initial,
           p.argv, p.uid, p.cwd, p.expires, None, Hold)
  }

  function AdoptedWaiter(rid: Rid, p: Petition): Waiter {
    Waiter(Adopted, rid, if p.confirmOf.Some? then p.confirmOf.value else rid, rid, p.step,
           p.argv, p.uid, p.cwd, p.expires, None, PollVerdict)
  }

  function Petitioned(s: State, rid: Rid, p: Petition): State {
    s.(disk := SaveRec(s.disk, rid, NewRecord(p)), first := s.first[rid := NewRecord(p)])
  }

  /** Everything in memory is lost; the disk stays, with torn files where a write was under way. */
  function Crashed(s: State): State {
    s.(disk := AfterCrash(s.disk), phase := Listing(s.disk.recs.Keys, {}, s.now), waiters := map[],
       edits := {}, crashed := true)
  }

  predicate Enabled(s: State, st: Step) {
    match st
    case NewRun(rid, wid, p, _) => s.phase.Adopting? && Unused(s.disk, rid) && wid !in s.waiters && NewRunPetition(p)
    case NewOther(rid, p) => s.phase.Adopting? && Unused(s.disk, rid) && NewOtherPetition(p)
    case Do(deed) => DeedEnabled(s, deed)
    case Crash => true
    case Scan(look) => LookEnabled(s, look)
    case Act(wid, m) => wid in s.waiters && MoveEnabled(s, s.waiters[wid], m)
  }

  function Apply(s: State, st: Step): State
    requires Enabled(s, st)
  {
    match st
    case NewRun(rid, wid, p, detached) => Put(Petitioned(s, rid, p), wid, RunWaiter(rid, p, detached))
    case NewOther(rid, p) => Petitioned(s, rid, p)
    case Do(deed) => Done(s, deed)
    case Crash => Crashed(s)
    case Scan(look) => Looked(s, look)
    case Act(wid, m) => Moved(s, wid, m)
  }

  predicate CanRun(s: State, steps: seq<Step>)
    decreases |steps|
  {
    steps == [] || (Enabled(s, steps[0]) && CanRun(Apply(s, steps[0]), steps[1..]))
  }

  /** The state after a whole run. */
  function RunTo(s: State, steps: seq<Step>): State
    requires CanRun(s, steps)
    decreases |steps|
  {
    if steps == [] then s else RunTo(Apply(s, steps[0]), steps[1..])
  }
}
