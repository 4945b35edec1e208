/** What the daemon keeps on disk: one rewritable record per petition, its result,
    and the write-once verdict, acknowledgement, selection and cancellation files. */
module Records {

  datatype Option<+T> = None | Some(value: T)

  /** The random id naming every file of one petition. */
  type Rid = string

  /** The empty kind of the source, its executable petition, is `Exec` here. */
  datatype Kind = Exec | Ask | Notify

  datatype RecStep = Unset | Initial | Confirm

  datatype Decision = Approve | Deny | Cancelled | Timeout | ConfirmationTimeout | ClientAborted

  /** The stop/continue pin: the caller's process group and whether the stop took. */
  datatype SuspendPin = SuspendPin(pgid: nat, suspended: bool)

  /** The fields of a record that no update ever names. `git`, `fd` and `seal` stand for the
      evidence taken when the petition was filed. */
  datatype Petition = Petition(
    argv: seq<string>,
    uid: nat,
    cwd: string,
    expires: int,
    step: RecStep,
    confirmOf: Option<Rid>,
    kind: Kind,
    question: string,
    options: seq<string>,
    multiSelect: bool,
    git: int,
    fd: int,
    seal: int)

  datatype PendingRecord = PendingRecord(
    petition: Petition,
    chatId: string,
    msgId: int,
    authUrl: string,
    summary: string,
    pageLines: seq<string>,
    selectedIdxs: seq<int>,
    suspend: Option<SuspendPin>)

  function NewRecord(p: Petition): PendingRecord {
    PendingRecord(p, "", 0, "", "", [], [], None)
  }

  datatype VerdictRecord = VerdictRecord(decision: Decision, who: string)
  datatype CancelRecord = CancelRecord(who: string, reason: string)
  datatype AckRecord = AckRecord(who: string)
  datatype SelectionRecord = SelectionRecord(selection: string, idx: int, idxs: seq<int>, who: string)
  datatype RunResult = RunResult(exit: int, output: string)

  /** A file opened with O_CREATE|O_EXCL. Between the open and the write it exists but cannot be
      parsed (`Creating`, remembering what its writer holds); a writer that fails or dies in
      between leaves it `Torn` for good. */
  datatype Once<+T> = Creating(draft: T) | Torn | Holds(content: T)

  /** The content of one write-once file, for the four kinds of such files. */
  datatype Slip =
    | VerdictSlip(verdict: VerdictRecord)
    | CancelSlip(cancel: CancelRecord)
    | AckSlip(ack: AckRecord)
    | SelectionSlip(sel: SelectionRecord)

  datatype SlipKind = VerdictFile | CancelFile | AckFile | SelectionFile

  function KindOf(s: Slip): SlipKind {
    match s
    case VerdictSlip(_) => VerdictFile
    case CancelSlip(_) => CancelFile
    case AckSlip(_) => AckFile
    case SelectionSlip(_) => SelectionFile
  }

  datatype Disk = Disk(
    recs: map<Rid, PendingRecord>,
    verdicts: map<Rid, Once<VerdictRecord>>,
    cancels: map<Rid, Once<CancelRecord>>,
    acks: map<Rid, Once<AckRecord>>,
    selections: map<Rid, Once<SelectionRecord>>,
    results: map<Rid, RunResult>)

  const EmptyDisk := Disk(map[], map[], map[], map[], map[], map[])

  /** Reading a write-once file yields nothing when it is absent or does not parse. */
  function Read<T>(files: map<Rid, Once<T>>, rid: Rid): Option<T> {
    if rid in files && files[rid].Holds? then Some(files[rid].content) else None
  }

  function Load(d: Disk, rid: Rid): Option<PendingRecord> {
    if rid in d.recs then Some(d.recs[rid]) else None
  }

  function Verdict(d: Disk, rid: Rid): Option<VerdictRecord> {
    Read(d.verdicts, rid)
  }

  function CancelInfo(d: Disk, rid: Rid): Option<CancelRecord> {
    Read(d.cancels, rid)
  }

  function AckInfo(d: Disk, rid: Rid): Option<AckRecord> {
    Read(d.acks, rid)
  }

  function SelectionInfo(d: Disk, rid: Rid): Option<SelectionRecord> {
    Read(d.selections, rid)
  }

  predicate Approved(d: Disk, rid: Rid) {
    var v := Verdict(d, rid);
    v.Some? && v.value.decision == Approve
  }

  /** No file of any kind carries this id: what a freshly drawn random id is taken to be. */
  predicate Unused(d: Disk, rid: Rid) {
    && rid !in d.recs
    && rid !in d.verdicts
    && rid !in d.cancels
    && rid !in d.acks
    && rid !in d.selections
    && rid !in d.results
  }

  /** The exclusive create: only the first opener gets the file. */
  function Create<T>(files: map<Rid, Once<T>>, rid: Rid, draft: T): map<Rid, Once<T>> {
    if rid in files then files else files[rid := Creating(draft)]
  }

  function Fill<T>(files: map<Rid, Once<T>>, rid: Rid): map<Rid, Once<T>> {
    if rid in files && files[rid].Creating? then files[rid := Holds(files[rid].draft)] else files
  }

  function Tear<T>(files: map<Rid, Once<T>>, rid: Rid): map<Rid, Once<T>> {
    if rid in files && files[rid].Creating? then files[rid := Torn] else files
  }

  /** Every writer dies: whatever was created and not yet written never will be. */
  function TearAll<T>(files: map<Rid, Once<T>>): map<Rid, Once<T>> {
    map rid | rid in files :: if files[rid].Creating? then Torn else files[rid]
  }

  /** Create and write with nothing in between. */
  function WriteOnce<T>(files: map<Rid, Once<T>>, rid: Rid, content: T): map<Rid, Once<T>> {
    if rid in files then files else files[rid := Holds(content)]
  }

  function SaveRec(d: Disk, rid: Rid, rec: PendingRecord): Disk {
    d.(recs := d.recs[rid := rec])
  }

  /** The text of a run that one of the drift gates blocked. */
  predicate Drifted(text: string) {
    "git-drift:" <= text || "fd-drift:" <= text || "seal-drift:" <= text
  }

  function Truncated(output: string): string {
    if |output| > 8192 then output[..8192] + "\n\U{2026}[truncated]" else output
  }

  /** A stored output is the text itself, or its first 8192 characters and a mark. */
  lemma TruncatedIs(output: string)
    ensures |output| <= 8192 ==> Truncated(output) == output
    ensures |output| > 8192 ==>
              Truncated(output)[..8192] == output[..8192] && Truncated(output)[8192..] == "\n\U{2026}[truncated]"
  {
  }

  function SaveResult(d: Disk, rid: Rid, exit: int, output: string): Disk {
    d.(results := d.results[rid := RunResult(exit, Truncated(output))])
  }
}
