/** The sealed archive from petition to execution: the manifest and archive taken when it is filed, the
    archives a manifest accepts, their extraction, and the argument vector that finally runs. */
module SealedRun {
  import opened Records
  import opened Text
  import opened Seal

  // ----- Taking the seal -----------------------------------------------------------------------------

  datatype Blob = Blob(target: Target, bytes: Bytes, mode: bv32)

  datatype SealFile = SealFile(rel: Name, abs: Path, digest: Digest, size: int, mode: bv32)

  /** The hash approval is bound to: that of a text spelling names and hashes in manifest order. */
  datatype Root = RootOf(text: string)

  /** How a hash is written out. */
  type Spelling = Digest -> string

  datatype SealPin = SealPin(root: Root, files: seq<SealFile>)

  /** A tar entry: its header, and its bytes when they can be read. */
  datatype Entry = Entry(name: Name, size: int, bytes: Option<Bytes>)

  /** The archive as the extractor meets it; `whole` when it ends the way an archive should. */
  datatype Archive = Absent | NotGzip | Tar(entries: seq<Entry>, whole: bool)

  /** What a target contributes, if it is small enough and can be read. */
  function BlobOf(fs: Files, t: Target): Option<Blob> {
    if t.abs in fs && fs[t.abs].Regular? && fs[t.abs].size <= MAX_FILE
       && fs[t.abs].content.Some? && |fs[t.abs].content.value| <= MAX_FILE
    then Some(Blob(t, fs[t.abs].content.value, fs[t.abs].mode)) else None
  }

  /** The blobs in target order, up to the first that would take the total past the limit. */
  function Blobs(fs: Files, targets: seq<Target>, total: nat): seq<Blob> {
    if targets == [] then []
    else
      var b := BlobOf(fs, targets[0]);
      if b.None? then Blobs(fs, targets[1..], total)
      else if total + |b.value.bytes| > MAX_TOTAL then []
      else [b.value] + Blobs(fs, targets[1..], total + |b.value.bytes|)
  }

  function TotalBytes(blobs: seq<Blob>): nat {
    if blobs == [] then 0 else |blobs[0].bytes| + TotalBytes(blobs[1..])
  }

  function FileOf(b: Blob): SealFile {
    SealFile(b.target.rel, b.target.abs, Sha256(b.bytes), |b.bytes|, b.mode)
  }

  function Manifest(blobs: seq<Blob>): seq<SealFile> {
    seq(|blobs|, k requires 0 <= k < |blobs| => FileOf(blobs[k]))
  }

  function Bundle(blobs: seq<Blob>): seq<Entry> {
    seq(|blobs|, k requires 0 <= k < |blobs| => Entry(blobs[k].target.rel, |blobs[k].bytes|, Some(blobs[k].bytes)))
  }

  function RootText(files: seq<SealFile>, hex: Spelling): string {
    if files == [] then ""
    else Slashed(files[0].rel) + "\0" + (hex(files[0].digest) + "\0" + RootText(files[1..], hex))
  }

  function RootOfFiles(files: seq<SealFile>, hex: Spelling): Root {
    RootOf(RootText(files, hex))
  }

  predicate NulFree(files: seq<SealFile>, hex: Spelling) {
    forall f | f in files :: '\0' !in Slashed(f.rel) && '\0' !in hex(f.digest)
  }

  lemma CutAtNul(a: string, b: string, c: string, d: string)
    requires '\0' !in a && '\0' !in c && a + "\0" + b == c + "\0" + d
    ensures a == c && b == d
  {
    var s := a + "\0" + b;
    IndexBetween(a, '\0', b);
    IndexBetween(c, '\0', d);
    assert |a| == |c|;
    assert s[..|a|] == a && s[..|c|] == c && s[|a| + 1..] == b && s[|c| + 1..] == d;
  }

  /** The root binds every name and every hash, and their order. */
  lemma {:induction false} RootBinds(a: seq<SealFile>, b: seq<SealFile>, hex: Spelling)
    requires NulFree(a, hex) && NulFree(b, hex) && RootOfFiles(a, hex) == RootOfFiles(b, hex)
    ensures |a| == |b|
    ensures forall k | 0 <= k < |a| :: Slashed(a[k].rel) == Slashed(b[k].rel) && hex(a[k].digest) == hex(b[k].digest)
  {
    hide Slashed;
    if a != [] && b != [] {
      var f, g := a[0], b[0];
      CutAtNul(Slashed(f.rel), hex(f.digest) + "\0" + RootText(a[1..], hex), Slashed(g.rel),
        hex(g.digest) + "\0" + RootText(b[1..], hex));
      CutAtNul(hex(f.digest), RootText(a[1..], hex), hex(g.digest), RootText(b[1..], hex));
      assert forall x | x in a[1..] :: x in a;
      assert forall x | x in b[1..] :: x in b;
      RootBinds(a[1..], b[1..], hex);
    }
  }

  function Sealed(fs: Files, cwd: string, argv: seq<string>): seq<Blob> {
    Blobs(fs, Candidates(fs, cwd, argv), 0)
  }

  predicate DistinctNames(files: seq<SealFile>) {
    forall i, j | 0 <= i < j < |files| :: files[i].rel != files[j].rel
  }

  predicate DistinctPaths(files: seq<SealFile>) {
    forall i, j | 0 <= i < j < |files| :: files[i].abs != files[j].abs
  }

  predicate DistinctBlobs(blobs: seq<Blob>) {
    forall i, j | 0 <= i < j < |blobs| :: blobs[i].target != blobs[j].target
  }

  lemma {:induction false} BlobsFit(fs: Files, targets: seq<Target>, total: nat)
    requires total <= MAX_TOTAL
    ensures var blobs := Blobs(fs, targets, total); |blobs| <= |targets| && TotalBytes(blobs) <= MAX_TOTAL - total
  {
    if targets != [] {
      var b := BlobOf(fs, targets[0]);
      hide BlobOf;
      var rest := if b.Some? then total + |b.value.bytes| else total;
      if rest <= MAX_TOTAL {
        BlobsFit(fs, targets[1..], rest);
      }
    }
  }

  lemma {:induction false} BlobsAre(fs: Files, targets: seq<Target>, total: nat)
    ensures forall b | b in Blobs(fs, targets, total) :: b.target in targets && BlobOf(fs, b.target) == Some(b)
    ensures DistinctTargets(targets) ==> DistinctBlobs(Blobs(fs, targets, total))
  {
    if targets != [] {
      var b := BlobOf(fs, targets[0]);
      assert b.Some? ==> b.value.target == targets[0];
      hide BlobOf;
      BlobsAre(fs, targets[1..], if b.Some? then total + |b.value.bytes| else total);
      assert forall t | t in targets[1..] :: t in targets;
      if DistinctTargets(targets) {
        assert targets[0] !in targets[1..];
      }
    }
  }

  /** What a seal covers: at most 32 files of at most 2 MiB each and 8 MiB together, with distinct paths
      and names, holding what the files held. */
  lemma SealBounds(fs: Files, cwd: string, argv: seq<string>)
    ensures var blobs := Sealed(fs, cwd, argv); var files := Manifest(blobs);
      && |files| <= MAX_FILES && TotalBytes(blobs) <= MAX_TOTAL
      && DistinctNames(files) && DistinctPaths(files)
      && forall k | 0 <= k < |files| ::
           && Plain(files[k].rel) && files[k].rel != [] && files[k].size <= MAX_FILE
           && files[k].abs in fs && fs[files[k].abs].Regular?
           && fs[files[k].abs].content == Some(files[k].digest.of)
  {
    var base, blobs := Clean(cwd), Sealed(fs, cwd, argv);
    SealedShape(fs, cwd, argv);
    hide Sealed, Clean, Plain;
    forall i, j | 0 <= i < j < |blobs|
      ensures blobs[i].target.rel != blobs[j].target.rel && blobs[i].target.abs != blobs[j].target.abs
    {
      var s, t := blobs[i].target, blobs[j].target;
      assert s.abs.segs[|base.segs|..] == s.rel && t.abs.segs[|base.segs|..] == t.rel;
    }
  }

  lemma SealedShape(fs: Files, cwd: string, argv: seq<string>)
    ensures var blobs := Sealed(fs, cwd, argv); var base := Clean(cwd);
      && |blobs| <= MAX_FILES && TotalBytes(blobs) <= MAX_TOTAL && DistinctBlobs(blobs)
      && forall k | 0 <= k < |blobs| :: var t := blobs[k].target;
           && t.abs == Path(base.rooted, base.segs + t.rel) && Plain(t.rel) && t.rel != []
           && BlobOf(fs, t) == Some(blobs[k])
  {
    var targets, base := Candidates(fs, cwd, argv), Clean(cwd);
    var blobs := Sealed(fs, cwd, argv);
    CandidatesAre(fs, cwd, argv);
    BlobsFit(fs, targets, 0);
    BlobsAre(fs, targets, 0);
    assert forall k | 0 <= k < |blobs| :: blobs[k] in blobs;
    hide Candidates, Blobs, Clean, InNameOrder, BlobOf;
    forall k | 0 <= k < |blobs|
      ensures var t := blobs[k].target; t.abs == Path(base.rooted, base.segs + t.rel) && Plain(t.rel) && t.rel != []
    {
      var tok :| tok in argv && Candidate(fs, cwd, tok) == Some(blobs[k].target);
      CandidateShape(fs, cwd, tok);
    }
  }

  // ----- Accepting an archive ------------------------------------------------------------------------

  /** The manifest by name; the last of equal names counts. */
  function Want(files: seq<SealFile>): map<Name, SealFile> {
    if files == [] then map[] else Want(files[..|files| - 1])[files[|files| - 1].rel := files[|files| - 1]]
  }

  predicate EntryGood(want: map<Name, SealFile>, e: Entry) {
    && e.name in want
    && e.size <= MAX_FILE
    && e.bytes.Some?
    && |e.bytes.value| == e.size
    && Sha256(e.bytes.value) == want[e.name].digest
  }

  predicate AllGood(want: map<Name, SealFile>, entries: seq<Entry>) {
    forall e | e in entries :: EntryGood(want, e)
  }

  function Names(entries: seq<Entry>): set<Name> {
    set e | e in entries :: e.name
  }

  predicate DistinctEntries(entries: seq<Entry>) {
    forall i, j | 0 <= i < j < |entries| :: entries[i].name != entries[j].name
  }

  /** The entries are the manifest's names, once each, every one with the hash it was sealed with. */
  predicate Accepts(files: seq<SealFile>, archive: Archive) {
    && archive.Tar? && archive.whole
    && DistinctEntries(archive.entries)
    && AllGood(Want(files), archive.entries)
    && |archive.entries| == |Want(files)|
  }

  lemma {:induction false} WantNames(files: seq<SealFile>)
    ensures Want(files).Keys == set f | f in files :: f.rel
  {
    if files == [] {
      assert (set f | f in files :: f.rel) == {};
    } else {
      var init, last := files[..|files| - 1], files[|files| - 1];
      WantNames(init);
      assert files == init + [last];
      assert (set f | f in files :: f.rel) == (set f | f in init :: f.rel) + {last.rel};
    }
  }

  lemma {:induction false} WantOfDistinct(files: seq<SealFile>)
    requires DistinctNames(files)
    ensures |Want(files)| == |files|
    ensures forall f | f in files :: f.rel in Want(files) && Want(files)[f.rel] == f
  {
    if files != [] {
      var init, last := files[..|files| - 1], files[|files| - 1];
      WantOfDistinct(init);
      WantNames(init);
      assert files == init + [last];
      assert forall f | f in init :: f.rel != last.rel;
      assert last.rel !in Want(init).Keys;
    }
  }

  lemma {:induction false} NameCount(entries: seq<Entry>)
    ensures DistinctEntries(entries) ==> |Names(entries)| == |entries|
  {
    if entries != [] && DistinctEntries(entries) {
      var init, last := entries[..|entries| - 1], entries[|entries| - 1];
      NameCount(init);
      assert entries == init + [last];
      assert Names(entries) == Names(init) + {last.name};
      assert last.name !in Names(init);
    } else if entries == [] {
      assert Names(entries) == {};
    }
  }

  lemma SubsetOfSameSize<T>(a: set<T>, b: set<T>)
    requires a <= b && |a| == |b|
    ensures a == b
  {
    assert |b - a| == |b| - |a|;
  }

  /** An archive is accepted only if its entries carry exactly the sealed names, once each, and exactly
      the bytes that were sealed under them. */
  lemma AcceptedMeansFrozen(files: seq<SealFile>, archive: Archive)
    requires Accepts(files, archive) && DistinctNames(files)
    ensures Names(archive.entries) == set f | f in files :: f.rel
    ensures |archive.entries| == |files|
    ensures forall f | f in files :: Entry(f.rel, |f.digest.of|, Some(f.digest.of)) in archive.entries
    ensures forall e | e in archive.entries :: e.size <= 2 * 1024 * 1024
  {
    var entries, want := archive.entries, Want(files);
    WantNames(files);
    WantOfDistinct(files);
    NameCount(entries);
    hide Want;
    assert Names(entries) <= want.Keys;
    assert |want.Keys| == |want|;
    SubsetOfSameSize(Names(entries), want.Keys);
    forall f | f in files ensures Entry(f.rel, |f.digest.of|, Some(f.digest.of)) in entries {
      var k :| 0 <= k < |files| && files[k] == f;
      assert f.rel in want.Keys;
      var e :| e in entries && e.name == f.rel;
      assert EntryGood(want, e) && want[f.rel] == f;
      assert Sha256(e.bytes.value).of == f.digest.of;
    }
  }

  /** The archive a seal wrote is accepted by its own manifest. */
  lemma SealRoundTrip(fs: Files, cwd: string, argv: seq<string>)
    ensures var blobs := Sealed(fs, cwd, argv); Accepts(Manifest(blobs), Tar(Bundle(blobs), true))
  {
    var blobs := Sealed(fs, cwd, argv);
    var files, entries := Manifest(blobs), Bundle(blobs);
    SealBounds(fs, cwd, argv);
    WantOfDistinct(files);
    hide Want, Sealed, Plain, DistinctPaths;
    forall k | 0 <= k < |entries| ensures EntryGood(Want(files), entries[k]) {
      assert files[k] in files;
      assert files[k].rel in Want(files) && Want(files)[files[k].rel] == files[k] == FileOf(blobs[k]);
    }
    forall i, j | 0 <= i < j < |entries| ensures entries[i].name != entries[j].name {
      assert files[i].rel != files[j].rel;
    }
  }

  // ----- Extracting ----------------------------------------------------------------------------------

  function ExtractDir(state: Path, rid: Rid): Path {
    Path(state.rooted, state.segs + ["sealed", rid + ".d"])
  }

  /** Two requests' extraction directories never contain each other, so neither's run disturbs the other's
      frozen copies. */
  lemma ExtractDirsApart(state: Path, a: Rid, b: Rid, fs: Files, p: Path)
    requires a != b
    ensures Under(ExtractDir(state, b), p) && p in fs ==> p in Cleared(fs, ExtractDir(state, a))
  {
    var da, db := ExtractDir(state, a), ExtractDir(state, b);
    var x, y := a + ".d", b + ".d";
    assert x[..|x| - 2] == a && y[..|y| - 2] == b;
    assert da.segs[|state.segs| + 1] == a + ".d" && db.segs[|state.segs| + 1] == b + ".d";
  }

  /** The owner may read and write the copy, execute bits are the original's, and there are no others. */
  lemma FrozenModeIs(mode: bv32)
    ensures FrozenMode(mode) & 0x180 == 0x180 && FrozenMode(mode) & 0x49 == mode & 0x49
    ensures FrozenMode(mode) & !0x1c9 == 0
  {
  }

  predicate Under(dir: Path, p: Path) {
    dir.rooted == p.rooted && dir.segs <= p.segs
  }

  function Cleared(fs: Files, dir: Path): Files {
    map p | p in fs && !Under(dir, p) :: fs[p]
  }

  /** Readable by the owner, executable where the original was. */
  function FrozenMode(mode: bv32): bv32 {
    0x180 | (mode & 0x49)
  }

  function FrozenNode(f: SealFile, bytes: Bytes): Node {
    Regular(FrozenMode(f.mode), |bytes|, Some(bytes))
  }

  /** The file system once the entries have been written out below a directory. */
  function Extracted(fs: Files, dir: Path, want: map<Name, SealFile>, entries: seq<Entry>): Files
    requires AllGood(want, entries)
  {
    if entries == [] then fs
    else
      var init, e := entries[..|entries| - 1], entries[|entries| - 1];
      assert entries[|entries| - 1] in entries;
      assert EntryGood(want, e);
      assert AllGood(want, init);
      Extracted(fs, dir, want, init)[Walk(dir, e.name) := FrozenNode(want[e.name], e.bytes.value)]
  }

  lemma {:induction false} ExtractedHas(fs: Files, dir: Path, want: map<Name, SealFile>, entries: seq<Entry>, k: nat)
    requires forall e | e in entries :: EntryGood(want, e) && Plain(e.name)
    requires DistinctEntries(entries) && k < |entries|
    ensures var p := Path(dir.rooted, dir.segs + entries[k].name); var after := Extracted(fs, dir, want, entries);
      p in after && after[p] == FrozenNode(want[entries[k].name], entries[k].bytes.value)
  {
    var init, last := entries[..|entries| - 1], entries[|entries| - 1];
    WalkPlain(dir, last.name);
    if k < |entries| - 1 {
      ExtractedHas(fs, dir, want, init, k);
      assert init[k] == entries[k];
      assert (dir.segs + init[k].name)[|dir.segs|..] == init[k].name;
      assert (dir.segs + last.name)[|dir.segs|..] == last.name;
    }
  }

  /** What lies outside the extraction directory. */
  lemma {:induction false} ExtractedInside(fs: Files, dir: Path, want: map<Name, SealFile>, entries: seq<Entry>)
    requires AllGood(want, entries) && forall n | n in want :: Plain(n)
    ensures Cleared(Extracted(fs, dir, want, entries), dir) == Cleared(fs, dir)
  {
    if entries != [] {
      var init, e := entries[..|entries| - 1], entries[|entries| - 1];
      assert e in entries && EntryGood(want, e);
      WalkPlain(dir, e.name);
      assert dir.segs <= dir.segs + e.name;
      ExtractedInside(fs, dir, want, init);
    }
  }

  // ----- Rewriting the arguments ---------------------------------------------------------------------

  /** The frozen copies by live path; the last of equal paths counts. */
  function ByPath(files: seq<SealFile>, dir: Path): map<Path, Path> {
    if files == [] then map[]
    else
      var last := files[|files| - 1];
      ByPath(files[..|files| - 1], dir)[last.abs := Walk(dir, last.rel)]
  }

  function RewriteToken(tok: string, cwd: string, frozen: map<Path, Path>): string {
    var abs := Resolved(tok, cwd);
    if !Blank(tok) && abs.Some? && abs.value in frozen then Render(frozen[abs.value]) else tok
  }

  function Rewritten(argv: seq<string>, cwd: string, frozen: map<Path, Path>): (out: seq<string>)
    ensures |out| == |argv|
  {
    seq(|argv|, i requires 0 <= i < |argv| => RewriteToken(argv[i], cwd, frozen))
  }

  lemma {:induction false} ByPathIs(files: seq<SealFile>, dir: Path)
    ensures forall p :: p in ByPath(files, dir) <==> exists k | 0 <= k < |files| :: files[k].abs == p
    ensures DistinctPaths(files) ==> forall k | 0 <= k < |files| ::
              files[k].abs in ByPath(files, dir) && ByPath(files, dir)[files[k].abs] == Walk(dir, files[k].rel)
  {
    if files != [] {
      var init, last := files[..|files| - 1], files[|files| - 1];
      ByPathIs(init, dir);
      assert forall k | 0 <= k < |init| :: files[k] == init[k];
      assert files[|files| - 1].abs == last.abs;
    }
  }

  // ----- Running what was approved -------------------------------------------------------------------

  /** The parts of a stored record the run reads. */
  datatype Stored = Stored(argv: seq<string>, cwd: string, seal: Option<SealPin>)

  datatype GitGate = Steady | Warn | Block

  datatype Refusal = LostRecord | SealDrift | SealUnusable | FdDrift | GitDrift

  datatype RunOutcome = Denied(reason: Refusal) | Ran(argv: seq<string>, cwd: string, warned: bool)

  function SealFiles(rec: Stored): seq<SealFile> {
    if rec.seal.Some? then rec.seal.value.files else []
  }

  /** The live file still is what was sealed. */
  predicate Unchanged(fs: Files, f: SealFile) {
    f.abs in fs && fs[f.abs].Regular? && fs[f.abs].size == f.size && fs[f.abs].content == Some(f.digest.of)
  }

  /** Where a token's sealed input lies frozen. */
  predicate RunsFrozen(fs: Files, dir: Path, f: SealFile, token: string) {
    var p := Path(dir.rooted, dir.segs + f.rel);
    token == Render(p) && p in fs && fs[p].Regular? && fs[p].content == Some(f.digest.of)
  }

  /** Every argument that names a sealed file has become its frozen copy, holding the sealed bytes;
      every other argument, and their number, is as stored. */
  predicate FrozenRun(fs: Files, dir: Path, files: seq<SealFile>, argv: seq<string>, cwd: string, exec: seq<string>) {
    && |exec| == |argv|
    && forall i | 0 <= i < |argv| ::
         if !Blank(argv[i]) && Resolved(argv[i], cwd).Some? && exists f | f in files ::
           f.abs == Resolved(argv[i], cwd).value
         then exists f | f in files :: f.abs == Resolved(argv[i], cwd).value && RunsFrozen(fs, dir, f, exec[i])
         else exec[i] == argv[i]
  }

  /** What every manifest the daemon writes is. */
  predicate WellSealed(files: seq<SealFile>) {
    DistinctNames(files) && DistinctPaths(files) && forall f | f in files :: Plain(f.rel)
  }

  /** Extraction and rewriting together: a run on any accepted archive is a frozen run. */
  lemma AcceptedRunsFrozen(fs: Files, dir: Path, files: seq<SealFile>, archive: Archive, argv: seq<string>, cwd: string)
    requires Accepts(files, archive) && WellSealed(files)
    ensures FrozenRun(Extracted(fs, dir, Want(files), archive.entries), dir, files, argv, cwd,
          Rewritten(argv, cwd, ByPath(files, dir)))
  {
    hide RunsFrozen, FrozenRun, Render, Extracted, DistinctNames, DistinctPaths, Plain, EntryGood;
    FrozenCopies(fs, dir, files, archive);
    RewrittenIsFrozen(Extracted(fs, dir, Want(files), archive.entries), dir, files, argv, cwd);
  }

  lemma FrozenCopies(fs: Files, dir: Path, files: seq<SealFile>, archive: Archive)
    requires Accepts(files, archive) && DistinctNames(files)
    requires forall f | f in files :: Plain(f.rel)
    ensures forall f | f in files :: RunsFrozen(Extracted(fs, dir, Want(files), archive.entries), dir, f,
          Render(Path(dir.rooted, dir.segs + f.rel)))
  {
    var entries, want := archive.entries, Want(files);
    WantOfDistinct(files);
    AcceptedMeansFrozen(files, archive);
    hide Want, Plain, Render, EntryGood, Extracted;
    forall e | e in entries ensures Plain(e.name) {
      assert e.name in Names(entries);
    }
    forall f | f in files
      ensures RunsFrozen(Extracted(fs, dir, want, entries), dir, f, Render(Path(dir.rooted, dir.segs + f.rel)))
    {
      var k :| 0 <= k < |entries| && entries[k] == Entry(f.rel, |f.digest.of|, Some(f.digest.of));
      ExtractedHas(fs, dir, want, entries, k);
    }
  }

  lemma RewrittenIsFrozen(fs: Files, dir: Path, files: seq<SealFile>, argv: seq<string>, cwd: string)
    requires DistinctPaths(files) && forall f | f in files :: Plain(f.rel)
    requires forall f | f in files :: RunsFrozen(fs, dir, f, Render(Path(dir.rooted, dir.segs + f.rel)))
    ensures FrozenRun(fs, dir, files, argv, cwd, Rewritten(argv, cwd, ByPath(files, dir)))
  {
    var frozen := ByPath(files, dir);
    ByPathIs(files, dir);
    hide ByPath, RunsFrozen, Render, Resolved, Plain, Blank;
    forall i | 0 <= i < |argv| && !Blank(argv[i]) && Resolved(argv[i], cwd).Some?
      && Resolved(argv[i], cwd).value in frozen
      ensures exists f | f in files ::
                f.abs == Resolved(argv[i], cwd).value && RunsFrozen(fs, dir, f, RewriteToken(argv[i], cwd, frozen))
    {
      var k :| 0 <= k < |files| && files[k].abs == Resolved(argv[i], cwd).value;
      assert files[k] in files;
      WalkPlain(dir, files[k].rel);
      assert RunsFrozen(fs, dir, files[k], RewriteToken(argv[i], cwd, frozen));
    }
  }

  /** What runs is what was approved: with the seal taken from the files as they were at petition time,
      any archive the extractor accepts yields a run in which every argument naming a sealed file names
      a copy of the bytes that file held then. */
  lemma WhatRunsIsWhatWasSealed(fs0: Files, fs1: Files, state: Path, rid: Rid, argv: seq<string>, cwd: string,
      archive: Archive)
    requires Accepts(Manifest(Sealed(fs0, cwd, argv)), archive)
    ensures var files := Manifest(Sealed(fs0, cwd, argv)); var dir := ExtractDir(state, rid);
      var fs2 := Extracted(Cleared(fs1, dir), dir, Want(files), archive.entries);
      var exec := Rewritten(argv, cwd, ByPath(files, dir));
      && FrozenRun(fs2, dir, files, argv, cwd, exec)
      && forall f | f in files :: f.abs in fs0 && fs0[f.abs].Regular? && fs0[f.abs].content == Some(f.digest.of)
  {
    var files, dir := Manifest(Sealed(fs0, cwd, argv)), ExtractDir(state, rid);
    SealBounds(fs0, cwd, argv);
    hide Sealed, Manifest, ExtractDir, EntryGood, Extracted, RunsFrozen, FrozenRun, Render, DistinctNames,
      DistinctPaths, Plain;
    assert forall f | f in files :: exists k | 0 <= k < |files| :: files[k] == f;
    AcceptedRunsFrozen(Cleared(fs1, dir), dir, files, archive, argv, cwd);
  }
}
