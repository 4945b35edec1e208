/** The daemon's sealing methods, over its file system and archive store. */
module Sealer {
  import opened Records
  import opened Text
  import opened Seal
  import opened SealedRun

  lemma {:induction false} GatheredNamed(fs: Files, cwd: string, argv: seq<string>)
    ensures forall t | t in Gathered(fs, cwd, argv) :: Below(Clean(cwd), t.abs) == Some(t.rel)
  {
    if argv != [] {
      GatheredNamed(fs, cwd, argv[..|argv| - 1]);
      hide Clean, Resolved, FileLike, Below;
    }
  }

  class Sealer {
    const state: Path
    const dryRun: bool
    const hex: Spelling
    var fs: Files
    var archives: map<Rid, Archive>

    function ArchiveOf(rid: Rid): Archive
      reads this
    {
      if rid in archives then archives[rid] else Absent
    }

    method SealCandidates(argv: seq<string>, cwd: string) returns (out: seq<Target>)
      ensures out == Candidates(fs, cwd, argv)
    {
      if |argv| == 0 || Blank(cwd) {
        return [];
      }
      var base := Clean(cwd);
      if base !in fs || !fs[base].Folder? {
        return [];
      }
      var seen: set<Path> := {};
      out := [];
      var i := 0;
      while i < |argv|
        invariant 0 <= i <= |argv|
        invariant out == Gathered(fs, cwd, argv[..i])
        invariant seen == set t | t in out :: t.abs
      {
        assert argv[..i + 1][..i] == argv[..i];
        GatheredNamed(fs, cwd, argv[..i]);
        var tok := argv[i];
        i := i + 1;
        var t := Candidate(fs, cwd, tok);
        if t.None? {
          continue;
        }
        SameBase(fs, cwd, tok);
        hide Candidate, Below, Clean;
        if t.value.abs in seen {
          continue;
        }
        seen := seen + {t.value.abs};
        out := out + [t.value];
      }
      assert argv[..i] == argv;
      out := SortByName(out);
      if |out| > MAX_FILES {
        out := out[..MAX_FILES];
      }
    }

    /** `stored` says whether the archive could be written. */
    method SnapshotSeal(rid: Rid, argv: seq<string>, cwd: string, stored: bool) returns (pin: Option<SealPin>)
      modifies this`archives
      ensures var blobs := Sealed(fs, cwd, argv);
        && pin == (if Blank(rid) || blobs == [] || !stored then None
                   else Some(SealPin(RootOfFiles(Manifest(blobs), hex), Manifest(blobs))))
        && archives == if pin.Some? then old(archives)[rid := Tar(Bundle(blobs), true)] else old(archives)
    {
      if Blank(rid) {
        return None;
      }
      var targets := SealCandidates(argv, cwd);
      var blobs := CollectBlobs(targets);
      if |blobs| == 0 || !stored {
        return None;
      }
      var files: seq<SealFile>, entries: seq<Entry> := [], [];
      var i := 0;
      while i < |blobs|
        invariant 0 <= i <= |blobs| && archives == old(archives)
        invariant files == Manifest(blobs)[..i] && entries == Bundle(blobs)[..i]
      {
        var b := blobs[i];
        files := files + [SealFile(b.target.rel, b.target.abs, Sha256(b.bytes), |b.bytes|, b.mode)];
        entries := entries + [Entry(b.target.rel, |b.bytes|, Some(b.bytes))];
        i := i + 1;
      }
      assert files == Manifest(blobs) && entries == Bundle(blobs);
      archives := archives[rid := Tar(entries, true)];
      return Some(SealPin(RootOfFiles(files, hex), files));
    }

    method CollectBlobs(targets: seq<Target>) returns (blobs: seq<Blob>)
      ensures blobs == Blobs(fs, targets, 0)
    {
      blobs := [];
      var total: nat := 0;
      var i := 0;
      while i < |targets|
        invariant 0 <= i <= |targets|
        invariant blobs + Blobs(fs, targets[i..], total) == Blobs(fs, targets, 0)
      {
        assert targets[i..][0] == targets[i] && targets[i..][1..] == targets[i + 1..];
        var t := targets[i];
        i := i + 1;
        if t.abs !in fs || !fs[t.abs].Regular? || fs[t.abs].size > MAX_FILE {
          continue;
        }
        var bytes := fs[t.abs].content;
        if bytes.None? || |bytes.value| > MAX_FILE {
          continue;
        }
        if total + |bytes.value| > MAX_TOTAL {
          return;
        }
        total := total + |bytes.value|;
        blobs := blobs + [Blob(t, bytes.value, fs[t.abs].mode)];
      }
    }

    method CheckSealDrift(files: seq<SealFile>) returns (drift: bool)
      ensures drift <==> exists f | f in files :: !Unchanged(fs, f)
      ensures !drift <==> forall k | 0 <= k < |files| ::
                && files[k].abs in fs && fs[files[k].abs].Regular? && fs[files[k].abs].size == files[k].size
                && fs[files[k].abs].content.Some? && Sha256(fs[files[k].abs].content.value) == files[k].digest
    {
      var i := 0;
      while i < |files|
        invariant 0 <= i <= |files| && forall k | 0 <= k < i :: Unchanged(fs, files[k])
      {
        var f := files[i];
        assert f in files;
        if f.abs !in fs || !fs[f.abs].Regular? || fs[f.abs].size != f.size {
          return true;
        }
        var bytes := fs[f.abs].content;
        if bytes.None? || Sha256(bytes.value) != f.digest {
          return true;
        }
        i := i + 1;
      }
      return false;
    }

    /** The archive is acceptable and none of its writes fails. */
    predicate Usable(rid: Rid, files: seq<SealFile>, blocked: set<nat>)
      reads this
    {
      Accepts(files, ArchiveOf(rid)) && forall k: nat | k < |ArchiveOf(rid).entries| :: k !in blocked
    }

    /** Extracts the archive or fails; outside the extraction directory nothing changes. `loaded` says
        whether the record could be read again; `blocked` holds the entries whose write fails. */
    method MaterializeSeal(rid: Rid, loaded: bool, files: seq<SealFile>, blocked: set<nat>) returns (dir: Option<Path>)
      modifies this`fs
      ensures dir.Some? <==> loaded && files != [] && Usable(rid, files, blocked)
      ensures dir.Some? ==>
                && dir.value == ExtractDir(state, rid)
                && fs == Extracted(Cleared(old(fs), dir.value), dir.value, Want(files), ArchiveOf(rid).entries)
      ensures (forall f | f in files :: Plain(f.rel)) ==>
                Cleared(fs, ExtractDir(state, rid)) == Cleared(old(fs), ExtractDir(state, rid))
    {
      if !loaded || |files| == 0 {
        return None;
      }
      var want := WantMap(files);
      var archive := ArchiveOf(rid);
      if archive.Absent? {
        return None;
      }
      var target := ExtractDir(state, rid);
      WantPlain(files);
      hide ExtractDir, Want, DistinctEntries, Names, Extracted, Plain, Under;
      fs := Cleared(fs, target);
      if archive.NotGzip? {
        return None;
      }
      var ok := ExtractAll(archive.entries, want, target, blocked);
      NameCount(archive.entries);
      if !ok || !archive.whole || |archive.entries| != |want| {
        fs := Cleared(fs, target);
        return None;
      }
      return Some(target);
    }

    /** Writes out entries while they are wanted, new and sound. */
    method ExtractAll(entries: seq<Entry>, want: map<Name, SealFile>, target: Path,
        blocked: set<nat>) returns (ok: bool)
      modifies this`fs
      ensures ok <==> AllGood(want, entries) && DistinctEntries(entries) && forall k: nat | k < |entries| ::
            k !in blocked
      ensures ok ==> fs == Extracted(old(fs), target, want, entries)
      ensures (forall n | n in want :: Plain(n)) ==> Cleared(fs, target) == Cleared(old(fs), target)
    {
      hide EntryGood, AllGood, DistinctEntries, Names, Extracted;
      ghost var before := fs;
      hide Plain, Cleared;
      var seen: set<Name> := {};
      var i := 0;
      NoEntries(entries, want, fs, target);
      while i < |entries|
        invariant 0 <= i <= |entries|
        invariant seen == Names(entries[..i]) && DistinctEntries(entries[..i]) && AllGood(want, entries[..i])
        invariant fs == Extracted(before, target, want, entries[..i])
        invariant forall k: nat | k < i :: k !in blocked
      {
        var e := entries[i];
        NextGood(want, entries, i);
        NextDistinct(entries, i);
        NextName(entries, i);
        var good := CheckEntry(want, e);
        if !good || e.name in seen || i in blocked {
          StaysInside(before, target, want, entries[..i]);
          return false;
        }
        NextExtracted(before, target, want, entries, i);
        seen := seen + {e.name};
        fs := fs[Walk(target, e.name) := FrozenNode(want[e.name], e.bytes.value)];
        i := i + 1;
      }
      assert entries[..i] == entries;
      StaysInside(before, target, want, entries);
      return true;
    }

    method CheckEntry(want: map<Name, SealFile>, e: Entry) returns (good: bool)
      ensures good <==> EntryGood(want, e)
    {
      if e.name !in want || e.size > MAX_FILE {
        return false;
      }
      if e.bytes.None? || |e.bytes.value| != e.size {
        return false;
      }
      return Sha256(e.bytes.value) == want[e.name].digest;
    }

    method WantMap(files: seq<SealFile>) returns (want: map<Name, SealFile>)
      ensures want == Want(files)
    {
      want := map[];
      var i := 0;
      while i < |files|
        invariant 0 <= i <= |files| && want == Want(files[..i])
      {
        assert files[..i + 1][..i] == files[..i];
        want := want[files[i].rel := files[i]];
        i := i + 1;
      }
      assert files[..i] == files;
    }

    method SealedArgv(argv: seq<string>, cwd: string, files: seq<SealFile>, dir: Path) returns (out: seq<string>)
      ensures out == Rewritten(argv, cwd, ByPath(files, dir))
    {
      if |files| == 0 {
        assert Rewritten(argv, cwd, map[]) == argv;
        return argv;
      }
      var frozen: map<Path, Path> := map[];
      var k := 0;
      while k < |files|
        invariant 0 <= k <= |files| && frozen == ByPath(files[..k], dir)
      {
        assert files[..k + 1][..k] == files[..k];
        frozen := frozen[files[k].abs := Walk(dir, files[k].rel)];
        k := k + 1;
      }
      assert files[..k] == files;
      out := argv;
      var i := 0;
      while i < |argv|
        invariant 0 <= i <= |argv| && |out| == |argv|
        invariant forall j | 0 <= j < i :: out[j] == RewriteToken(argv[j], cwd, frozen)
        invariant forall j | i <= j < |argv| :: out[j] == argv[j]
      {
        var tok := argv[i];
        if !Blank(tok) {
          var abs := Resolved(tok, cwd);
          if abs.Some? && abs.value in frozen {
            out := out[i := Render(frozen[abs.value])];
          }
        }
        i := i + 1;
      }
    }

    /** The gate before execution. The record is loaded three times; `rechecked` and `reloaded` say
        whether the loads of the drift check and of the extraction succeed. A drift check whose load
        fails finds nothing. */
    method RunApproved(rid: Rid, rec: Option<Stored>, rechecked: bool, reloaded: bool, blocked: set<nat>,
        fdDrift: bool, git: GitGate)
      returns (res: RunOutcome)
      modifies this`fs
      ensures res == Denied(LostRecord) <==> rec.None? || rec.value.argv == []
      ensures res == Denied(SealDrift) <==>
                && rec.Some? && rec.value.argv != []
                && rechecked && exists f | f in SealFiles(rec.value) :: !Unchanged(old(fs), f)
      ensures var sealed := rec.Some? && SealFiles(rec.value) != [] && !dryRun;
        var held := rec.Some? && rec.value.argv != []
                    && !(rechecked && exists f | f in SealFiles(rec.value) :: !Unchanged(old(fs), f));
        var usable := sealed ==> reloaded && Usable(rid, SealFiles(rec.value), blocked);
        && (res == Denied(SealUnusable) <==> held && !usable)
        && (res == Denied(FdDrift) <==> held && usable && fdDrift)
        && (res == Denied(GitDrift) <==> held && usable && !fdDrift && git == Block)
      ensures res.Ran? <==>
                && rec.Some? && rec.value.argv != []
                && !(rechecked && exists f | f in SealFiles(rec.value) :: !Unchanged(old(fs), f))
                && (dryRun || SealFiles(rec.value) == [] || (reloaded && Usable(rid, SealFiles(rec.value), blocked)))
                && !fdDrift && git != Block
      ensures res.Ran? ==> res.warned == (git == Warn) && res.cwd == rec.value.cwd
      ensures dryRun || rec.None? || SealFiles(rec.value) == [] ==> fs == old(fs)
      ensures res.Ran? && (dryRun || SealFiles(rec.value) == []) ==> res.argv == rec.value.argv
      ensures res.Ran? && !dryRun && SealFiles(rec.value) != [] ==>
                var files, dir := SealFiles(rec.value), ExtractDir(state, rid);
                && reloaded && Accepts(files, ArchiveOf(rid))
                && fs == Extracted(Cleared(old(fs), dir), dir, Want(files), ArchiveOf(rid).entries)
                && res.argv == Rewritten(rec.value.argv, rec.value.cwd, ByPath(files, dir))
                && (WellSealed(files) ==> FrozenRun(fs, dir, files, rec.value.argv, rec.value.cwd, res.argv))
    {
      if rec.None? || |rec.value.argv| == 0 {
        return Denied(LostRecord);
      }
      var Stored(argv, cwd, seal) := rec.value;
      var files := SealFiles(rec.value);
      hide Accepts, Unchanged, Extracted, Rewritten, WellSealed, FrozenRun, Cleared, Want, ByPath, ExtractDir, Plain;
      if rechecked {
        var drift := CheckSealDrift(files);
        if drift {
          return Denied(SealDrift);
        }
      }
      var exec := argv;
      if |files| > 0 && !dryRun {
        var dir := MaterializeSeal(rid, reloaded, files, blocked);
        if dir.None? {
          return Denied(SealUnusable);
        }
        exec := SealedArgv(argv, cwd, files, dir.value);
        FrozenIfSealed(Cleared(old(fs), dir.value), dir.value, files, ArchiveOf(rid), argv, cwd);
      }
      if fdDrift {
        return Denied(FdDrift);
      }
      if git == Block {
        return Denied(GitDrift);
      }
      return Ran(exec, cwd, git == Warn);
    }
  }

  lemma SameBase(fs: Files, cwd: string, tok: string)
    requires Candidate(fs, cwd, tok).Some?
    ensures var t := Candidate(fs, cwd, tok).value; Below(Clean(cwd), t.abs) == Some(t.rel)
  {
    hide Clean, Resolved, FileLike, Below;
  }

  lemma FrozenIfSealed(fs: Files, dir: Path, files: seq<SealFile>, archive: Archive, argv: seq<string>, cwd: string)
    requires Accepts(files, archive)
    ensures WellSealed(files) ==>
              FrozenRun(Extracted(fs, dir, Want(files), archive.entries), dir, files, argv, cwd,
                Rewritten(argv, cwd, ByPath(files, dir)))
  {
    hide WellSealed, FrozenRun;
    if WellSealed(files) {
      AcceptedRunsFrozen(fs, dir, files, archive, argv, cwd);
    }
  }

  lemma StaysInside(fs: Files, dir: Path, want: map<Name, SealFile>, entries: seq<Entry>)
    requires AllGood(want, entries)
    ensures (forall n | n in want :: Plain(n)) ==> Cleared(Extracted(fs, dir, want, entries), dir) == Cleared(fs, dir)
  {
    hide Plain;
    if forall n | n in want :: Plain(n) {
      ExtractedInside(fs, dir, want, entries);
    }
  }

  lemma WantPlain(files: seq<SealFile>)
    ensures (forall f | f in files :: Plain(f.rel)) ==> forall n | n in Want(files) :: Plain(n)
  {
    hide Plain, Want;
    WantNames(files);
  }

  lemma NoEntries(entries: seq<Entry>, want: map<Name, SealFile>, fs: Files, dir: Path)
    ensures Names(entries[..0]) == {} && DistinctEntries(entries[..0]) && AllGood(want, entries[..0])
    ensures Extracted(fs, dir, want, entries[..0]) == fs
  {
  }

  lemma NextName(entries: seq<Entry>, i: nat)
    requires i < |entries|
    ensures Names(entries[..i + 1]) == Names(entries[..i]) + {entries[i].name}
  {
    assert entries[..i + 1] == entries[..i] + [entries[i]];
  }

  /** One bad entry is enough. */
  lemma NextGood(want: map<Name, SealFile>, entries: seq<Entry>, i: nat)
    requires i < |entries|
    ensures AllGood(want, entries[..i + 1]) <==> AllGood(want, entries[..i]) && EntryGood(want, entries[i])
    ensures AllGood(want, entries) ==> EntryGood(want, entries[i])
  {
    hide EntryGood;
    assert entries[..i + 1] == entries[..i] + [entries[i]];
    assert entries[i] in entries[..i + 1] && entries[i] in entries;
    assert forall e | e in entries[..i] :: e in entries[..i + 1];
  }

  /** And so is one repeated name. */
  lemma NextDistinct(entries: seq<Entry>, i: nat)
    requires i < |entries|
    ensures DistinctEntries(entries[..i + 1]) <==>
          DistinctEntries(entries[..i]) && entries[i].name !in Names(entries[..i])
    ensures DistinctEntries(entries) ==> entries[i].name !in Names(entries[..i])
  {
    if entries[i].name in Names(entries[..i]) {
      var e :| e in entries[..i] && e.name == entries[i].name;
      var k :| 0 <= k < i && entries[..i][k] == e;
      assert entries[k].name == entries[i].name && entries[..i + 1][k].name == entries[..i + 1][i].name;
    } else {
      assert forall k | 0 <= k < i :: entries[..i][k] in entries[..i];
      assert forall k | 0 <= k < i :: entries[..i + 1][k] == entries[..i][k];
    }
  }

  lemma NextExtracted(fs: Files, dir: Path, want: map<Name, SealFile>, entries: seq<Entry>, i: nat)
    requires i < |entries| && AllGood(want, entries[..i]) && EntryGood(want, entries[i])
    ensures AllGood(want, entries[..i + 1]) && entries[i].name in want && entries[i].bytes.Some?
    ensures Extracted(fs, dir, want, entries[..i + 1])
         == Extracted(fs, dir, want, entries[..i])[Walk(dir, entries[i].name) := FrozenNode(want[entries[i].name],
           entries[i].bytes.value)]
  {
    NextGood(want, entries, i);
    assert entries[..i + 1][..i] == entries[..i];
  }
}
