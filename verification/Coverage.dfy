/** What a seal covers: exactly the regular files below the working directory that arguments name, as long as
    they are few and small enough; and that those arguments then run as what the files held. */
module Coverage {
  import opened Records
  import opened Text
  import opened Seal
  import opened SealedRun

  // ----- Arguments that name files -------------------------------------------------------------------

  /** Below a directory, and not by stepping out of it. */
  predicate LiesBelow(base: Path, p: Path) {
    && p.rooted == base.rooted && |p.segs| > |base.segs|
    && p.segs[..|base.segs|] == base.segs && p.segs[|base.segs|] != ".."
  }

  /** One text occurs in another. */
  ghost predicate Occurs(sub: string, s: string) {
    exists a: string, b: string :: s == a + sub + b
  }

  const SHELL_CHARS := {'\0', '\n', '|', '&', ';', '<', '>', '(', ')', '{', '}', '!', '$', '`', '"', '\''}

  /** Not blank, no leading dash, no character of the shell's, no equals sign and no address. */
  ghost predicate PlainArgument(tok: string) {
    && TrimSpace(tok) != "" && tok != "" && tok[0] != '-'
    && (forall c | c in tok :: c !in SHELL_CHARS) && '=' !in tok
    && !Occurs("://", tok)
  }

  /** Such an argument that leads to a regular file below the working directory. */
  ghost predicate NamesFile(fs: Files, cwd: string, tok: string, p: Path) {
    && PlainArgument(tok)
    && Resolved(tok, cwd) == Some(p) && p in fs && fs[p].Regular? && LiesBelow(Clean(cwd), p)
  }

  lemma {:induction false} ContainsIff(s: string, sub: string)
    ensures Contains(s, sub) <==> Occurs(sub, s)
  {
    if sub <= s {
      assert s == [] + sub + s[|sub|..];
    } else if s != [] {
      ContainsIff(s[1..], sub);
      if a: string, b: string :| s == a + sub + b {
        NotInFront(s, sub, a, b);
        assert s[1..] == a[1..] + sub + b;
      }
      if a: string, b: string :| s[1..] == a + sub + b {
        assert s == ([s[0]] + a) + sub + b;
      }
    }
  }

  lemma NotInFront(s: string, sub: string, a: string, b: string)
    requires s == a + sub + b
    ensures a == [] ==> sub <= s
  {
    if a == [] {
      assert s == sub + b;
    }
  }

  lemma EqualsIff(s: string)
    ensures Contains(s, "=") <==> '=' in s
  {
    ContainsIff(s, "=");
    if '=' in s {
      var i :| 0 <= i < |s| && s[i] == '=';
      assert s == s[..i] + "=" + s[i + 1..];
    }
    if a: string, b: string :| s == a + "=" + b {
      assert s[|a|] == '=';
    }
  }

  lemma ShellyIs(c: char)
    ensures c in SHELLY <==> c in SHELL_CHARS
  {
  }

  lemma TokenIff(tok: string)
    ensures FileLike(tok) <==> PlainArgument(tok)
  {
    ContainsIff(tok, "://");
    EqualsIff(tok);
    assert TrimSpace("") == "";
    assert "-" <= tok <==> tok != "" && tok[0] == '-';
    hide Contains, TrimSpace, Occurs;
    forall c: char ensures c in SHELLY <==> c in SHELL_CHARS {
      ShellyIs(c);
    }
    hide SHELLY, SHELL_CHARS;
  }

  /** An argument is a candidate for the seal exactly if it names a file in this sense. */
  lemma CandidateIff(fs: Files, cwd: string, tok: string, t: Target)
    ensures Candidate(fs, cwd, tok) == Some(t) <==>
            NamesFile(fs, cwd, tok, t.abs) && t.rel == t.abs.segs[|Clean(cwd).segs|..]
  {
    TokenIff(tok);
    hide FileLike, PlainArgument, Resolved, Clean;
  }

  // ----- All of them are sealed ----------------------------------------------------------------------

  /** The files that arguments name, each once. */
  ghost predicate Named(fs: Files, cwd: string, argv: seq<string>, named: seq<Path>) {
    && (forall i, j | 0 <= i < j < |named| :: named[i] != named[j])
    && (forall p :: p in named <==> exists tok | tok in argv :: NamesFile(fs, cwd, tok, p))
  }

  /** Readable, and at most 2 MiB. */
  predicate Readable(fs: Files, p: Path) {
    && p in fs && fs[p].Regular? && fs[p].size <= 2 * 1024 * 1024
    && fs[p].content.Some? && |fs[p].content.value| <= 2 * 1024 * 1024
  }

  function SizeOf(fs: Files, p: Path): nat {
    if p in fs && fs[p].Regular? && fs[p].content.Some? then |fs[p].content.value| else 0
  }

  function Total(fs: Files, paths: seq<Path>): nat {
    if paths == [] then 0 else SizeOf(fs, paths[0]) + Total(fs, paths[1..])
  }

  function Paths(targets: seq<Target>): seq<Path> {
    seq(|targets|, k requires 0 <= k < |targets| => targets[k].abs)
  }

  lemma {:induction false} TotalSplits(fs: Files, a: seq<Path>, b: seq<Path>)
    ensures Total(fs, a + b) == Total(fs, a) + Total(fs, b)
  {
    if a == [] {
      assert a + b == b;
    } else {
      TotalSplits(fs, a[1..], b);
      assert (a + b)[1..] == a[1..] + b;
    }
  }

  lemma Without(a: seq<Path>, b: seq<Path>, j: nat)
    requires multiset(a) == multiset(b) && a != [] && j < |b| && b[j] == a[0]
    ensures multiset(a[1..]) == multiset(b[..j] + b[j + 1..])
  {
    assert a == [a[0]] + a[1..];
    assert b == b[..j] + [b[j]] + b[j + 1..];
    assert multiset(a[1..]) == multiset(a) - multiset{a[0]};
    assert multiset(b[..j] + b[j + 1..]) == multiset(b) - multiset{b[j]};
  }

  lemma {:induction false} TotalIgnoresOrder(fs: Files, a: seq<Path>, b: seq<Path>)
    requires multiset(a) == multiset(b)
    ensures Total(fs, a) == Total(fs, b)
    decreases |a|
  {
    if a == [] {
      assert |b| == |multiset(b)|;
    } else {
      assert a[0] in multiset(a);
      assert a[0] in multiset(b);
      var j :| 0 <= j < |b| && b[j] == a[0];
      var front, back := b[..j], b[j + 1..];
      Without(a, b, j);
      TotalIgnoresOrder(fs, a[1..], front + back);
      TotalSplits(fs, front, back);
      TotalSplits(fs, front, [a[0]] + back);
      assert b == front + ([a[0]] + back);
      assert ([a[0]] + back)[1..] == back;
    }
  }

  lemma {:induction false} SameOnes(a: seq<Path>, b: seq<Path>)
    requires forall i, j | 0 <= i < j < |a| :: a[i] != a[j]
    requires forall i, j | 0 <= i < j < |b| :: b[i] != b[j]
    requires forall p :: p in a <==> p in b
    ensures multiset(a) == multiset(b) && |a| == |b|
  {
    forall p ensures multiset(a)[p] == multiset(b)[p] {
      AtMostOnce(a, p);
      AtMostOnce(b, p);
      assert p in a <==> p in multiset(a);
      assert p in b <==> p in multiset(b);
    }
    assert |multiset(a)| == |a| && |multiset(b)| == |b|;
  }

  lemma {:induction false} AtMostOnce(a: seq<Path>, p: Path)
    requires forall i, j | 0 <= i < j < |a| :: a[i] != a[j]
    ensures multiset(a)[p] <= 1
  {
    if a != [] {
      var init, last := a[..|a| - 1], a[|a| - 1];
      AtMostOnce(init, p);
      assert a == init + [last];
      if p == last {
        assert p !in init;
      }
    }
  }

  lemma {:induction false} PathsOfSorted(s: seq<Target>)
    ensures multiset(Paths(SortByName(s))) == multiset(Paths(s))
  {
    if s != [] {
      var init := s[..|s| - 1];
      PathsOfSorted(init);
      PathsOfPlaced(SortByName(init), s[|s| - 1]);
      assert Paths(s) == Paths(init) + [s[|s| - 1].abs];
    }
  }

  lemma {:induction false} PathsOfPlaced(s: seq<Target>, t: Target)
    ensures multiset(Paths(Placed(s, t))) == multiset(Paths(s)) + multiset{t.abs}
  {
    hide NameBefore;
    if s == [] || NameBefore(t, s[0]) {
      assert Paths([t] + s) == [t.abs] + Paths(s);
    } else {
      PathsOfPlaced(s[1..], t);
      assert Paths([s[0]] + Placed(s[1..], t)) == [s[0].abs] + Paths(Placed(s[1..], t));
      assert Paths(s) == [s[0].abs] + Paths(s[1..]);
    }
  }

  lemma GatheredAreNamed(fs: Files, cwd: string, argv: seq<string>, named: seq<Path>)
    requires Named(fs, cwd, argv, named)
    ensures var found := Gathered(fs, cwd, argv);
      |found| == |named| && multiset(Paths(found)) == multiset(named)
  {
    var found := Gathered(fs, cwd, argv);
    var paths := Paths(found);
    GatheredAre(fs, cwd, argv);
    hide Gathered, NamesFile, Candidate;
    forall i, j | 0 <= i < j < |paths| ensures paths[i] != paths[j] {
      assert found[i] in found && found[j] in found;
      var a :| a in argv && Candidate(fs, cwd, a) == Some(found[i]);
      var b :| b in argv && Candidate(fs, cwd, b) == Some(found[j]);
      CandidateIff(fs, cwd, a, found[i]);
      CandidateIff(fs, cwd, b, found[j]);
    }
    forall p ensures p in paths <==> p in named {
      if p in paths {
        var i :| 0 <= i < |found| && paths[i] == p;
        assert found[i] in found;
        var a :| a in argv && Candidate(fs, cwd, a) == Some(found[i]);
        CandidateIff(fs, cwd, a, found[i]);
      }
      if p in named {
        var a :| a in argv && NamesFile(fs, cwd, a, p);
        NamedIsCandidate(fs, cwd, a, p);
        var t := Candidate(fs, cwd, a).value;
        assert t in found;
        var i :| 0 <= i < |found| && found[i] == t;
        assert paths[i] == p;
      }
    }
    SameOnes(paths, named);
  }

  lemma NamedIsCandidate(fs: Files, cwd: string, tok: string, p: Path)
    requires NamesFile(fs, cwd, tok, p)
    ensures Candidate(fs, cwd, tok).Some? && Candidate(fs, cwd, tok).value.abs == p
  {
    CandidateIff(fs, cwd, tok, Target(p, p.segs[|Clean(cwd).segs|..]));
    hide Candidate, PlainArgument, Resolved;
  }

  lemma {:induction false} AllBlobs(fs: Files, targets: seq<Target>, total: nat)
    requires forall t | t in targets :: BlobOf(fs, t).Some?
    requires total + Total(fs, Paths(targets)) <= MAX_TOTAL
    ensures |Blobs(fs, targets, total)| == |targets|
    ensures forall k | 0 <= k < |targets| :: Blobs(fs, targets, total)[k] == BlobOf(fs, targets[k]).value
  {
    if targets != [] {
      assert Paths(targets)[1..] == Paths(targets[1..]) && Paths(targets)[0] == targets[0].abs;
      assert targets[0] in targets && forall t | t in targets[1..] :: t in targets;
      var size := |BlobOf(fs, targets[0]).value.bytes|;
      assert SizeOf(fs, targets[0].abs) == size;
      hide BlobOf, SizeOf;
      AllBlobs(fs, targets[1..], total + size);
    }
  }

  lemma CandidatesAreNamed(fs: Files, cwd: string, argv: seq<string>, named: seq<Path>)
    requires !Blank(cwd) && Clean(cwd) in fs && fs[Clean(cwd)].Folder?
    requires Named(fs, cwd, argv, named) && |named| <= 32
    ensures var targets := Candidates(fs, cwd, argv);
      |targets| == |named| && multiset(Paths(targets)) == multiset(named)
  {
    var found := Gathered(fs, cwd, argv);
    GatheredAreNamed(fs, cwd, argv, named);
    SortByNameSorts(found);
    PathsOfSorted(found);
    hide Gathered, SortByName, Clean, Blank, Named;
  }

  lemma SameMembers(a: seq<Path>, b: seq<Path>)
    requires multiset(a) == multiset(b)
    ensures forall p :: p in a <==> p in b
  {
    assert forall p :: p in a <==> p in multiset(a);
    assert forall p :: p in b <==> p in multiset(b);
  }

  lemma SealedAreNamed(fs: Files, cwd: string, argv: seq<string>, named: seq<Path>)
    requires !Blank(cwd) && Clean(cwd) in fs && fs[Clean(cwd)].Folder?
    requires Named(fs, cwd, argv, named) && |named| <= 32
    requires (forall p | p in named :: Readable(fs, p)) && Total(fs, named) <= MAX_TOTAL
    ensures var targets, blobs := Candidates(fs, cwd, argv), Sealed(fs, cwd, argv);
      && |targets| == |blobs| == |named| && (forall p :: p in Paths(targets) <==> p in named)
      && forall k | 0 <= k < |blobs| :: BlobOf(fs, targets[k]) == Some(blobs[k])
  {
    var targets := Candidates(fs, cwd, argv);
    CandidatesAreNamed(fs, cwd, argv, named);
    TotalIgnoresOrder(fs, Paths(targets), named);
    SameMembers(Paths(targets), named);
    hide Candidates, Clean, Named, Blank;
    forall t | t in targets ensures BlobOf(fs, t).Some? {
      var k :| 0 <= k < |targets| && targets[k] == t;
      assert Paths(targets)[k] == t.abs && Paths(targets)[k] in Paths(targets);
      assert Readable(fs, t.abs);
    }
    AllBlobs(fs, targets, 0);
    hide BlobOf;
  }

  /** If the arguments name at most 32 files, each readable and at most 2 MiB, and together at most 8 MiB,
      then the seal covers exactly those files, each once, with the bytes it holds. */
  lemma NamedFilesAreSealed(fs: Files, cwd: string, argv: seq<string>, named: seq<Path>)
    requires TrimSpace(cwd) != "" && Clean(cwd) in fs && fs[Clean(cwd)].Folder?
    requires Named(fs, cwd, argv, named) && |named| <= 32
    requires (forall p | p in named :: Readable(fs, p)) && Total(fs, named) <= 8 * 1024 * 1024
    ensures var files := Manifest(Sealed(fs, cwd, argv));
      && |files| == |named|
      && (forall p :: p in named <==> exists f | f in files :: f.abs == p)
      && (forall f | f in files :: f.abs in fs && fs[f.abs].Regular? && fs[f.abs].content == Some(f.digest.of))
  {
    var targets, blobs := Candidates(fs, cwd, argv), Sealed(fs, cwd, argv);
    var files := Manifest(blobs);
    SealedAreNamed(fs, cwd, argv, named);
    hide Candidates, Sealed, Clean, Named, TrimSpace, Readable, Total;
    assert forall k | 0 <= k < |files| :: files[k].abs == targets[k].abs == Paths(targets)[k];
    forall p | p in named ensures exists f | f in files :: f.abs == p {
      var k :| 0 <= k < |targets| && Paths(targets)[k] == p;
      assert files[k] in files;
    }
    forall f | f in files
      ensures f.abs in named && f.abs in fs && fs[f.abs].Regular? && fs[f.abs].content == Some(f.digest.of)
    {
      var k :| 0 <= k < |files| && files[k] == f;
      assert BlobOf(fs, targets[k]) == Some(blobs[k]) && Paths(targets)[k] in Paths(targets);
    }
  }

  lemma FrozenOne(fs: Files, dir: Path, files: seq<SealFile>, argv: seq<string>, cwd: string, exec: seq<string>,
                  i: nat, p: Path)
    requires FrozenRun(fs, dir, files, argv, cwd, exec) && i < |argv|
    requires !Blank(argv[i]) && Resolved(argv[i], cwd) == Some(p) && exists f | f in files :: f.abs == p
    ensures exists f | f in files :: f.abs == p && RunsFrozen(fs, dir, f, exec[i])
  {
    hide RunsFrozen, Blank, Resolved;
  }

  /** The token is the path of a copy of what the file held in `fs0`. */
  ghost predicate FrozenAs(fs0: Files, fs: Files, dir: Path, files: seq<SealFile>, p: Path, token: string)
    requires p in fs0 && fs0[p].Regular?
  {
    exists f | f in files :: f.abs == p && fs0[p].content == Some(f.digest.of) && RunsFrozen(fs, dir, f, token)
  }

  /** What `argv` names is frozen in the run of `exec`, as it was in `fs0`. */
  ghost predicate NamedFrozen(fs0: Files, fs: Files, dir: Path, files: seq<SealFile>, argv: seq<string>, cwd: string,
                              exec: seq<string>)
    requires |exec| == |argv|
  {
    forall i, p | 0 <= i < |argv| && NamesFile(fs0, cwd, argv[i], p) :: FrozenAs(fs0, fs, dir, files, p, exec[i])
  }

  lemma FrozenAll(fs0: Files, fs: Files, dir: Path, files: seq<SealFile>, argv: seq<string>, cwd: string,
                  exec: seq<string>, named: seq<Path>)
    requires FrozenRun(fs, dir, files, argv, cwd, exec) && Named(fs0, cwd, argv, named)
    requires forall p | p in named :: exists f | f in files :: f.abs == p
    requires forall f | f in files :: f.abs in fs0 && fs0[f.abs].Regular? && fs0[f.abs].content == Some(f.digest.of)
    ensures |exec| == |argv| && NamedFrozen(fs0, fs, dir, files, argv, cwd, exec)
  {
    assert |exec| == |argv|;
    hide FrozenRun, RunsFrozen, Resolved, Clean;
    forall i, p | 0 <= i < |argv| && NamesFile(fs0, cwd, argv[i], p)
      ensures FrozenAs(fs0, fs, dir, files, p, exec[i])
    {
      assert argv[i] in argv && p in named;
      FrozenOne(fs, dir, files, argv, cwd, exec, i, p);
      var f :| f in files && f.abs == p && RunsFrozen(fs, dir, f, exec[i]);
      assert fs0[p].content == Some(f.digest.of);
    }
  }

  /** And then, whatever has become of the files since, every argument that named one of them runs as the
      path of a copy of the bytes it held when the petition was filed. */
  lemma NamedFilesRunFrozen(fs0: Files, fs1: Files, state: Path, rid: Rid, argv: seq<string>, cwd: string,
                            named: seq<Path>, archive: Archive)
    requires TrimSpace(cwd) != "" && Clean(cwd) in fs0 && fs0[Clean(cwd)].Folder?
    requires Named(fs0, cwd, argv, named) && |named| <= 32
    requires (forall p | p in named :: Readable(fs0, p)) && Total(fs0, named) <= 8 * 1024 * 1024
    requires Accepts(Manifest(Sealed(fs0, cwd, argv)), archive)
    ensures var files := Manifest(Sealed(fs0, cwd, argv)); var dir := ExtractDir(state, rid);
      var fs2 := Extracted(Cleared(fs1, dir), dir, Want(files), archive.entries);
      NamedFrozen(fs0, fs2, dir, files, argv, cwd, Rewritten(argv, cwd, ByPath(files, dir)))
  {
    var files, dir := Manifest(Sealed(fs0, cwd, argv)), ExtractDir(state, rid);
    var fs2 := Extracted(Cleared(fs1, dir), dir, Want(files), archive.entries);
    var exec := Rewritten(argv, cwd, ByPath(files, dir));
    hide Sealed, Manifest, ExtractDir, Extracted, Rewritten, Accepts, Want, Cleared, ByPath, Clean, FrozenRun,
      TrimSpace, Readable, Total, Named, NamedFrozen;
    NamedFilesAreSealed(fs0, cwd, argv, named);
    WhatRunsIsWhatWasSealed(fs0, fs1, state, rid, argv, cwd, archive);
    FrozenAll(fs0, fs2, dir, files, argv, cwd, exec, named);
  }

  /** Only such files are sealed, however many there are. */
  lemma OnlyNamedAreSealed(fs: Files, cwd: string, argv: seq<string>)
    ensures forall f | f in Manifest(Sealed(fs, cwd, argv)) :: exists tok | tok in argv ::
          NamesFile(fs, cwd, tok, f.abs)
  {
    var targets, blobs := Candidates(fs, cwd, argv), Sealed(fs, cwd, argv);
    BlobsAre(fs, targets, 0);
    CandidatesAre(fs, cwd, argv);
    hide Candidates, Blobs, BlobOf, NamesFile, Candidate, InNameOrder;
    forall f | f in Manifest(blobs) ensures exists tok | tok in argv :: NamesFile(fs, cwd, tok, f.abs) {
      var k :| 0 <= k < |blobs| && Manifest(blobs)[k] == f;
      assert blobs[k] in blobs && blobs[k].target in targets;
      var tok :| tok in argv && Candidate(fs, cwd, tok) == Some(blobs[k].target);
      CandidateIff(fs, cwd, tok, blobs[k].target);
    }
  }

  /** Past the limit on the total, the seal holds what can be read of the first `n` targets, and the next
      can be read and would not fit any more. */
  ghost predicate StopsAt(fs: Files, targets: seq<Target>, total: nat, n: nat) {
    && n <= |targets|
    && (forall t | t in targets[..n] && BlobOf(fs, t).Some? :: BlobOf(fs, t).value in Blobs(fs, targets, total))
    && (forall b | b in Blobs(fs, targets, total) :: b.target in targets[..n])
    && (n < |targets| ==>
          && BlobOf(fs, targets[n]).Some?
          && total + TotalBytes(Blobs(fs, targets, total)) + |BlobOf(fs, targets[n]).value.bytes| > MAX_TOTAL)
  }

  lemma StopsLater(fs: Files, targets: seq<Target>, total: nat, m: nat)
    requires targets != []
    requires var b := BlobOf(fs, targets[0]); var size := if b.Some? then |b.value.bytes| else 0;
      (b.Some? ==> total + size <= MAX_TOTAL && b.value.target == targets[0])
        && StopsAt(fs, targets[1..], total + size, m)
    ensures StopsAt(fs, targets, total, m + 1)
  {
    hide BlobOf;
    assert targets[..m + 1] == [targets[0]] + targets[1..][..m];
  }

  lemma {:induction false} BlobsStop(fs: Files, targets: seq<Target>, total: nat) returns (n: nat)
    ensures StopsAt(fs, targets, total, n)
  {
    if targets == [] {
      n := 0;
    } else {
      var b := BlobOf(fs, targets[0]);
      assert b.Some? ==> b.value.target == targets[0];
      var size := if b.Some? then |b.value.bytes| else 0;
      hide BlobOf;
      if b.Some? && total + size > MAX_TOTAL {
        n := 0;
        assert targets[..0] == [];
      } else {
        hide StopsAt;
        var m := BlobsStop(fs, targets[1..], total + size);
        n := m + 1;
        StopsLater(fs, targets, total, m);
      }
    }
  }

  // ----- Where arguments lead ------------------------------------------------------------------------

  predicate SlashFree(name: Name) {
    forall i | 0 <= i < |name| :: '/' !in name[i]
  }

  lemma {:induction false} SplitFront(a: string, c: char, b: string)
    requires c !in a
    ensures Split(a + [c] + b, c) == [a] + Split(b, c)
  {
    var s := a + [c] + b;
    if a == [] {
      assert s[1..] == b;
    } else {
      assert s[1..] == a[1..] + [c] + b;
      SplitFront(a[1..], c, b);
      assert [s[0]] + a[1..] == a;
    }
  }

  lemma {:induction false} SlashedSplits(name: Name)
    requires name != [] && SlashFree(name)
    ensures Split(Slashed(name), '/') == name
  {
    if |name| == 1 {
      SplitNone(name[0], '/');
      assert name == [name[0]];
    } else {
      SlashedSplits(name[1..]);
      SplitFront(name[0], '/', Slashed(name[1..]));
      assert Slashed(name) == name[0] + ['/'] + Slashed(name[1..]);
      assert name == [name[0]] + name[1..];
    }
  }

  lemma {:induction false} WalkOn(p: Path, a: seq<string>, b: seq<string>)
    ensures Walk(p, a + b) == Walk(Walk(p, a), b)
  {
    if b == [] {
      assert a + b == a;
    } else {
      var init := b[..|b| - 1];
      WalkOn(p, a, init);
      assert (a + b)[..|a + b| - 1] == a + init;
    }
  }

  lemma FirstOfSlashed(name: Name)
    requires name != [] && SlashFree(name) && Plain(name)
    ensures Slashed(name) != "" && Slashed(name)[0] != '/'
  {
    assert name[0] != "" && name[0][0] in name[0];
  }

  lemma RelativeCleans(name: Name)
    requires name != [] && Plain(name) && SlashFree(name)
    ensures Clean(Slashed(name)) == Path(false, name)
  {
    SlashedSplits(name);
    FirstOfSlashed(name);
    WalkPlain(Path(false, []), name);
    hide Walk, Slashed, Split, Plain, SlashFree;
    assert [] + name == name;
  }

  lemma AbsoluteCleans(name: Name)
    requires name != [] && Plain(name) && SlashFree(name)
    ensures Clean("/" + Slashed(name)) == Path(true, name)
  {
    var base, s := Path(true, []), Slashed(name);
    SlashedSplits(name);
    WalkPlain(base, name);
    SplitFront([], '/', s);
    WalkOn(base, [""], name);
    EmptyStep(base);
    hide Walk, Slashed, Split, Plain, SlashFree;
    assert "/" + s == [] + ['/'] + s && [] + name == name;
  }

  /** A clean path written out and read again is itself. */
  lemma RenderCleans(p: Path)
    requires Plain(p.segs) && SlashFree(p.segs)
    ensures Clean(Render(p)) == p
  {
    RootCleans();
    assert "/" + "" == "/";
    if p.segs != [] {
      RelativeCleans(p.segs);
      AbsoluteCleans(p.segs);
    }
    hide Clean;
  }

  lemma EmptyStep(p: Path)
    ensures Walk(p, [""]) == p && Walk(p, ["."]) == p
  {
    assert [""][..0] == [] && ["."][..0] == [];
  }

  lemma RootCleans()
    ensures Clean("/") == Path(true, []) && Clean(".") == Path(false, [])
  {
    SplitFront("", '/', "");
    assert [] + ['/'] + "" == "/" && [""] + [""] == ["", ""];
    SplitNone(".", '/');
    WalkOn(Path(true, []), [""], [""]);
    assert [""] + [""] == ["", ""];
    EmptyStep(Path(true, []));
    EmptyStep(Path(false, []));
  }

  /** A plain relative argument leads to the file of that name below the working directory; an absolute
      one to the path it spells; a step up takes back a step down, and at the root it stays. */
  lemma WhereArgumentsLead(cwd: string, name: Name, p: Path, seg: string)
    requires Plain(name) && SlashFree(name) && name != [] && TrimSpace(cwd) != ""
    requires Plain(p.segs) && SlashFree(p.segs) && Plain([seg])
    ensures Resolved(Slashed(name), cwd) == Some(Path(Clean(cwd).rooted, Clean(cwd).segs + name))
    ensures p.rooted ==> Resolved(Render(p), cwd) == Some(p)
    ensures Walk(p, [seg, ".."]) == p && Walk(Path(true, []), [".."]) == Path(true, [])
  {
    RenderCleans(Path(false, name));
    RenderCleans(p);
    WalkPlain(Clean(cwd), name);
    StepUp(p, seg);
  }

  lemma StepUp(p: Path, seg: string)
    requires Plain([seg])
    ensures Walk(p, [seg, ".."]) == p && Walk(Path(true, []), [".."]) == Path(true, [])
  {
    WalkPlain(p, [seg]);
    assert [seg][0] == seg;
    assert [seg, ".."][..1] == [seg] && [".."][..0] == [];
    assert (p.segs + [seg])[..|p.segs|] == p.segs;
  }
}
