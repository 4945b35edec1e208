/** Which input files a petition's seal covers: the tokens of the command that name regular files below its
    working directory. */
module Seal {
  import opened Records
  import opened Text

  type Bytes = seq<bv8>

  /** SHA-256, taken to be injective. */
  datatype Digest = Sha256(of: Bytes)

  const MAX_FILES := 32
  const MAX_TOTAL := 0x80_0000
  const MAX_FILE := 0x20_0000

  // ----- Paths ---------------------------------------------------------------------------------------

  /** A cleaned path. */
  datatype Path = Path(rooted: bool, segs: seq<string>)

  /** A slash-separated name, split at its slashes. */
  type Name = seq<string>

  function Push(p: Path, seg: string): Path {
    if seg == "" || seg == "." then p
    else if seg != ".." then Path(p.rooted, p.segs + [seg])
    else if p.segs != [] && p.segs[|p.segs| - 1] != ".." then Path(p.rooted, p.segs[..|p.segs| - 1])
    else if p.rooted then p
    else Path(p.rooted, p.segs + [seg])
  }

  function Walk(p: Path, segs: seq<string>): Path {
    if segs == [] then p else Push(Walk(p, segs[..|segs| - 1]), segs[|segs| - 1])
  }

  function Clean(s: string): Path {
    Walk(Path(s != "" && s[0] == '/', []), Split(s, '/'))
  }

  function Slashed(segs: seq<string>): string {
    if segs == [] then "" else if |segs| == 1 then segs[0] else segs[0] + "/" + Slashed(segs[1..])
  }

  function Render(p: Path): string {
    if p.rooted then "/" + Slashed(p.segs) else if p.segs == [] then "." else Slashed(p.segs)
  }

  function Blank(s: string): bool {
    TrimSpace(s) == ""
  }

  /** The path an argument names, if it names one. */
  function Resolved(tok: string, cwd: string): Option<Path> {
    var p := Clean(tok);
    if p.rooted then Some(p)
    else if Blank(cwd) then None
    else Some(Walk(Clean(cwd), p.segs))
  }

  /** No component that path walking treats specially. */
  predicate Plain(name: Name) {
    forall i | 0 <= i < |name| :: name[i] != "" && name[i] != "." && name[i] != ".."
  }

  /** Dots are gone, and leading parent steps are left in relative paths only. */
  predicate Normal(p: Path) {
    forall i | 0 <= i < |p.segs| ::
      && p.segs[i] != "" && p.segs[i] != "."
      && (p.segs[i] == ".." ==> !p.rooted && forall j | 0 <= j < i :: p.segs[j] == "..")
  }

  lemma PushNormal(p: Path, seg: string)
    requires Normal(p)
    ensures Normal(Push(p, seg))
  {
    if seg == ".." && p.segs != [] && p.segs[|p.segs| - 1] == ".." {
      assert !p.rooted;
    }
  }

  lemma {:induction false} WalkNormal(p: Path, segs: seq<string>)
    requires Normal(p)
    ensures Normal(Walk(p, segs))
  {
    if segs != [] {
      WalkNormal(p, segs[..|segs| - 1]);
      PushNormal(Walk(p, segs[..|segs| - 1]), segs[|segs| - 1]);
    }
  }

  lemma ResolvedNormal(tok: string, cwd: string)
    ensures Resolved(tok, cwd).Some? ==> Normal(Resolved(tok, cwd).value)
  {
    hide Split;
    WalkNormal(Path(tok != "" && tok[0] == '/', []), Split(tok, '/'));
    WalkNormal(Path(cwd != "" && cwd[0] == '/', []), Split(cwd, '/'));
    WalkNormal(Clean(cwd), Clean(tok).segs);
  }

  lemma {:induction false} WalkPlain(p: Path, name: Name)
    requires Plain(name)
    ensures Walk(p, name) == Path(p.rooted, p.segs + name)
  {
    if name == [] {
      assert p.segs + [] == p.segs;
    } else {
      WalkPlain(p, name[..|name| - 1]);
      assert p.segs + name[..|name| - 1] + [name[|name| - 1]] == p.segs + name;
    }
  }

  // ----- Files ---------------------------------------------------------------------------------------

  /** What a path leads to: `size` as a stat reports it, `content` as a read returns it, if it does. */
  datatype Node = Folder | Regular(mode: bv32, size: int, content: Option<Bytes>) | Special

  type Files = map<Path, Node>

  datatype Target = Target(abs: Path, rel: Name)

  /** The name of a path below a directory. */
  function Below(base: Path, p: Path): Option<Name> {
    if base.rooted == p.rooted && base.segs < p.segs && p.segs[|base.segs|] != ".."
    then Some(p.segs[|base.segs|..]) else None
  }

  predicate Contains(s: string, sub: string) {
    sub <= s || (s != [] && Contains(s[1..], sub))
  }

  const SHELLY := "\0\n|&;<>(){}!$`\"'"

  /** Flags, shell-looking text, addresses and assignments are never file arguments. */
  predicate FileLike(tok: string) {
    && !Blank(tok)
    && !("-" <= tok)
    && (forall c | c in tok :: c !in SHELLY)
    && !Contains(tok, "://")
    && !Contains(tok, "=")
  }

  function Candidate(fs: Files, cwd: string, tok: string): Option<Target> {
    var abs := Resolved(tok, cwd);
    if !FileLike(tok) || abs.None? || abs.value !in fs || !fs[abs.value].Regular? then None
    else
      var rel := Below(Clean(cwd), abs.value);
      if rel.None? then None else Some(Target(abs.value, rel.value))
  }

  // ----- Sorting by name -----------------------------------------------------------------------------

  predicate TextBefore(a: string, b: string) {
    b != [] && (a == [] || a[0] < b[0] || (a[0] == b[0] && TextBefore(a[1..], b[1..])))
  }

  /** The order of texts: a proper prefix comes first, and otherwise the first differing character says. */
  lemma {:induction false} TextBeforeIs(front: string, a: string, b: string)
    requires a != [] && b != [] ==> a[0] != b[0]
    ensures TextBefore(front + a, front + b) <==> b != [] && (a == [] || a[0] < b[0])
  {
    if front == [] {
      assert front + a == a && front + b == b;
    } else {
      TextBeforeIs(front[1..], a, b);
      assert (front + a)[1..] == front[1..] + a && (front + b)[1..] == front[1..] + b;
    }
  }

  predicate NameBefore(a: Target, b: Target) {
    TextBefore(Slashed(a.rel), Slashed(b.rel))
  }

  lemma {:induction false} TextNegTransitive(a: string, b: string, c: string)
    requires !TextBefore(b, a) && !TextBefore(c, b)
    ensures !TextBefore(c, a)
    decreases |a|
  {
    if a != [] && b != [] && c != [] && a[0] == b[0] == c[0] {
      TextNegTransitive(a[1..], b[1..], c[1..]);
    }
  }

  lemma {:induction false} TextAsymmetric(a: string, b: string)
    requires TextBefore(a, b)
    ensures !TextBefore(b, a)
    decreases |a|
  {
    if a != [] && a[0] == b[0] {
      TextAsymmetric(a[1..], b[1..]);
    }
  }

  predicate InNameOrder(s: seq<Target>) {
    forall i, j | 0 <= i < j < |s| :: !NameBefore(s[j], s[i])
  }

  function Placed(s: seq<Target>, t: Target): seq<Target> {
    if s == [] || NameBefore(t, s[0]) then [t] + s else [s[0]] + Placed(s[1..], t)
  }

  function SortByName(s: seq<Target>): seq<Target> {
    if s == [] then [] else Placed(SortByName(s[..|s| - 1]), s[|s| - 1])
  }

  lemma {:induction false} PlacedHolds(s: seq<Target>, t: Target)
    ensures multiset(Placed(s, t)) == multiset(s) + multiset{t}
    ensures |Placed(s, t)| == |s| + 1
    ensures forall x :: x in Placed(s, t) <==> x in s || x == t
  {
    if s != [] && !NameBefore(t, s[0]) {
      PlacedHolds(s[1..], t);
      assert s == [s[0]] + s[1..];
    }
  }

  lemma {:induction false} PlacedInOrder(s: seq<Target>, t: Target)
    requires InNameOrder(s)
    ensures InNameOrder(Placed(s, t))
  {
    hide TextBefore;
    if s == [] {
    } else if NameBefore(t, s[0]) {
      TextAsymmetric(Slashed(t.rel), Slashed(s[0].rel));
      forall j | 0 <= j < |s| ensures !NameBefore(s[j], t) {
        if j > 0 {
          TextNegTransitive(Slashed(t.rel), Slashed(s[0].rel), Slashed(s[j].rel));
        }
      }
    } else {
      PlacedInOrder(s[1..], t);
      PlacedHolds(s[1..], t);
      var rest := Placed(s[1..], t);
      forall j | 0 <= j < |rest| ensures !NameBefore(rest[j], s[0]) {
        assert rest[j] in rest;
      }
    }
  }

  lemma {:induction false} SortByNameSorts(s: seq<Target>)
    ensures multiset(SortByName(s)) == multiset(s) && InNameOrder(SortByName(s))
    ensures |SortByName(s)| == |s|
  {
    if s != [] {
      var init := s[..|s| - 1];
      SortByNameSorts(init);
      PlacedHolds(SortByName(init), s[|s| - 1]);
      PlacedInOrder(SortByName(init), s[|s| - 1]);
      assert s == init + [s[|s| - 1]];
    }
  }

  // ----- Candidates ----------------------------------------------------------------------------------

  /** The candidates in argument order, each path once. */
  function Gathered(fs: Files, cwd: string, argv: seq<string>): seq<Target> {
    if argv == [] then []
    else
      var rest := Gathered(fs, cwd, argv[..|argv| - 1]);
      var t := Candidate(fs, cwd, argv[|argv| - 1]);
      if t.None? || t.value in rest then rest else rest + [t.value]
  }

  function Candidates(fs: Files, cwd: string, argv: seq<string>): seq<Target> {
    if Blank(cwd) || Clean(cwd) !in fs || !fs[Clean(cwd)].Folder? then []
    else
      var all := SortByName(Gathered(fs, cwd, argv));
      if |all| > MAX_FILES then all[..MAX_FILES] else all
  }

  predicate DistinctTargets(s: seq<Target>) {
    forall i, j | 0 <= i < j < |s| :: s[i] != s[j]
  }

  predicate IsCandidate(fs: Files, cwd: string, argv: seq<string>, t: Target) {
    exists tok | tok in argv :: Candidate(fs, cwd, tok) == Some(t)
  }

  lemma {:induction false} GatheredAre(fs: Files, cwd: string, argv: seq<string>)
    ensures DistinctTargets(Gathered(fs, cwd, argv))
    ensures forall t :: t in Gathered(fs, cwd, argv) <==> IsCandidate(fs, cwd, argv, t)
  {
    if argv != [] {
      var init, last := argv[..|argv| - 1], argv[|argv| - 1];
      GatheredAre(fs, cwd, init);
      hide Candidate;
      assert forall tok :: tok in argv <==> tok in init || tok == last;
      forall t ensures IsCandidate(fs, cwd, argv, t)
        <==> IsCandidate(fs, cwd, init, t) || Candidate(fs, cwd, last) == Some(t) {
        assert last in argv;
      }
    }
  }

  /** A candidate's path is its name below the working directory. */
  lemma CandidateShape(fs: Files, cwd: string, tok: string)
    requires Candidate(fs, cwd, tok).Some?
    ensures var t := Candidate(fs, cwd, tok).value; var base := Clean(cwd);
      && t.abs == Path(base.rooted, base.segs + t.rel) && t.rel != [] && Plain(t.rel)
      && Resolved(tok, cwd) == Some(t.abs) && t.abs in fs && fs[t.abs].Regular?
  {
    ResolvedNormal(tok, cwd);
    hide Resolved, Clean, FileLike;
    var t := Candidate(fs, cwd, tok).value;
    var base := Clean(cwd);
    assert t.abs.segs == base.segs + t.rel;
    assert t.rel[0] == t.abs.segs[|base.segs|];
    forall i | 0 <= i < |t.rel| ensures t.rel[i] != "" && t.rel[i] != "." && t.rel[i] != ".." {
      assert t.rel[i] == t.abs.segs[|base.segs| + i];
    }
  }

  lemma {:induction false} OncePerTarget(s: seq<Target>)
    ensures DistinctTargets(s) <==> forall x :: multiset(s)[x] <= 1
  {
    if s != [] {
      var init, last := s[..|s| - 1], s[|s| - 1];
      assert s == init + [last];
      OncePerTarget(init);
      assert multiset(s) == multiset(init) + multiset{last};
      assert last in init <==> multiset(init)[last] > 0;
      assert DistinctTargets(s) <==> DistinctTargets(init) && last !in init;
      assert forall x :: multiset(s)[x] == multiset(init)[x] + if x == last then 1 else 0;
    }
  }

  lemma Kept(s: seq<Target>, i: nat, n: nat)
    requires i < |s|
    ensures i < n <= |s| ==> s[i] in s[..n]
  {
    assert i < n <= |s| ==> s[..n][i] == s[i];
  }

  /** At most thirty-two candidates are kept, each once and in name order; whatever is left out comes
      after everything kept, and then all thirty-two places are taken. */
  lemma CandidatesAre(fs: Files, cwd: string, argv: seq<string>)
    ensures var out := Candidates(fs, cwd, argv);
      && |out| <= MAX_FILES && DistinctTargets(out) && InNameOrder(out)
      && (forall t | t in out :: IsCandidate(fs, cwd, argv, t))
      && (out != [] ==> forall t | IsCandidate(fs, cwd, argv, t) && t !in out ::
            |out| == MAX_FILES && forall u | u in out :: !NameBefore(t, u))
  {
    var found := Gathered(fs, cwd, argv);
    var all := SortByName(found);
    var out := Candidates(fs, cwd, argv);
    GatheredAre(fs, cwd, argv);
    SortByNameSorts(found);
    OncePerTarget(found);
    OncePerTarget(all);
    hide Gathered, SortByName, IsCandidate, NameBefore;
    assert forall t :: t in all <==> t in multiset(all);
    assert forall t :: t in found <==> t in multiset(found);
    assert out == [] || out == all || (out == all[..MAX_FILES] && |all| > MAX_FILES);
    forall t, u | t in all && t !in out && u in out ensures |out| == MAX_FILES && !NameBefore(t, u) {
      var i :| 0 <= i < |all| && all[i] == t;
      var j :| 0 <= j < |out| && out[j] == u;
      assert all[..MAX_FILES][j] == all[j];
      Kept(all, i, MAX_FILES);
    }
  }
}
