/** Deleting what the store no longer needs, file name by file name. */
module Prune {
  import opened Records
  import opened Text
  import Protocol

  /** What reading a file gives: a record with its deadline, some other record, or nothing. */
  datatype Content = Rec(expires: int) | Slip | Garbage

  datatype File = File(modified: int, content: Content)

  type Dir = map<string, File>

  const SUFFIXES := [".json", ".verdict", ".result", ".ack", ".selection", ".cancel"]
  const NANOS := 1_000_000_000

  // ----- File names ----------------------------------------------------------------------------------

  predicate HasSuffix(s: string, suffix: string) {
    |suffix| <= |s| && s[|s| - |suffix|..] == suffix
  }

  /** The request id a directory entry belongs to. */
  function RidOf(name: string): Option<Rid> {
    if HasSuffix(name, ".json") then Some(name[..|name| - 5])
    else if exists i | 0 < i < |SUFFIXES| :: HasSuffix(name, SUFFIXES[i]) then
      var dot := LastIndex(name, '.');
      if 0 <= dot < |name| then Some(name[..dot]) else None
    else None
  }

  lemma SuffixShape(i: nat)
    requires i < |SUFFIXES|
    ensures var t := SUFFIXES[i]; |t| >= 4 && t[0] == '.' && '.' !in t[1..]
    ensures i > 0 ==> SUFFIXES[i] != ".json" && |SUFFIXES[i]| != 5
  {
    assert i == 0 || i == 1 || i == 2 || i == 3 || i == 4 || i == 5;
  }

  /** Every artifact's name leads back to its request id, and no other name does. */
  lemma NameRoundTrip(name: string, rid: Rid)
    ensures RidOf(name) == Some(rid) <==> exists i | 0 <= i < |SUFFIXES| :: name == rid + SUFFIXES[i]
  {
    if i :| 0 <= i < |SUFFIXES| && name == rid + SUFFIXES[i] {
      ArtifactName(rid, i);
    }
    if RidOf(name) == Some(rid) {
      NameIsArtifact(name, rid);
    }
  }

  lemma SplitAtDot(rid: Rid, i: nat)
    requires i < |SUFFIXES|
    ensures var name := rid + SUFFIXES[i];
      LastIndex(name, '.') == |rid| && HasSuffix(name, SUFFIXES[i]) && name[..|rid|] == rid
  {
    SuffixShape(i);
    var t := SUFFIXES[i];
    LastIndexBetween(rid, '.', t[1..]);
    assert rid + ['.'] + t[1..] == rid + t by {
      assert ['.'] + t[1..] == t;
    }
  }

  lemma ArtifactName(rid: Rid, i: nat)
    requires i < |SUFFIXES|
    ensures RidOf(rid + SUFFIXES[i]) == Some(rid)
  {
    SplitAtDot(rid, i);
    var name := rid + SUFFIXES[i];
    hide LastIndex;
    if i > 0 && HasSuffix(name, ".json") {
      DotOfSuffix(name, 0);
      SuffixShape(i);
    }
  }

  /** A suffix begins at the last dot. */
  lemma DotOfSuffix(name: string, i: nat)
    requires i < |SUFFIXES| && HasSuffix(name, SUFFIXES[i])
    ensures LastIndex(name, '.') == |name| - |SUFFIXES[i]|
    ensures name == name[..|name| - |SUFFIXES[i]|] + SUFFIXES[i]
  {
    hide LastIndex;
    var front := name[..|name| - |SUFFIXES[i]|];
    assert name == front + SUFFIXES[i];
    SplitAtDot(front, i);
  }

  lemma NameIsArtifact(name: string, rid: Rid)
    requires RidOf(name) == Some(rid)
    ensures exists i | 0 <= i < |SUFFIXES| :: name == rid + SUFFIXES[i]
  {
    hide LastIndex;
    if HasSuffix(name, ".json") {
      DotOfSuffix(name, 0);
      assert name == rid + SUFFIXES[0];
    } else {
      var i :| 0 < i < |SUFFIXES| && HasSuffix(name, SUFFIXES[i]);
      DotOfSuffix(name, i);
      assert name == rid + SUFFIXES[i];
    }
  }

  // ----- Which requests go ---------------------------------------------------------------------------

  function ContentOf(dir: Dir, name: string): Content {
    if name in dir then dir[name].content else Garbage
  }

  /** Loadable, undecided in every way, and not expired. */
  predicate Live(dir: Dir, rid: Rid, now: int) {
    && ContentOf(dir, rid + ".json").Rec?
    && !ContentOf(dir, rid + ".verdict").Slip?
    && !ContentOf(dir, rid + ".ack").Slip?
    && !ContentOf(dir, rid + ".selection").Slip?
    && !ContentOf(dir, rid + ".cancel").Slip?
    && ContentOf(dir, rid + ".json").expires > now / NANOS
  }

  /** Some artifact is older than the retention window allows. */
  predicate Stale(dir: Dir, rid: Rid, now: int, ttl: int) {
    ttl < 0 || exists i | 0 <= i < |SUFFIXES| ::
      rid + SUFFIXES[i] in dir && now - dir[rid + SUFFIXES[i]].modified > ttl
  }

  predicate Present(dir: Dir, rid: Rid) {
    exists i | 0 <= i < |SUFFIXES| :: rid + SUFFIXES[i] in dir
  }

  function Rids(dir: Dir): set<Rid> {
    set name | name in dir && RidOf(name).Some? :: RidOf(name).value
  }

  /** The requests a prune removes. */
  function Doomed(dir: Dir, now: int, ttl: int): set<Rid> {
    set rid | rid in Rids(dir) && !Live(dir, rid, now) && Stale(dir, rid, now, ttl)
  }

  /** The directory holds one request's files as the store reads them. */
  predicate Shows(dir: Dir, d: Disk, rid: Rid) {
    && (ContentOf(dir, rid + ".json").Rec? <==> rid in d.recs)
    && (rid in d.recs ==> ContentOf(dir, rid + ".json").expires == d.recs[rid].petition.expires)
    && (ContentOf(dir, rid + ".verdict").Slip? <==> Verdict(d, rid).Some?)
    && (ContentOf(dir, rid + ".ack").Slip? <==> AckInfo(d, rid).Some?)
    && (ContentOf(dir, rid + ".selection").Slip? <==> SelectionInfo(d, rid).Some?)
    && (ContentOf(dir, rid + ".cancel").Slip? <==> CancelInfo(d, rid).Some?)
  }

  /** What a prune keeps for being live is exactly what the list command shows at that second: no listed
      request is ever pruned, whatever the retention window. */
  lemma LiveIsListed(dir: Dir, d: Disk, rid: Rid, now: int, ttl: int)
    requires Shows(dir, d, rid)
    ensures Live(dir, rid, now) <==> Protocol.Listed(d, now / NANOS, rid)
    ensures Protocol.Listed(d, now / NANOS, rid) ==> rid !in Doomed(dir, now, ttl)
  {
  }

  /** The directory without every artifact of some requests. */
  function Without(dir: Dir, gone: set<Rid>): Dir {
    map name | name in dir && !(RidOf(name).Some? && RidOf(name).value in gone) :: dir[name]
  }

  lemma RidsArePresent(dir: Dir, rid: Rid)
    ensures rid in Rids(dir) <==> Present(dir, rid)
  {
    if i :| 0 <= i < |SUFFIXES| && rid + SUFFIXES[i] in dir {
      ArtifactName(rid, i);
      assert RidOf(rid + SUFFIXES[i]).value == rid;
    }
    if rid in Rids(dir) {
      var name :| name in dir && RidOf(name) == Some(rid);
      NameIsArtifact(name, rid);
    }
  }

  predicate SameFile(a: Dir, b: Dir, name: string) {
    (name in a <==> name in b) && (name in a ==> a[name] == b[name])
  }

  /** The two directories hold the same files of one request. */
  predicate SameArtifacts(a: Dir, b: Dir, rid: Rid) {
    forall i | 0 <= i < |SUFFIXES| :: SameFile(a, b, rid + SUFFIXES[i])
  }

  lemma WithoutOthers(dir: Dir, gone: set<Rid>, rid: Rid)
    requires rid !in gone
    ensures SameArtifacts(Without(dir, gone), dir, rid)
  {
    forall i | 0 <= i < |SUFFIXES|
      ensures SameFile(Without(dir, gone), dir, rid + SUFFIXES[i])
    {
      ArtifactName(rid, i);
      hide RidOf;
    }
  }

  lemma SameLive(a: Dir, b: Dir, rid: Rid, now: int)
    requires SameArtifacts(a, b, rid)
    ensures Live(a, rid, now) == Live(b, rid, now)
  {
    assert SameFile(a, b, rid + SUFFIXES[0]) && SameFile(a, b, rid + SUFFIXES[1]) && SameFile(a, b, rid + SUFFIXES[3]);
    assert SameFile(a, b, rid + SUFFIXES[4]) && SameFile(a, b, rid + SUFFIXES[5]);
  }

  lemma SameStale(a: Dir, b: Dir, rid: Rid, now: int, ttl: int)
    requires SameArtifacts(a, b, rid)
    ensures Stale(a, rid, now, ttl) == Stale(b, rid, now, ttl)
  {
    assert forall i | 0 <= i < |SUFFIXES| :: SameFile(a, b, rid + SUFFIXES[i]);
  }

  /** The doomed, by their artifacts: some file of theirs is there, they are not live, and some file is
      older than the window. */
  lemma DoomedByArtifacts(dir: Dir, rid: Rid, now: int, ttl: int)
    ensures rid in Doomed(dir, now, ttl) <==> Present(dir, rid) && !Live(dir, rid, now) && Stale(dir, rid, now, ttl)
  {
    hide Live, Stale, Present, Rids;
    RidsArePresent(dir, rid);
  }

  /** What is known about one request does not depend on the others having been removed. */
  lemma OthersIndependent(dir: Dir, gone: set<Rid>, rid: Rid, now: int, ttl: int)
    requires rid !in gone
    ensures SameArtifacts(Without(dir, gone), dir, rid)
    ensures Live(Without(dir, gone), rid, now) == Live(dir, rid, now)
    ensures Stale(Without(dir, gone), rid, now, ttl) == Stale(dir, rid, now, ttl)
  {
    hide Without, SameArtifacts, Live, Stale;
    WithoutOthers(dir, gone, rid);
    SameLive(Without(dir, gone), dir, rid, now);
    SameStale(Without(dir, gone), dir, rid, now, ttl);
  }

  /** A second prune at the same moment finds nothing left to do. */
  lemma PruneTwice(dir: Dir, now: int, ttl: int)
    ensures Doomed(Without(dir, Doomed(dir, now, ttl)), now, ttl) == {}
  {
    var gone := Doomed(dir, now, ttl);
    forall rid | rid in Rids(Without(dir, gone))
      ensures rid in Rids(dir) && rid !in gone && !(!Live(dir, rid, now) && Stale(dir, rid, now, ttl))
      ensures Live(Without(dir, gone), rid, now) == Live(dir, rid, now)
      ensures Stale(Without(dir, gone), rid, now, ttl) == Stale(dir, rid, now, ttl)
    {
      OthersIndependent(dir, gone, rid, now, ttl);
    }
  }

  // ----- The pending directory -----------------------------------------------------------------------

  ghost predicate Lists(entries: seq<string>, dir: Dir) {
    forall name :: name in entries <==> name in dir
  }

  function Artifacts(rid: Rid): set<string> {
    {rid + ".json", rid + ".verdict", rid + ".result", rid + ".ack", rid + ".selection", rid + ".cancel"}
  }

  lemma PurgedExactly(dir: Dir, rid: Rid)
    ensures dir - Artifacts(rid) == Without(dir, {rid})
  {
    forall name | name in dir
      ensures name in Artifacts(rid) <==> RidOf(name) == Some(rid)
    {
      NameRoundTrip(name, rid);
      SixSuffixes(rid, name);
    }
    hide RidOf, Artifacts;
  }

  class PendingDir {
    var files: Dir
    /** The sealed archive and the extracted tree of a request. */
    var sealed: set<Rid>

    method Purge(rid: Rid)
      modifies this
      ensures files == Without(old(files), {rid})
      ensures sealed == old(sealed) - {rid}
    {
      ghost var before := files;
      hide RidOf, HasSuffix, Without;
      files := files - {rid + ".json"};
      files := files - {rid + ".verdict"};
      files := files - {rid + ".result"};
      files := files - {rid + ".ack"};
      files := files - {rid + ".selection"};
      files := files - {rid + ".cancel"};
      sealed := sealed - {rid};
      assert files == before - Artifacts(rid);
      PurgedExactly(before, rid);
    }

    method OldestArtifact(rid: Rid, now: int) returns (oldest: int)
      ensures oldest <= now
      ensures forall ttl :: now - oldest > ttl <==> Stale(files, rid, now, ttl)
    {
      oldest := now;
      var i := 0;
      while i < |SUFFIXES|
        invariant 0 <= i <= |SUFFIXES| && oldest <= now
        invariant oldest == now || exists k | 0 <= k < i ::
              rid + SUFFIXES[k] in files && files[rid + SUFFIXES[k]].modified == oldest
        invariant forall k | 0 <= k < i :: rid + SUFFIXES[k] in files ==> oldest <= files[rid + SUFFIXES[k]].modified
      {
        var name := rid + SUFFIXES[i];
        if name in files && files[name].modified < oldest {
          oldest := files[name].modified;
        }
        i := i + 1;
      }
    }

    method PruneOne(rid: Rid, now: int, ttl: int) returns (removed: bool)
      modifies this
      ensures removed <==> !Live(old(files), rid, now) && Stale(old(files), rid, now, ttl)
      ensures files == if removed then Without(old(files), {rid}) else old(files)
      ensures sealed == if removed then old(sealed) - {rid} else old(sealed)
    {
      hide Live, Stale, Without;
      if Live(files, rid, now) {
        return false;
      }
      var oldest := OldestArtifact(rid, now);
      removed := now - oldest > ttl;
      if removed {
        Purge(rid);
      }
    }

    /** Prunes by a listing of the directory, in whatever order it comes. */
    method Prune(listing: Option<seq<string>>, now: int, ttl: int) returns (purged: nat, failed: bool)
      requires listing.Some? ==> Lists(listing.value, files)
      modifies this
      ensures failed == listing.None?
      ensures var gone := if failed then {} else Doomed(old(files), now, ttl);
        && purged == |gone|
        && files == Without(old(files), gone)
        && sealed == old(sealed) - gone
    {
      hide Live, Stale, RidOf, Doomed, Without, RidsIn, Rids, Lists, Both, SameArtifacts;
      ghost var before := files;
      ghost var gone: set<Rid> := {};
      ghost var doomed := Doomed(before, now, ttl);
      NothingGone(before);
      purged := 0;
      if listing.None? {
        return 0, true;
      }
      var entries := listing.value;
      var seen: set<Rid> := {};
      var i := 0;
      NoneSeen(entries, doomed);
      while i < |entries|
        invariant 0 <= i <= |entries|
        invariant seen == RidsIn(entries[..i])
        invariant gone == Both(seen, doomed) && purged == |gone|
        invariant files == Without(before, gone) && sealed == old(sealed) - gone
      {
        var rid := RidOf(entries[i]);
        NextRid(entries, i);
        if rid.Some? && rid.value !in seen {
          OneMore(seen, doomed, rid.value);
          OthersIndependent(before, gone, rid.value, now, ttl);
          ListedEntry(entries, before, i);
          DoomedIff(before, rid.value, entries[i], now, ttl);
          WithoutMore(before, gone, rid.value);
          seen := seen + {rid.value};
          var removed := PruneOne(rid.value, now, ttl);
          if removed {
            purged := purged + 1;
            gone := gone + {rid.value};
          }
        }
        i := i + 1;
      }
      AllListed(before, entries);
      assert entries[..|entries|] == entries;
      AllDoomed(before, now, ttl);
      return purged, false;
    }
  }

  lemma NothingGone(dir: Dir)
    ensures Without(dir, {}) == dir
  {
    hide RidOf;
  }

  function RidsIn(entries: seq<string>): set<Rid> {
    set name | name in entries && RidOf(name).Some? :: RidOf(name).value
  }

  lemma NoneSeen(entries: seq<string>, doomed: set<Rid>)
    ensures RidsIn(entries[..0]) == {} == Both({}, doomed)
  {
  }

  lemma NextRid(entries: seq<string>, i: nat)
    requires i < |entries|
    ensures RidsIn(entries[..i + 1]) == RidsIn(entries[..i]) + (var r := RidOf(entries[i]); if r.Some? then {r.value}
          else {})
  {
    hide RidOf;
    assert entries[..i + 1] == entries[..i] + [entries[i]];
  }

  lemma AllListed(dir: Dir, entries: seq<string>)
    requires Lists(entries, dir)
    ensures RidsIn(entries) == Rids(dir)
  {
    hide RidOf;
  }

  lemma ListedEntry(entries: seq<string>, dir: Dir, i: nat)
    requires Lists(entries, dir) && i < |entries|
    ensures entries[i] in dir
  {
  }

  function Both(a: set<Rid>, b: set<Rid>): set<Rid> {
    a * b
  }

  lemma OneMore(seen: set<Rid>, doomed: set<Rid>, rid: Rid)
    requires rid !in seen
    ensures Both(seen + {rid}, doomed) == if rid in doomed then Both(seen, doomed) + {rid} else Both(seen, doomed)
    ensures rid !in Both(seen, doomed)
    ensures rid in doomed ==> |Both(seen, doomed) + {rid}| == |Both(seen, doomed)| + 1
  {
  }

  lemma AllDoomed(dir: Dir, now: int, ttl: int)
    ensures Both(Rids(dir), Doomed(dir, now, ttl)) == Doomed(dir, now, ttl)
  {
    hide Rids;
  }

  lemma DoomedIff(dir: Dir, rid: Rid, name: string, now: int, ttl: int)
    requires name in dir && RidOf(name) == Some(rid)
    ensures rid in Doomed(dir, now, ttl) <==> !Live(dir, rid, now) && Stale(dir, rid, now, ttl)
  {
    hide RidOf;
  }

  lemma WithoutMore(dir: Dir, gone: set<Rid>, rid: Rid)
    ensures Without(Without(dir, gone), {rid}) == Without(dir, gone + {rid})
  {
    hide RidOf;
  }

  lemma SixSuffixes(rid: Rid, name: string)
    ensures (exists i | 0 <= i < |SUFFIXES| :: name == rid + SUFFIXES[i]) <==>
            name in Artifacts(rid)
  {
    assert SUFFIXES[0] == ".json" && SUFFIXES[1] == ".verdict" && SUFFIXES[2] == ".result";
    assert SUFFIXES[3] == ".ack" && SUFFIXES[4] == ".selection" && SUFFIXES[5] == ".cancel";
    if i :| 0 <= i < |SUFFIXES| && name == rid + SUFFIXES[i] {
      assert i == 0 || i == 1 || i == 2 || i == 3 || i == 4 || i == 5;
    }
  }
}
