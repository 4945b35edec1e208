/** Bounded output capture: a writer with a hard ceiling, against truncation in one go. */
module Capture {
  import opened Decimal

  const DEFAULT_MAX_OUTPUT := 262144

  /** The capture ceiling in force for a configured one. */
  function CapBytes(conf: int): (max: int)
    ensures max > 0 && (conf > 0 ==> max == conf)
  {
    if conf > 0 then conf else DEFAULT_MAX_OUTPUT
  }

  function Marker(dropped: int, max: int): string {
    "\n\U{2026}[truncated " + Itoa(dropped) + " bytes, ceiling " + Itoa(max) + " bytes]"
  }

  /** Cutting a whole output at once. */
  function BoundOutput(s: string, max: int): string {
    if max <= 0 || |s| <= max then s else s[..max] + Marker(|s| - max, max)
  }

  /** Nothing is lost below the ceiling; above it the first part is kept and followed by a line that says
      how much is missing. */
  lemma BoundOutputIs(s: string, max: int)
    requires max > 0
    ensures |s| <= max ==> BoundOutput(s, max) == s
    ensures |s| > max ==>
              && BoundOutput(s, max)[..max] == s[..max]
              && BoundOutput(s, max)[max..] ==
                   "\n\U{2026}[truncated " + Itoa(|s| - max) + " bytes, ceiling " + Itoa(max) + " bytes]"
  {
  }

  function Concat(chunks: seq<string>): string {
    if chunks == [] then "" else Concat(chunks[..|chunks| - 1]) + chunks[|chunks| - 1]
  }

  function Kept(s: string, max: int): string {
    if max <= 0 then "" else if |s| <= max then s else s[..max]
  }

  class CappedWriter {
    var buf: string
    var max: int
    var dropped: nat

    /** The writer holds the first bytes of everything written and counts the rest. */
    ghost predicate Captures(all: string)
      reads this
    {
      buf == Kept(all, max) && dropped == |all| - |buf|
    }

    constructor (max: int)
      ensures this.max == max && Captures("")
    {
      this.buf := "";
      this.max := max;
      this.dropped := 0;
    }

    method Write(p: string, ghost before: string) returns (n: nat)
      requires Captures(before)
      modifies this`buf, this`dropped
      ensures n == |p| && Captures(before + p)
      ensures |buf| + dropped == old(|buf| + dropped) + |p|
    {
      n := |p|;
      var room := max - |buf|;
      if room <= 0 {
        dropped := dropped + |p|;
        assert max > 0 ==> (before + p)[..max] == before[..max];
      } else if |p| > room {
        buf := buf + p[..room];
        dropped := dropped + (|p| - room);
        assert (before + p)[..max] == before + p[..room];
      } else {
        buf := buf + p;
      }
    }

    method Text(ghost all: string) returns (s: string)
      requires Captures(all) && max > 0
      ensures s == BoundOutput(all, max)
    {
      s := buf;
      if dropped > 0 {
        s := s + (("\n\U{2026}[truncated " + Itoa(dropped)) + (" bytes, ceiling " + Itoa(max)) + " bytes]");
        assert s == buf + Marker(dropped, max);
      }
    }
  }

  /** However the output is split into writes, the capture is the one-shot truncation of it all, and
      every byte was either kept or counted. */
  method CaptureAll(chunks: seq<string>, conf: int) returns (s: string, kept: nat, dropped: nat)
    ensures s == BoundOutput(Concat(chunks), CapBytes(conf))
    ensures kept + dropped == |Concat(chunks)| && kept <= CapBytes(conf)
    ensures dropped > 0 ==> kept == CapBytes(conf)
  {
    var w := new CappedWriter(CapBytes(conf));
    var i := 0;
    while i < |chunks|
      invariant 0 <= i <= |chunks| && w.max == CapBytes(conf)
      invariant w.Captures(Concat(chunks[..i]))
      invariant fresh(w)
    {
      assert chunks[..i + 1][..i] == chunks[..i];
      var n := w.Write(chunks[i], Concat(chunks[..i]));
      i := i + 1;
    }
    assert chunks[..i] == chunks;
    kept, dropped := |w.buf|, w.dropped;
    s := w.Text(Concat(chunks));
  }
}
