/** Filing a question and waiting for its answer. */
module Question {
  import opened Records
  import opened Decimal
  import opened Text
  import opened Protocol
  import opened Queries

  const NANOS := 1_000_000_000
  const DEFAULT_TTL := 3600 * NANOS
  const MIN_TTL := 10 * NANOS
  const MAX_TTL := 7 * 24 * 3600 * NANOS
  const MAX_QUESTION := 2000
  const MAX_OPTION := 500
  const MAX_OPTIONS := 10

  datatype AskRequest = AskRequest(question: string, options: seq<string>, link: string, multiSelect: bool,
      ttlSeconds: int)

  datatype AskReply = Refused(reason: string) | Filed(petition: Petition, expires: int)

  function Trimmed(options: seq<string>): seq<string> {
    if options == [] then []
    else
      var rest := Trimmed(options[..|options| - 1]);
      var o := TrimSpace(options[|options| - 1]);
      if o == "" then rest else rest + [o]
  }

  /** The options that are filed are those with something in them, without the space around it, in order. */
  lemma {:induction false} TrimmedAre(options: seq<string>, more: seq<string>)
    ensures Trimmed(options + more) == Trimmed(options) + Trimmed(more)
    ensures |options| == 1 ==> Trimmed(options) == if TrimSpace(options[0]) == "" then [] else [TrimSpace(options[0])]
  {
    if |options| == 1 {
      assert options[..0] == [];
    }
    if more == [] {
      assert options + more == options;
    } else {
      assert (options + more)[..|options + more| - 1] == options + more[..|more| - 1];
      TrimmedAre(options, more[..|more| - 1]);
    }
  }

  predicate LinkOk(link: string) {
    link == "" || "http://" <= link || "https://" <= link
  }

  predicate Acceptable(req: AskRequest) {
    var opts := Trimmed(req.options);
    && TrimSpace(req.question) != "" && |TrimSpace(req.question)| <= MAX_QUESTION
    && 2 <= |opts| <= MAX_OPTIONS
    && (forall k | 0 <= k < |opts| :: |opts[k]| <= MAX_OPTION)
    && LinkOk(TrimSpace(req.link))
  }

  /** The lifetime in nanoseconds. The product may wrap around before it is clamped. */
  method Lifetime(ttlSeconds: int, placeholder: bool) returns (ttl: int)
    ensures MIN_TTL <= ttl <= MAX_TTL
    ensures placeholder ==> ttl == MIN_TTL
    ensures !placeholder && ttlSeconds == 0 ==> ttl == DEFAULT_TTL
    ensures !placeholder && MIN_TTL <= ttlSeconds * NANOS <= MAX_TTL ==> ttl == ttlSeconds * NANOS
    ensures !placeholder && ttlSeconds != 0 && Fits64(ttlSeconds * NANOS) ==>
              && (ttlSeconds * NANOS < MIN_TTL ==> ttl == MIN_TTL)
              && (ttlSeconds * NANOS > MAX_TTL ==> ttl == MAX_TTL)
  {
    ttl := Wrap64(ttlSeconds * NANOS);
    if ttl == 0 {
      ttl := DEFAULT_TTL;
    }
    if ttl < MIN_TTL {
      ttl := MIN_TTL;
    }
    if ttl > MAX_TTL {
      ttl := MAX_TTL;
    }
    if placeholder {
      ttl := MIN_TTL;
    }
  }

  /** Files a question exactly if the request is acceptable. What it files can never run, has two to ten
      options and expires between ten seconds and a week from now, whatever lifetime was asked for. */
  method FileAsk(req: AskRequest, uid: nat, now: int, placeholder: bool) returns (reply: AskReply)
    ensures reply.Filed? <==> Acceptable(req)
    ensures reply.Filed? ==>
              && NewOtherPetition(reply.petition) && reply.petition.kind == Ask
              && reply.petition.options == Trimmed(req.options) && 2 <= |reply.petition.options| <= MAX_OPTIONS
              && reply.petition.multiSelect == req.multiSelect && reply.petition.uid == uid
              && now + MIN_TTL <= reply.expires <= now + MAX_TTL
              && reply.petition.expires == reply.expires / NANOS
    ensures reply.Filed? ==>
              var asked := req.ttlSeconds * NANOS;
              && (placeholder ==> reply.expires == now + MIN_TTL)
              && (!placeholder && req.ttlSeconds == 0 ==> reply.expires == now + DEFAULT_TTL)
              && (!placeholder && MIN_TTL <= asked <= MAX_TTL ==> reply.expires == now + asked)
              && (!placeholder && req.ttlSeconds != 0 && Fits64(asked) && asked < MIN_TTL
                 ==> reply.expires == now + MIN_TTL)
              && (!placeholder && Fits64(asked) && asked > MAX_TTL ==> reply.expires == now + MAX_TTL)
    ensures reply.Filed? ==> reply.petition.question == TrimSpace(req.question)
    ensures reply.Filed? ==>
              var link := TrimSpace(req.link);
              link == "" || (|link| >= 7 && link[..7] == "http://") || (|link| >= 8 && link[..8] == "https://")
  {
    var question, link := TrimSpace(req.question), TrimSpace(req.link);
    var opts: seq<string> := [];
    var i := 0;
    while i < |req.options|
      invariant 0 <= i <= |req.options| && opts == Trimmed(req.options[..i])
    {
      assert req.options[..i + 1][..i] == req.options[..i];
      var o := TrimSpace(req.options[i]);
      if o != "" {
        opts := opts + [o];
      }
      i := i + 1;
    }
    assert req.options[..i] == req.options;
    if question == "" || |opts| < 2 {
      return Refused("question and at least two options required");
    }
    if |opts| > MAX_OPTIONS {
      return Refused("too many options");
    }
    if |question| > MAX_QUESTION {
      return Refused("question too long");
    }
    i := 0;
    while i < |opts|
      invariant 0 <= i <= |opts| && forall k | 0 <= k < i :: |opts[k]| <= MAX_OPTION
    {
      if |opts[i]| > MAX_OPTION {
        return Refused("option too long");
      }
      i := i + 1;
    }
    if !LinkOk(link) {
      return Refused("link must be http(s) URL");
    }
    var ttl := Lifetime(req.ttlSeconds, placeholder);
    var expires := now + ttl;
    return Filed(Petition([], uid, "", expires / NANOS, Initial, None, Ask, question, opts, req.multiSelect, 0, 0, 0),
      expires);
  }

  // ----- Waiting for the answer ----------------------------------------------------------------------

  /** What one turn of the wait sees; `gone` when it ends with the caller's disconnect. */
  datatype Glance = Glance(sel: Option<SelectionRecord>, cancelled: bool, now: int, gone: bool)

  datatype AskEnd = Picked(sel: SelectionRecord) | Aborted | Expired

  /** Any answer comes before a cancellation, that before the clock, and that before the caller. */
  predicate Ends(g: Glance, expires: int, end: AskEnd) {
    match end
    case Picked(sel) => g.sel == Some(sel)
    case Aborted => g.sel.None? && (g.cancelled || (g.now <= expires && g.gone))
    case Expired => g.sel.None? && !g.cancelled && g.now > expires
  }

  predicate Continues(g: Glance, expires: int) {
    g.sel.None? && !g.cancelled && g.now <= expires && !g.gone
  }

  /** The wait ends at the first turn that sees something, and with what that turn saw. */
  method AwaitSelection(glances: seq<Glance>, expires: int) returns (end: Option<AskEnd>, turns: nat)
    ensures turns <= |glances| && forall k | 0 <= k < turns :: Continues(glances[k], expires)
    ensures end.None? ==> turns == |glances|
    ensures end.Some? ==>
          turns < |glances| && Ends(glances[turns], expires, end.value) && !Continues(glances[turns], expires)
  {
    turns := 0;
    while turns < |glances|
      invariant turns <= |glances| && forall k | 0 <= k < turns :: Continues(glances[k], expires)
    {
      var g := glances[turns];
      if g.sel.Some? {
        return Some(Picked(g.sel.value)), turns;
      }
      if g.cancelled {
        return Some(Aborted), turns;
      }
      if g.now > expires {
        return Some(Expired), turns;
      }
      if g.gone {
        return Some(Aborted), turns;
      }
      turns := turns + 1;
    }
    end := None;
  }

  /** What the caller is told. An aborted wait looks for the cancellation once more to say why. */
  datatype Reply = Selected(sel: SelectionRecord) | TimedOut | ToldCancelled | ToldAborted

  method Answer(end: AskEnd, cancelledNow: bool) returns (reply: Reply)
    ensures reply == match end
                     case Picked(sel) => Selected(sel)
                     case Expired => TimedOut
                     case Aborted => if cancelledNow then ToldCancelled else ToldAborted
  {
    match end {
      case Picked(sel) => return Selected(sel);
      case Expired => return TimedOut;
      case Aborted =>
        if cancelledNow {
          return ToldCancelled;
        }
        return ToldAborted;
    }
  }

  /** The reply and the status word say the same. */
  predicate Says(reply: Reply, word: string) {
    match reply
    case Selected(_) => word == "selected"
    case TimedOut => word == "timeout"
    case ToldCancelled => word == "cancelled"
    case ToldAborted => word == "client_aborted"
  }

  /** The reply after a last glance, given whether a cancellation can be read when the reply is made. */
  function Told(g: Glance, expires: int, cancelledNow: bool): Reply {
    if g.sel.Some? then Selected(g.sel.value)
    else if !g.cancelled && g.now > expires then TimedOut
    else if cancelledNow then ToldCancelled
    else ToldAborted
  }

  /** The method's reply after any wait that ended is the one above. */
  lemma ToldIsAnswered(g: Glance, expires: int, end: AskEnd, cancelledNow: bool)
    requires Ends(g, expires, end)
    ensures Told(g, expires, cancelledNow) == match end
                                              case Picked(sel) => Selected(sel)
                                              case Expired => TimedOut
                                              case Aborted => if cancelledNow then ToldCancelled else ToldAborted
  {
  }

  /** What the caller is told is what status reads from then on, exactly if: with an answer, nothing is
      cancelled; past the deadline, nothing was cancelled or answered since the last glance; and otherwise, a
      cancellation is there by now whose reason is no drift gate's text. `g` is the last glance, and what it
      saw is still so. */
  lemma AnswerMatchesStatus(d: Disk, dir: seq<Rid>, rid: Rid, g: Glance, expires: int, time: int)
    requires rid in d.recs && d.recs[rid].petition.kind == Ask && d.recs[rid].petition.expires == expires / NANOS
    requires !Continues(g, expires) && time >= g.now / NANOS
    requires (g.sel.Some? ==> SelectionInfo(d, rid) == g.sel) && (g.cancelled ==> CancelInfo(d, rid).Some?)
    ensures var c := CancelInfo(d, rid);
      Says(Told(g, expires, c.Some?), Status(d, dir, rid, time).status) <==>
        (if g.sel.Some? then c.None?
         else if g.now > expires && !g.cancelled then c.None? && SelectionInfo(d, rid).None?
         else c.Some? && !Drifted(c.value.reason))
  {
    StatusIs(d, dir, rid, time);
    PlainTexts();
    hide Status, Drifted, DriftOf;
    assert "cancelled"[0] != "selected"[0] && "cancelled"[0] != "timeout"[0] && "cancelled"[0] != "pending"[0];
    assert "denied"[0] != "selected"[0] && "denied"[0] != "timeout"[0] && "denied"[0] != "cancelled"[0];
    assert "client_aborted"[0] != "pending"[0] && "client_aborted"[0] != "timeout"[0]
      && "client_aborted"[0] != "denied"[0];
    assert "client_aborted"[1] != "cancelled"[1] && "client_aborted"[0] != "selected"[0]
      && "selected"[0] != "timeout"[0];
    assert g.now > expires ==> g.now / NANOS >= expires / NANOS;
  }
}
