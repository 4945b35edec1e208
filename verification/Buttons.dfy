/** What pressing buttons leaves on file: verdicts, acknowledgements and picked answers, over any presses. */
module Buttons {
  import opened Records
  import opened Callback
  import opened Decimal
  import opened Asking
  import opened Text

  // ----- Which data means what -----------------------------------------------------------------------

  /** The parsed press is of this kind, for this request. */
  predicate Means(data: string, action: Action, rid: Rid) {
    var v := SplitVerdict(data);
    v.Some? && v.value.action == action && v.value.rid == rid
  }

  lemma OtherKinds(data: string)
    ensures SplitAsk(data).Some? ==> SplitAsk(data).value.action in {Pick, Toggle, Submit}
    ensures SplitPage(data).Some? ==> SplitPage(data).value.action == Page
  {
    hide ParseIndices, Index, LastIndex, Split, Atoi;
  }

  lemma PlainKinds(data: string)
    requires !("ask:" <= data) && !("page:" <= data)
    ensures var v := SplitVerdict(data); v.Some? ==>
              && v.value.action in {PressApprove, PressDeny, PressAck} && v.value.idxs == []
              && (v.value.action == PressApprove ==> data == "approve:" + v.value.rid)
              && (v.value.action == PressDeny ==> data == "deny:" + v.value.rid)
              && (v.value.action == PressAck ==> data == "ack:" + v.value.rid)
  {
    hide SplitAsk, SplitPage;
    assert "approve:" <= data ==> data == "approve:" + data[8..];
    assert "deny:" <= data ==> data == "deny:" + data[5..];
    assert "ack:" <= data ==> data == "ack:" + data[4..];
  }

  lemma CardKinds(data: string)
    requires "ask:" <= data || "page:" <= data
    ensures var v := SplitVerdict(data); v.Some? ==> v.value.action in {Pick, Toggle, Submit, Page}
  {
    if "ask:" <= data {
      OtherKinds(data[4..]);
    } else {
      OtherKinds(data[5..]);
    }
    hide SplitAsk, SplitPage;
  }

  /** Only the approve button's data means an approval of a request, only the deny button's a denial, and
      only the acknowledge button's an acknowledgement. */
  lemma MeansExactly(data: string, rid: Rid)
    ensures Means(data, PressApprove, rid) <==> data == "approve:" + rid
    ensures Means(data, PressDeny, rid) <==> data == "deny:" + rid
    ensures Means(data, PressAck, rid) <==> data == "ack:" + rid
  {
    PlainDataParses(rid);
    if "ask:" <= data || "page:" <= data {
      CardKinds(data);
    } else {
      PlainKinds(data);
    }
    hide SplitVerdict;
  }

  // ----- Verdicts ------------------------------------------------------------------------------------

  predicate Decides(p: Press, rid: Rid) {
    p.data == "approve:" + rid || p.data == "deny:" + rid
  }

  function DecisionOf(p: Press, rid: Rid): Decision {
    if p.data == "approve:" + rid then Approve else Deny
  }

  /** Toggles, submits and picks touch neither verdicts nor acknowledgements nor petitions. */
  ghost predicate CardOnly(d: Disk, d': Disk) {
    && d'.verdicts == d.verdicts && d'.acks == d.acks
    && d'.recs.Keys == d.recs.Keys && forall r | r in d.recs :: d'.recs[r].petition == d.recs[r].petition
  }

  lemma ToggleIsCardOnly(d: Disk, rid: Rid, idx: int)
    ensures CardOnly(d, TogglePressed(d, rid, idx))
  {
    hide Toggled;
  }

  lemma AnswersAreCardOnly(d: Disk, rid: Rid, idxs: seq<int>, who: string)
    ensures CardOnly(d, SubmitPressed(d, rid, who)) && CardOnly(d, PickPressed(d, rid, idxs, who))
  {
    hide AnswerOf;
  }

  lemma CardPress(d: Disk, press: Parsed, who: string)
    requires press.action in {Pick, Toggle, Submit, Page}
    ensures CardOnly(d, Done(d, press, who))
  {
    if press.idxs != [] {
      ToggleIsCardOnly(d, press.rid, press.idxs[0]);
    }
    AnswersAreCardOnly(d, press.rid, press.idxs, Via(who));
    hide TogglePressed, SubmitPressed, PickPressed, Acked;
  }

  lemma DoneVerdicts(d: Disk, press: Parsed, who: string, rid: Rid)
    ensures var after := Done(d, press, who).verdicts;
      if rid in d.verdicts || press.rid != rid || press.action !in {PressApprove, PressDeny}
      then (rid in after <==> rid in d.verdicts) && (rid in after ==> after[rid] == d.verdicts[rid])
      else rid in after && after[rid] == Holds(VerdictRecord(if press.action == PressApprove then Approve
        else Deny, who))
  {
    if press.action in {Pick, Toggle, Submit, Page} {
      CardPress(d, press, who);
      hide Done;
    } else {
      hide TogglePressed, SubmitPressed, PickPressed;
    }
  }

  lemma ApproveIsNotDeny(rid: Rid)
    ensures "approve:" + rid != "deny:" + rid
  {
    assert ("approve:" + rid)[0] == 'a' && ("deny:" + rid)[0] == 'd';
  }

  lemma PressVerdict(d: Disk, p: Press, rid: Rid)
    ensures var after := Pressed(d, p).verdicts;
      if rid in d.verdicts || !Decides(p, rid)
      then (rid in after <==> rid in d.verdicts) && (rid in after ==> after[rid] == d.verdicts[rid])
      else rid in after && after[rid] == Holds(VerdictRecord(DecisionOf(p, rid), p.who))
  {
    MeansExactly(p.data, rid);
    ApproveIsNotDeny(rid);
    var v := SplitVerdict(p.data);
    if v.Some? {
      DoneVerdicts(d, v.value, p.who, rid);
    }
    hide SplitVerdict, Done;
  }

  /** The first press of a verdict button of the request. */
  predicate FirstDecides(ps: seq<Press>, k: nat, rid: Rid) {
    k < |ps| && Decides(ps[k], rid) && forall j | 0 <= j < k :: !Decides(ps[j], rid)
  }

  /** Over any presses, an undecided petition gets a verdict exactly if its approve or its deny button is
      among them, and the first of these says which, with the presser's name. */
  lemma {:induction false} FirstVerdictButtonDecides(d: Disk, ps: seq<Press>, rid: Rid)
    requires rid !in d.verdicts
    ensures var after := AllPressed(d, ps).verdicts;
      && (rid in after <==> exists k | 0 <= k < |ps| :: Decides(ps[k], rid))
      && forall k: nat | FirstDecides(ps, k, rid) ::
           rid in after && after[rid] == Holds(VerdictRecord(DecisionOf(ps[k], rid), ps[k].who))
  {
    if ps != [] {
      var init, last := ps[..|ps| - 1], ps[|ps| - 1];
      FirstVerdictButtonDecides(d, init, rid);
      PressVerdict(AllPressed(d, init), last, rid);
      hide Pressed, Decides, DecisionOf;
      assert forall k | 0 <= k < |init| :: init[k] == ps[k];
      forall k: nat | FirstDecides(ps, k, rid)
        ensures var after := AllPressed(d, ps).verdicts;
          rid in after && after[rid] == Holds(VerdictRecord(DecisionOf(ps[k], rid), ps[k].who))
      {
        if k < |init| {
          assert FirstDecides(init, k, rid);
        }
      }
    }
  }

  /** A verdict file that was there stays, whatever is pressed. */
  lemma {:induction false} VerdictsStay(d: Disk, ps: seq<Press>, rid: Rid)
    requires rid in d.verdicts
    ensures rid in AllPressed(d, ps).verdicts && AllPressed(d, ps).verdicts[rid] == d.verdicts[rid]
  {
    if ps != [] {
      VerdictsStay(d, ps[..|ps| - 1], rid);
      PressVerdict(AllPressed(d, ps[..|ps| - 1]), ps[|ps| - 1], rid);
    }
  }

  // ----- Acknowledgements ----------------------------------------------------------------------------

  lemma DoneKeepsPetition(d: Disk, press: Parsed, who: string)
    ensures var d' := Done(d, press, who);
      d'.recs.Keys == d.recs.Keys && forall r | r in d.recs :: d'.recs[r].petition == d.recs[r].petition
  {
    if press.action in {Pick, Toggle, Submit, Page} {
      CardPress(d, press, who);
      hide Done;
    } else {
      hide TogglePressed, SubmitPressed, PickPressed;
    }
  }

  lemma PressKeepsPetition(d: Disk, p: Press)
    ensures var d' := Pressed(d, p);
      d'.recs.Keys == d.recs.Keys && forall r | r in d.recs :: d'.recs[r].petition == d.recs[r].petition
  {
    var v := SplitVerdict(p.data);
    if v.Some? {
      DoneKeepsPetition(d, v.value, p.who);
    }
    hide SplitVerdict, Done;
  }

  lemma {:induction false} PressesKeepPetition(d: Disk, ps: seq<Press>)
    ensures var d' := AllPressed(d, ps);
      d'.recs.Keys == d.recs.Keys && forall r | r in d.recs :: d'.recs[r].petition == d.recs[r].petition
  {
    if ps != [] {
      PressesKeepPetition(d, ps[..|ps| - 1]);
      PressKeepsPetition(AllPressed(d, ps[..|ps| - 1]), ps[|ps| - 1]);
      hide Pressed;
    }
  }

  predicate IsNotice(d: Disk, rid: Rid) {
    rid in d.recs && d.recs[rid].petition.kind == Notify
  }

  lemma DoneAcks(d: Disk, press: Parsed, who: string, rid: Rid)
    ensures var after := Done(d, press, who).acks;
      if rid in d.acks || press.rid != rid || press.action != PressAck || !IsNotice(d, rid)
      then (rid in after <==> rid in d.acks) && (rid in after ==> after[rid] == d.acks[rid])
      else rid in after && after[rid] == Holds(AckRecord("telegram:" + who))
  {
    if press.action in {Pick, Toggle, Submit, Page} {
      CardPress(d, press, who);
      hide Done;
    } else {
      hide TogglePressed, SubmitPressed, PickPressed;
    }
  }

  lemma PressAcks(d: Disk, p: Press, rid: Rid)
    ensures var after := Pressed(d, p).acks;
      if rid in d.acks || p.data != "ack:" + rid || !IsNotice(d, rid)
      then (rid in after <==> rid in d.acks) && (rid in after ==> after[rid] == d.acks[rid])
      else rid in after && after[rid] == Holds(AckRecord("telegram:" + p.who))
  {
    MeansExactly(p.data, rid);
    var v := SplitVerdict(p.data);
    if v.Some? {
      DoneAcks(d, v.value, p.who, rid);
    }
    hide SplitVerdict, Done;
  }

  predicate AckPressed(p: Press, rid: Rid) {
    p.data == "ack:" + rid
  }

  predicate FirstAck(ps: seq<Press>, k: nat, rid: Rid) {
    k < |ps| && AckPressed(ps[k], rid) && forall j | 0 <= j < k :: !AckPressed(ps[j], rid)
  }

  /** A notice gets an acknowledgement exactly if its acknowledge button is pressed, and the first press
      names the reader; nothing else ever gets one. */
  lemma {:induction false} FirstAckButtonCounts(d: Disk, ps: seq<Press>, rid: Rid)
    requires rid !in d.acks
    ensures var after := AllPressed(d, ps).acks;
      && (rid in after <==> IsNotice(d, rid) && exists k | 0 <= k < |ps| :: AckPressed(ps[k], rid))
      && forall k: nat | FirstAck(ps, k, rid) && IsNotice(d, rid) ::
           rid in after && after[rid] == Holds(AckRecord("telegram:" + ps[k].who))
  {
    if ps != [] {
      var init, last := ps[..|ps| - 1], ps[|ps| - 1];
      FirstAckButtonCounts(d, init, rid);
      PressesKeepPetition(d, init);
      PressAcks(AllPressed(d, init), last, rid);
      hide Pressed;
      assert forall k | 0 <= k < |init| :: init[k] == ps[k];
      forall k: nat | FirstAck(ps, k, rid) && IsNotice(d, rid)
        ensures var after := AllPressed(d, ps).acks;
          rid in after && after[rid] == Holds(AckRecord("telegram:" + ps[k].who))
      {
        if k < |init| {
          assert FirstAck(init, k, rid);
        }
      }
    }
  }

  // ----- Picked answers ------------------------------------------------------------------------------

  /** A question with one answer. */
  predicate SingleAsk(d: Disk, rid: Rid) {
    rid in d.recs && d.recs[rid].petition.kind == Ask && !d.recs[rid].petition.multiSelect
  }

  /** The indices a press names for a question. */
  function PickOf(p: Press, rid: Rid): seq<int> {
    var v := SplitVerdict(p.data);
    if v.Some? && v.value.action == Pick && v.value.rid == rid then v.value.idxs else []
  }

  /** It names an option that there is. */
  predicate Picks(p: Press, rid: Rid, options: seq<string>) {
    exists i | i in PickOf(p, rid) :: 0 <= i < |options|
  }

  predicate FirstPick(ps: seq<Press>, k: nat, rid: Rid, options: seq<string>) {
    k < |ps| && Picks(ps[k], rid, options) && forall j | 0 <= j < k :: !Picks(ps[j], rid, options)
  }

  /** The indices that are options are kept, in order. */
  lemma {:induction false} ValidOnesAre(options: seq<string>, idxs: seq<int>)
    ensures forall i :: i in ValidOnes(options, idxs) <==> i in idxs && 0 <= i < |options|
    ensures forall i :: 0 <= i < |options| ==> multiset(ValidOnes(options, idxs))[i] == multiset(idxs)[i]
  {
    if idxs != [] {
      var init, last := idxs[..|idxs| - 1], idxs[|idxs| - 1];
      ValidOnesAre(options, init);
      assert idxs == init + [last];
      assert forall i :: i in idxs <==> i in init || i == last;
    }
  }

  /** One option is recorded by its label and number, several by their labels and all their numbers. */
  predicate Spells(sel: SelectionRecord, options: seq<string>, idxs: seq<int>, who: string) {
    var valid := ValidOnes(options, idxs);
    && valid != [] && sel.who == "telegram:" + who
    && if |valid| == 1 then sel.selection == options[valid[0]] && sel.idx == valid[0] && sel.idxs == []
       else sel.selection == Join(Labels(options, valid), ", ") && sel.idx == 0 && sel.idxs == valid
  }

  /** The selections of a single-answer question after one press. */
  ghost predicate Selected(d: Disk, after: Disk, rid: Rid, idxs: seq<int>, who: string)
    requires rid in d.recs
  {
    var options := d.recs[rid].petition.options;
    if rid !in d.selections && exists i | i in idxs :: 0 <= i < |options|
    then rid in after.selections && after.selections[rid].Holds?
      && Spells(after.selections[rid].content, options, idxs, who)
    else (rid in after.selections <==> rid in d.selections)
         && (rid in after.selections ==> after.selections[rid] == d.selections[rid])
  }

  lemma OthersSelectNothing(d: Disk, press: Parsed, who: string, rid: Rid)
    requires SingleAsk(d, rid) && (press.action != Pick || press.rid != rid)
    ensures var after := Done(d, press, who).selections;
      (rid in after <==> rid in d.selections) && (rid in after ==> after[rid] == d.selections[rid])
  {
    hide Toggled, AnswerOf;
  }

  lemma PickSelects(d: Disk, rid: Rid, idxs: seq<int>, who: string)
    requires SingleAsk(d, rid)
    ensures Selected(d, PickPressed(d, rid, idxs, Via(who)), rid, idxs, who)
  {
    var valid := ValidOnes(d.recs[rid].petition.options, idxs);
    ValidOnesAre(d.recs[rid].petition.options, idxs);
    assert valid != [] ==> valid[0] in valid;
    hide Join, ValidOnes, Labels;
  }

  lemma DoneSelects(d: Disk, press: Parsed, who: string, rid: Rid)
    requires SingleAsk(d, rid)
    ensures Selected(d, Done(d, press, who), rid, if press.action == Pick && press.rid == rid then press.idxs
          else [], who)
  {
    if press.action == Pick && press.rid == rid {
      PickSelects(d, rid, press.idxs, who);
      hide PickPressed, Selected, TogglePressed, SubmitPressed;
    } else {
      OthersSelectNothing(d, press, who, rid);
      hide Done;
    }
  }

  lemma PressSelects(d: Disk, p: Press, rid: Rid)
    requires SingleAsk(d, rid)
    ensures Selected(d, Pressed(d, p), rid, PickOf(p, rid), p.who)
  {
    var v := SplitVerdict(p.data);
    if v.Some? {
      DoneSelects(d, v.value, p.who, rid);
    }
    hide SplitVerdict, Done, Spells;
  }

  /** The question is answered exactly if some press picked, and as the first of these says. */
  ghost predicate AnsweredBy(ps: seq<Press>, after: Disk, rid: Rid, options: seq<string>) {
    && (rid in after.selections <==> exists k | 0 <= k < |ps| :: Picks(ps[k], rid, options))
    && forall k: nat | FirstPick(ps, k, rid, options) ::
         rid in after.selections && after.selections[rid].Holds?
         && Spells(after.selections[rid].content, options, PickOf(ps[k], rid), ps[k].who)
  }

  lemma OneMorePick(init: seq<Press>, last: Press, before: Disk, after: Disk, rid: Rid, options: seq<string>)
    requires AnsweredBy(init, before, rid, options)
    requires rid in before.recs && options == before.recs[rid].petition.options
    requires Selected(before, after, rid, PickOf(last, rid), last.who)
    ensures AnsweredBy(init + [last], after, rid, options)
  {
    hide PickOf, Spells;
    var ps := init + [last];
    assert forall k | 0 <= k < |init| :: init[k] == ps[k];
    assert ps[|init|] == last;
    assert Picks(last, rid, options) <==> exists i | i in PickOf(last, rid) :: 0 <= i < |options|;
    hide Picks;
    forall k: nat | FirstPick(ps, k, rid, options)
      ensures rid in after.selections && after.selections[rid].Holds?
      ensures Spells(after.selections[rid].content, options, PickOf(ps[k], rid), ps[k].who)
    {
      if k < |init| {
        assert FirstPick(init, k, rid, options);
      }
    }
  }

  lemma StaysSingle(d: Disk, ps: seq<Press>, rid: Rid)
    requires SingleAsk(d, rid)
    ensures SingleAsk(AllPressed(d, ps), rid)
    ensures AllPressed(d, ps).recs[rid].petition.options == d.recs[rid].petition.options
  {
    PressesKeepPetition(d, ps);
    hide AllPressed;
  }

  lemma PressAnswers(init: seq<Press>, last: Press, mid: Disk, rid: Rid)
    requires SingleAsk(mid, rid) && AnsweredBy(init, mid, rid, mid.recs[rid].petition.options)
    ensures AnsweredBy(init + [last], Pressed(mid, last), rid, mid.recs[rid].petition.options)
  {
    hide Pressed, PickOf, Selected, AnsweredBy;
    PressSelects(mid, last, rid);
    OneMorePick(init, last, mid, Pressed(mid, last), rid, mid.recs[rid].petition.options);
  }

  lemma NoPresses(d: Disk, rid: Rid, options: seq<string>)
    requires rid !in d.selections
    ensures AllPressed(d, []) == d && AnsweredBy([], d, rid, options)
  {
    hide Picks, Spells, PickOf;
  }

  lemma LastPressed(d: Disk, ps: seq<Press>)
    requires ps != []
    ensures AllPressed(d, ps) == Pressed(AllPressed(d, ps[..|ps| - 1]), ps[|ps| - 1])
  {
    hide Pressed;
  }

  /** An unanswered single-answer question is answered exactly if one of the presses picks an option of it,
      and the first of these says which. */
  lemma {:induction false} FirstPickAnswers(d: Disk, ps: seq<Press>, rid: Rid)
    requires SingleAsk(d, rid) && rid !in d.selections
    ensures AnsweredBy(ps, AllPressed(d, ps), rid, d.recs[rid].petition.options)
  {
    hide AnsweredBy, Pressed, AllPressed;
    if ps == [] {
      NoPresses(d, rid, d.recs[rid].petition.options);
    } else {
      var init, last := ps[..|ps| - 1], ps[|ps| - 1];
      FirstPickAnswers(d, init, rid);
      StaysSingle(d, init, rid);
      PressAnswers(init, last, AllPressed(d, init), rid);
      LastPressed(d, ps);
      assert ps == init + [last];
    }
  }

  /** The button of an option picks that option alone. */
  lemma OptionButtonPicks(rid: Rid, options: seq<string>, i: nat, who: string, sel: SelectionRecord)
    requires PlainRid(rid) && i < |options| && |options| <= MAX64
    ensures var p := Press("ask:" + rid + ":" + Itoa(i), who);
      && Picks(p, rid, options)
      && (Spells(sel, options, PickOf(p, rid), who) <==> sel == SelectionRecord(options[i], i, [], "telegram:" + who))
  {
    Spelled(rid, i);
    AskDataParses(rid, i);
    hide SplitVerdict, AskData, Itoa, PlainRid;
    var p := Press("ask:" + rid + ":" + Itoa(i), who);
    assert PickOf(p, rid) == [i] && i in [i];
    assert ValidOnes(options, [i]) == [] + [i] by {
      assert [i][..0] == [];
    }
  }

  // ----- Closed cards --------------------------------------------------------------------------------

  /** At most a selection on a question is added. */
  ghost predicate MayAnswer(d: Disk, d': Disk) {
    && d'.recs == d.recs && d'.cancels == d.cancels && d'.results == d.results
    && (forall r | r in d.selections :: r in d'.selections && d'.selections[r] == d.selections[r])
    && (forall r | r in d'.selections && r !in d.selections :: r in d.recs && d.recs[r].petition.kind == Ask)
  }

  lemma AnsweredMay(d: Disk, rid: Rid, sel: SelectionRecord)
    ensures MayAnswer(d, Answered(d, rid, sel))
  {
  }

  lemma AnswersMay(d: Disk, rid: Rid, idxs: seq<int>, who: string)
    ensures MayAnswer(d, SubmitPressed(d, rid, who)) && MayAnswer(d, PickPressed(d, rid, idxs, who))
  {
    assert MayAnswer(d, d);
    hide Answered, AnswerOf, MayAnswer;
    if rid in d.recs {
      var options := d.recs[rid].petition.options;
      var a, b := AnswerOf(options, d.recs[rid].selectedIdxs, false, who), AnswerOf(options, idxs, true, who);
      if a.Some? {
        AnsweredMay(d, rid, a.value);
      }
      if b.Some? {
        AnsweredMay(d, rid, b.value);
      }
    }
  }

  lemma OtherPressMay(d: Disk, press: Parsed, who: string)
    requires press.action != Toggle
    ensures MayAnswer(d, Done(d, press, who))
  {
    AnswersMay(d, press.rid, press.idxs, Via(who));
    hide SubmitPressed, PickPressed, TogglePressed;
  }

  lemma ToggleOnClosed(d: Disk, at: Rid, idx: int, rid: Rid)
    requires rid in d.recs
    ensures var d' := TogglePressed(d, at, idx);
      && d'.selections == d.selections && d'.cancels == d.cancels && d'.results == d.results
      && rid in d'.recs && (!Unanswered(d, rid) ==> d'.recs[rid] == d.recs[rid])
  {
    hide Toggled;
  }

  lemma DoneOnClosed(d: Disk, press: Parsed, who: string, rid: Rid)
    requires rid in d.recs && !Unanswered(d, rid)
    ensures var d' := Done(d, press, who); !Unanswered(d', rid) && rid in d'.recs && d'.recs[rid] == d.recs[rid]
  {
    if press.action == Toggle {
      if press.idxs != [] {
        ToggleOnClosed(d, press.rid, press.idxs[0], rid);
      }
      hide TogglePressed, SubmitPressed, PickPressed;
    } else {
      OtherPressMay(d, press, who);
      hide Done;
    }
  }

  lemma PressOnClosed(d: Disk, p: Press, rid: Rid)
    requires rid in d.recs && !Unanswered(d, rid)
    ensures var d' := Pressed(d, p); !Unanswered(d', rid) && rid in d'.recs && d'.recs[rid] == d.recs[rid]
  {
    var v := SplitVerdict(p.data);
    if v.Some? {
      DoneOnClosed(d, v.value, p.who, rid);
    }
    hide SplitVerdict, Done, Unanswered;
  }

  /** Once a question is answered or cancelled, no presses change its set or anything else on its record. */
  lemma {:induction false} ClosedCardStays(d: Disk, ps: seq<Press>, rid: Rid)
    requires rid in d.recs && (SelectionInfo(d, rid).Some? || CancelInfo(d, rid).Some?)
    ensures var d' := AllPressed(d, ps);
      !Unanswered(d', rid) && rid in d'.recs && d'.recs[rid] == d.recs[rid]
  {
    if ps != [] {
      ClosedCardStays(d, ps[..|ps| - 1], rid);
      PressOnClosed(AllPressed(d, ps[..|ps| - 1]), ps[|ps| - 1], rid);
      hide Pressed;
    }
  }

  lemma DoneOnOthers(d: Disk, press: Parsed, who: string, rid: Rid)
    requires rid !in d.recs || d.recs[rid].petition.kind != Ask
    ensures var d' := Done(d, press, who);
      && d'.cancels == d.cancels && d'.results == d.results
      && (rid in d'.selections <==> rid in d.selections)
         && (rid in d'.selections ==> d'.selections[rid] == d.selections[rid])
  {
    if press.action == Toggle {
      if press.idxs != [] && press.rid in d.recs {
        ToggleOnClosed(d, press.rid, press.idxs[0], press.rid);
      }
      hide SubmitPressed, PickPressed, Toggled;
    } else {
      OtherPressMay(d, press, who);
      hide Done;
    }
  }

  lemma PressOnOthers(d: Disk, p: Press, rid: Rid)
    requires rid !in d.recs || d.recs[rid].petition.kind != Ask
    ensures var d' := Pressed(d, p);
      && d'.cancels == d.cancels && d'.results == d.results
      && (rid in d'.selections <==> rid in d.selections)
         && (rid in d'.selections ==> d'.selections[rid] == d.selections[rid])
  {
    var v := SplitVerdict(p.data);
    if v.Some? {
      DoneOnOthers(d, v.value, p.who, rid);
    }
    hide SplitVerdict, Done;
  }

  /** Presses answer questions only, and never cancel anything or record a result. */
  lemma {:induction false} OnlyQuestionsAreAnswered(d: Disk, ps: seq<Press>, rid: Rid)
    requires rid !in d.recs || d.recs[rid].petition.kind != Ask
    ensures var d' := AllPressed(d, ps);
      && d'.cancels == d.cancels && d'.results == d.results
      && (rid in d'.selections <==> rid in d.selections)
         && (rid in d'.selections ==> d'.selections[rid] == d.selections[rid])
  {
    if ps != [] {
      OnlyQuestionsAreAnswered(d, ps[..|ps| - 1], rid);
      PressesKeepPetition(d, ps[..|ps| - 1]);
      PressOnOthers(AllPressed(d, ps[..|ps| - 1]), ps[|ps| - 1], rid);
      hide Pressed;
    }
  }
}
