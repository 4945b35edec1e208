/** Button presses on question cards: toggling options, submitting the set, picking an answer. */
module Asking {
  import opened Records
  import opened Protocol
  import opened Callback
  import opened Decimal
  import opened Text
  import Cancelling
  import Store

  // ----- The toggle set ------------------------------------------------------------------------------

  predicate Ascending(s: seq<int>) {
    forall i, j | 0 <= i < j < |s| :: s[i] <= s[j]
  }

  predicate StrictlyAscending(s: seq<int>) {
    forall i, j | 0 <= i < j < |s| :: s[i] < s[j]
  }

  function Dropped(s: seq<int>, idx: int): seq<int> {
    if s == [] then []
    else
      var rest := Dropped(s[..|s| - 1], idx);
      if s[|s| - 1] == idx then rest else rest + [s[|s| - 1]]
  }

  function Inserted(s: seq<int>, x: int): seq<int> {
    if s == [] || x <= s[0] then [x] + s else [s[0]] + Inserted(s[1..], x)
  }

  /** The library's integer sort. */
  function SortInts(s: seq<int>): seq<int> {
    if s == [] then [] else Inserted(SortInts(s[..|s| - 1]), s[|s| - 1])
  }

  function Toggled(s: seq<int>, idx: int): seq<int> {
    SortInts(Dropped(s, idx) + if idx in s then [] else [idx])
  }

  method ToggleIdx(s: seq<int>, idx: int) returns (out: seq<int>)
    ensures out == Toggled(s, idx)
  {
    out := [];
    var found := false;
    var i := 0;
    while i < |s|
      invariant 0 <= i <= |s|
      invariant out == Dropped(s[..i], idx) && (found <==> idx in s[..i])
    {
      assert s[..i + 1][..i] == s[..i] && s[..i + 1] == s[..i] + [s[i]];
      if s[i] == idx {
        found := true;
      } else {
        out := out + [s[i]];
      }
      i := i + 1;
    }
    assert s[..i] == s;
    if !found {
      out := out + [idx];
    }
    assert Dropped(s, idx) + [] == Dropped(s, idx);
    out := SortInts(out);
  }

  lemma {:induction false} InsertedAscends(s: seq<int>, x: int)
    requires Ascending(s)
    ensures Ascending(Inserted(s, x))
    ensures forall k | 0 <= k < |Inserted(s, x)| :: Inserted(s, x)[k] >= if s == [] || x <= s[0] then x else s[0]
  {
    if s != [] && x > s[0] {
      InsertedAscends(s[1..], x);
    }
  }

  lemma {:induction false} InsertedHolds(s: seq<int>, x: int)
    ensures multiset(Inserted(s, x)) == multiset(s) + multiset{x}
  {
    if s != [] && x > s[0] {
      InsertedHolds(s[1..], x);
      assert s == [s[0]] + s[1..];
    }
  }

  lemma {:induction false} SortIntsSorts(s: seq<int>)
    ensures Ascending(SortInts(s)) && multiset(SortInts(s)) == multiset(s)
  {
    if s != [] {
      var init := s[..|s| - 1];
      SortIntsSorts(init);
      InsertedAscends(SortInts(init), s[|s| - 1]);
      InsertedHolds(SortInts(init), s[|s| - 1]);
      assert s == init + [s[|s| - 1]];
    }
  }

  lemma {:induction false} DroppedHolds(s: seq<int>, idx: int)
    ensures multiset(Dropped(s, idx)) == multiset(s)[idx := 0]
  {
    if s != [] {
      DroppedHolds(s[..|s| - 1], idx);
      assert s == s[..|s| - 1] + [s[|s| - 1]];
    }
  }

  lemma {:induction false} StrictMeansOnce(s: seq<int>)
    ensures Ascending(s) && (forall x :: multiset(s)[x] <= 1) ==> StrictlyAscending(s)
    ensures StrictlyAscending(s) ==> forall x :: multiset(s)[x] <= 1
  {
    if s != [] {
      var init, last := s[..|s| - 1], s[|s| - 1];
      assert s == init + [last];
      StrictMeansOnce(init);
      assert multiset(s) == multiset(init) + multiset{last};
      assert forall x :: multiset(init)[x] <= multiset(s)[x];
      assert last in init <==> multiset(init)[last] > 0;
      if StrictlyAscending(s) {
        assert last !in init;
      }
    }
  }

  /** On a strictly ascending set a toggle flips one member and keeps the order strict. */
  lemma ToggleFlips(s: seq<int>, idx: int)
    requires StrictlyAscending(s)
    ensures StrictlyAscending(Toggled(s, idx))
    ensures forall i :: i in Toggled(s, idx) <==> (i in s) != (i == idx)
  {
    var kept := Dropped(s, idx) + if idx in s then [] else [idx];
    var t := SortInts(kept);
    DroppedHolds(s, idx);
    SortIntsSorts(kept);
    hide Dropped, SortInts;
    assert multiset(t) == multiset(s)[idx := if idx in s then 0 else 1];
    StrictMeansOnce(s);
    StrictMeansOnce(t);
    assert forall i :: i in t <==> multiset(t)[i] > 0;
    assert forall i :: i in s <==> multiset(s)[i] > 0;
  }

  // ----- Answers -------------------------------------------------------------------------------------

  predicate InRange(options: seq<string>, i: int) {
    0 <= i < |options|
  }

  predicate AllInRange(options: seq<string>, idxs: seq<int>) {
    forall k | 0 <= k < |idxs| :: InRange(options, idxs[k])
  }

  function ValidOnes(options: seq<string>, idxs: seq<int>): (valid: seq<int>)
    ensures AllInRange(options, valid)
  {
    if idxs == [] then []
    else
      var rest := ValidOnes(options, idxs[..|idxs| - 1]);
      if InRange(options, idxs[|idxs| - 1]) then rest + [idxs[|idxs| - 1]] else rest
  }

  function Labels(options: seq<string>, idxs: seq<int>): (labels: seq<string>)
    requires AllInRange(options, idxs)
    ensures |labels| == |idxs| && forall k | 0 <= k < |idxs| :: labels[k] == options[idxs[k]]
  {
    seq(|idxs|, k requires 0 <= k < |idxs| => options[idxs[k]])
  }

  function Join(parts: seq<string>, sep: string): string {
    if parts == [] then ""
    else if |parts| == 1 then parts[0]
    else parts[0] + sep + Join(parts[1..], sep)
  }

  /** Joined labels can be told apart again where no label holds the separator. */
  lemma {:induction false} JoinSplits(parts: seq<string>, sep: char)
    requires parts != [] && forall k | 0 <= k < |parts| :: sep !in parts[k]
    ensures Split(Join(parts, [sep]), sep) == parts
  {
    if |parts| == 1 {
      SplitNone(parts[0], sep);
      assert parts == [parts[0]];
    } else {
      JoinSplits(parts[1..], sep);
      SplitAtFirst(parts[0], sep, Join(parts[1..], [sep]));
      assert parts == [parts[0]] + parts[1..];
    }
  }

  lemma {:induction false} SplitAtFirst(a: string, c: char, b: string)
    requires c !in a
    ensures Split(a + [c] + b, c) == [a] + Split(b, c)
  {
    var s := a + [c] + b;
    if a == [] {
      assert s[1..] == b;
    } else {
      assert s[1..] == a[1..] + [c] + b;
      SplitAtFirst(a[1..], c, b);
      assert [s[0]] + a[1..] == a;
    }
  }

  lemma {:induction false} AllValid(options: seq<string>, idxs: seq<int>)
    requires AllInRange(options, idxs)
    ensures ValidOnes(options, idxs) == idxs
  {
    if idxs != [] {
      AllValid(options, idxs[..|idxs| - 1]);
      assert idxs == idxs[..|idxs| - 1] + [idxs[|idxs| - 1]];
    }
  }

  // ----- One press -----------------------------------------------------------------------------------

  /** An approved operator's button: its data, and who pressed it. */
  datatype Press = Press(data: string, who: string)

  function Via(who: string): string {
    "telegram:" + who
  }

  predicate MultiAsk(d: Disk, rid: Rid) {
    rid in d.recs && d.recs[rid].petition.kind == Ask && d.recs[rid].petition.multiSelect
  }

  /** Neither answered nor cancelled, as far as can be read. */
  predicate Unanswered(d: Disk, rid: Rid) {
    SelectionInfo(d, rid).None? && CancelInfo(d, rid).None?
  }

  function TogglePressed(d: Disk, rid: Rid, idx: int): Disk {
    if MultiAsk(d, rid) && Unanswered(d, rid) && InRange(d.recs[rid].petition.options, idx)
    then SaveRec(d, rid, d.recs[rid].(selectedIdxs := Toggled(d.recs[rid].selectedIdxs, idx)))
    else d
  }

  function Answered(d: Disk, rid: Rid, sel: SelectionRecord): Disk {
    if rid in d.recs && d.recs[rid].petition.kind == Ask
    then d.(selections := WriteOnce(d.selections, rid, sel))
    else d
  }

  /** The answer some indices spell, if any of them is an option. */
  function AnswerOf(options: seq<string>, idxs: seq<int>, single: bool, who: string): Option<SelectionRecord> {
    var valid := ValidOnes(options, idxs);
    if valid == [] then None
    else if single && |valid| == 1 then Some(SelectionRecord(options[valid[0]], valid[0], [], who))
    else Some(SelectionRecord(Join(Labels(options, valid), ", "), 0, valid, who))
  }

  function SubmitPressed(d: Disk, rid: Rid, who: string): Disk {
    if !MultiAsk(d, rid) then d
    else
      var sel := AnswerOf(d.recs[rid].petition.options, d.recs[rid].selectedIdxs, false, who);
      if sel.None? then d else Answered(d, rid, sel.value)
  }

  function PickPressed(d: Disk, rid: Rid, idxs: seq<int>, who: string): Disk {
    if rid !in d.recs then d
    else
      var sel := AnswerOf(d.recs[rid].petition.options, idxs, true, who);
      if sel.None? then d else Answered(d, rid, sel.value)
  }

  function Acked(d: Disk, rid: Rid, who: string): Disk {
    if rid in d.recs && d.recs[rid].petition.kind == Notify
    then d.(acks := WriteOnce(d.acks, rid, AckRecord(who)))
    else d
  }

  /** What a parsed press does. A submit button that counts nothing selected is ignored. */
  function Done(d: Disk, press: Parsed, who: string): Disk {
    var Parsed(action, rid, idxs) := press;
    match action
    case Page => d
    case PressAck => Acked(d, rid, Via(who))
    case Toggle => if idxs == [] then d else TogglePressed(d, rid, idxs[0])
    case Submit => if idxs == [] || idxs[0] == 0 then d else SubmitPressed(d, rid, Via(who))
    case Pick => PickPressed(d, rid, idxs, Via(who))
    case PressApprove => Cancelling.Consume(d, rid, VerdictRecord(Approve, who))
    case PressDeny => Cancelling.Consume(d, rid, VerdictRecord(Deny, who))
  }

  /** What one press does to the store. */
  function Pressed(d: Disk, p: Press): Disk {
    var v := SplitVerdict(p.data);
    if v.None? then d else Done(d, v.value, p.who)
  }

  function AllPressed(d: Disk, ps: seq<Press>): Disk {
    if ps == [] then d else Pressed(AllPressed(d, ps[..|ps| - 1]), ps[|ps| - 1])
  }

  // ----- The pump ------------------------------------------------------------------------------------

  class Pump {
    const store: Store.Store

    constructor (store: Store.Store)
      ensures this.store == store
    {
      this.store := store;
    }

    method ToggleAsk(rid: Rid, idx: int)
      modifies store
      ensures store.View() == TogglePressed(old(store.View()), rid, idx)
    {
      if rid !in store.recs || store.recs[rid].petition.kind != Ask || !store.recs[rid].petition.multiSelect {
        return;
      }
      var rec := store.recs[rid];
      if Read(store.selections, rid).Some? || Read(store.cancels, rid).Some? {
        return;
      }
      if idx < 0 || idx >= |rec.petition.options| {
        return;
      }
      var next := ToggleIdx(rec.selectedIdxs, idx);
      var _ := store.Update(rid, SetSelectedIdxs(next));
    }

    method Collect(options: seq<string>, idxs: seq<int>) returns (labels: seq<string>, valid: seq<int>)
      ensures valid == ValidOnes(options, idxs) && labels == Labels(options, valid)
    {
      labels, valid := [], [];
      var k := 0;
      while k < |idxs|
        invariant 0 <= k <= |idxs|
        invariant valid == ValidOnes(options, idxs[..k]) && labels == Labels(options, valid)
      {
        assert idxs[..k + 1][..k] == idxs[..k];
        var i := idxs[k];
        k := k + 1;
        if i < 0 || i >= |options| {
          continue;
        }
        labels := labels + [options[i]];
        valid := valid + [i];
      }
      assert idxs[..k] == idxs;
    }

    method SubmitAsk(rid: Rid, who: string)
      modifies store
      ensures store.View() == SubmitPressed(old(store.View()), rid, who)
    {
      if rid !in store.recs || store.recs[rid].petition.kind != Ask || !store.recs[rid].petition.multiSelect {
        return;
      }
      var rec := store.recs[rid];
      var labels, valid := Collect(rec.petition.options, rec.selectedIdxs);
      if |labels| == 0 {
        return;
      }
      var _ := store.Select(rid, SelectionRecord(Join(labels, ", "), 0, valid, who));
    }

    method PickAsk(rid: Rid, idxs: seq<int>, who: string)
      modifies store
      ensures store.View() == PickPressed(old(store.View()), rid, idxs, who)
    {
      if rid !in store.recs || |idxs| == 0 {
        return;
      }
      var labels, valid := Collect(store.recs[rid].petition.options, idxs);
      if |labels| == 0 {
        return;
      }
      if |valid| == 1 {
        var _ := store.Select(rid, SelectionRecord(labels[0], valid[0], [], who));
      } else {
        var _ := store.Select(rid, SelectionRecord(Join(labels, ", "), 0, valid, who));
      }
    }

    method Handle(p: Press)
      modifies store
      ensures store.View() == Pressed(old(store.View()), p)
    {
      var v := SplitVerdict(p.data);
      if v.None? {
        return;
      }
      var Parsed(action, rid, idxs) := v.value;
      match action {
        case Page =>
        case PressAck => var _ := store.Ack(rid, Via(p.who));
        case Toggle =>
          if |idxs| > 0 {
            ToggleAsk(rid, idxs[0]);
          }
        case Submit =>
          if |idxs| > 0 && idxs[0] != 0 {
            SubmitAsk(rid, Via(p.who));
          }
        case Pick => PickAsk(rid, idxs, Via(p.who));
        case PressApprove => var _ := store.Consume(rid, Approve, p.who);
        case PressDeny => var _ := store.Consume(rid, Deny, p.who);
      }
    }

    method Drain(ps: seq<Press>)
      modifies store
      ensures store.View() == AllPressed(old(store.View()), ps)
    {
      var i := 0;
      while i < |ps|
        invariant 0 <= i <= |ps|
        invariant store.View() == AllPressed(old(store.View()), ps[..i])
      {
        Handle(ps[i]);
        assert ps[..i + 1][..i] == ps[..i];
        i := i + 1;
      }
      assert ps[..i] == ps;
    }
  }

  // ----- Over a sequence of presses ------------------------------------------------------------------

  predicate IsToggle(p: Press, rid: Rid, i: int) {
    SplitVerdict(p.data) == Some(Parsed(Toggle, rid, [i]))
  }

  predicate OddlyToggled(ps: seq<Press>, rid: Rid, i: int) {
    ps != [] && (OddlyToggled(ps[..|ps| - 1], rid, i) != IsToggle(ps[|ps| - 1], rid, i))
  }

  lemma ToggleShape(data: string)
    ensures var v := SplitVerdict(data); v.Some? && v.value.action == Toggle ==> |v.value.idxs| == 1
  {
  }

  ghost predicate FlippedBy(d: Disk, after: Disk, p: Press, rid: Rid)
    requires rid in d.recs && rid in after.recs
  {
    forall i :: i in after.recs[rid].selectedIdxs <==>
                (i in d.recs[rid].selectedIdxs) != (IsToggle(p, rid, i) && InRange(d.recs[rid].petition.options, i))
  }

  lemma PressElsewhere(d: Disk, p: Press, rid: Rid)
    requires MultiAsk(d, rid)
    requires forall i :: !IsToggle(p, rid, i)
    ensures rid in Pressed(d, p).recs && Pressed(d, p).recs[rid] == d.recs[rid]
  {
    ToggleShape(p.data);
    hide SplitVerdict, AnswerOf, Toggled, Labels;
    var v := SplitVerdict(p.data);
    if v.Some? && v.value.action == Toggle {
      assert v.value.idxs == [v.value.idxs[0]];
      assert !IsToggle(p, rid, v.value.idxs[0]);
    }
  }

  lemma ToggleButton(d: Disk, p: Press, rid: Rid, idx: int)
    requires IsToggle(p, rid, idx)
    ensures Pressed(d, p) == TogglePressed(d, rid, idx)
    ensures forall i :: IsToggle(p, rid, i) <==> i == idx
  {
    hide SplitVerdict, TogglePressed;
    assert forall i :: [i] == [idx] ==> [i][0] == [idx][0];
  }

  lemma PressOnCard(d: Disk, p: Press, rid: Rid)
    requires MultiAsk(d, rid) && Unanswered(d, rid) && StrictlyAscending(d.recs[rid].selectedIdxs)
    ensures var after := Pressed(d, p);
      && MultiAsk(after, rid) && after.recs[rid].petition == d.recs[rid].petition
      && StrictlyAscending(after.recs[rid].selectedIdxs)
      && FlippedBy(d, after, p, rid)
  {
    hide Pressed, IsToggle, Toggled, StrictlyAscending;
    if idx :| IsToggle(p, rid, idx) {
      ToggleFlips(d.recs[rid].selectedIdxs, idx);
      ToggleButton(d, p, rid, idx);
    } else {
      PressElsewhere(d, p, rid);
    }
  }

  lemma DoneKeepsAnswers(d: Disk, press: Parsed, who: string, rid: Rid)
    ensures Unanswered(Done(d, press, who), rid) ==> Unanswered(d, rid)
    ensures rid in d.selections ==>
          rid in Done(d, press, who).selections && Done(d, press, who).selections[rid] == d.selections[rid]
  {
    hide AnswerOf, Toggled;
  }

  lemma OpenBefore(d: Disk, p: Press, rid: Rid)
    ensures Unanswered(Pressed(d, p), rid) ==> Unanswered(d, rid)
    ensures rid in d.selections ==>
          rid in Pressed(d, p).selections && Pressed(d, p).selections[rid] == d.selections[rid]
  {
    var v := SplitVerdict(p.data);
    hide SplitVerdict, Done, Unanswered;
    if v.Some? {
      DoneKeepsAnswers(d, v.value, p.who, rid);
    }
  }

  /** While a multi-select question stays open, its stored set is the strictly ascending list of
      exactly the options toggled an odd number of times, whatever else is pressed in between. */
  lemma {:induction false} TogglesAreParity(d: Disk, ps: seq<Press>, rid: Rid)
    requires MultiAsk(d, rid) && d.recs[rid].selectedIdxs == []
    requires Unanswered(AllPressed(d, ps), rid)
    ensures var after := AllPressed(d, ps);
      && MultiAsk(after, rid) && after.recs[rid].petition == d.recs[rid].petition
      && StrictlyAscending(after.recs[rid].selectedIdxs)
      && forall i :: i in after.recs[rid].selectedIdxs <==>
                     InRange(d.recs[rid].petition.options, i) && OddlyToggled(ps, rid, i)
  {
    if ps != [] {
      var init, last := ps[..|ps| - 1], ps[|ps| - 1];
      var mid := AllPressed(d, init);
      OpenBefore(mid, last, rid);
      TogglesAreParity(d, init, rid);
      PressOnCard(mid, last, rid);
      hide IsToggle, Pressed, InRange;
    }
  }

  lemma SubmitDone(d: Disk, rid: Rid, shown: int, who: string)
    requires 0 < shown
    ensures Done(d, Parsed(Submit, rid, [shown]), who) == SubmitPressed(d, rid, Via(who))
  {
    hide SubmitPressed, Acked, TogglePressed, PickPressed, Via;
  }

  lemma SubmitButton(d: Disk, rid: Rid, shown: int, who: string)
    requires PlainRid(rid) && 0 < shown <= MAX64
    ensures Pressed(d, Press(AskData(rid, "s:", shown), who)) == SubmitPressed(d, rid, Via(who))
  {
    AskDataParses(rid, shown);
    SubmitDone(d, rid, shown, who);
    hide SplitVerdict, AskData, SubmitPressed, PlainRid, Done, Via;
  }

  lemma SubmitOfSet(d: Disk, rid: Rid, who: string)
    requires MultiAsk(d, rid) && rid !in d.selections
    requires AllInRange(d.recs[rid].petition.options, d.recs[rid].selectedIdxs)
    ensures var options, idxs := d.recs[rid].petition.options, d.recs[rid].selectedIdxs;
      SubmitPressed(d, rid, who) ==
        if idxs == [] then d
        else
          var sel := SelectionRecord(Join(Labels(options, idxs), ", "), 0, idxs, who);
          d.(selections := d.selections[rid := Holds(sel)])
  {
    AllValid(d.recs[rid].petition.options, d.recs[rid].selectedIdxs);
    hide Join;
  }

  /** The submit button records those options, in that order, and their labels; with none it records
      nothing and the question stays open. */
  lemma SubmitRecordsParity(d: Disk, ps: seq<Press>, rid: Rid, shown: int, who: string)
    requires MultiAsk(d, rid) && d.recs[rid].selectedIdxs == [] && PlainRid(rid)
    requires Unanswered(AllPressed(d, ps), rid) && rid !in AllPressed(d, ps).selections
    requires 0 < shown <= MAX64
    ensures var mid := AllPressed(d, ps); var after := Pressed(mid, Press(AskData(rid, "s:", shown), who));
      var options := d.recs[rid].petition.options;
      if forall i | InRange(options, i) :: !OddlyToggled(ps, rid, i) then after == mid
      else
        && rid in after.selections && after.selections[rid].Holds?
        && var sel := after.selections[rid].content;
           && StrictlyAscending(sel.idxs) && AllInRange(options, sel.idxs)
           && (forall i :: i in sel.idxs <==> InRange(options, i) && OddlyToggled(ps, rid, i))
           && sel.selection == Join(Labels(options, sel.idxs), ", ") && sel.idx == 0 && sel.who == Via(who)
  {
    TogglesAreParity(d, ps, rid);
    var mid := AllPressed(d, ps);
    var options, idxs := d.recs[rid].petition.options, mid.recs[rid].selectedIdxs;
    hide AllPressed, OddlyToggled, StrictlyAscending, PlainRid, Pressed, SubmitPressed, Join;
    SubmitButton(mid, rid, shown, who);
    forall k | 0 <= k < |idxs| ensures InRange(options, idxs[k]) {
      assert idxs[k] in idxs;
    }
    SubmitOfSet(mid, rid, Via(who));
    if idxs != [] {
      assert idxs[0] in idxs;
    }
  }

  /** The first recorded answer is never replaced. */
  lemma {:induction false} FirstAnswerStays(d: Disk, ps: seq<Press>, rid: Rid)
    requires rid in d.selections
    ensures rid in AllPressed(d, ps).selections && AllPressed(d, ps).selections[rid] == d.selections[rid]
  {
    if ps != [] {
      FirstAnswerStays(d, ps[..|ps| - 1], rid);
      OpenBefore(AllPressed(d, ps[..|ps| - 1]), ps[|ps| - 1], rid);
    }
  }

  // ----- Presses among other updates -----------------------------------------------------------------

  /** What happens around one card: a press, or the load or the save of another update of its record by
      one of several writers. */
  datatype Event = Pressing(press: Press) | Loads(hand: nat, edit: Edit) | Saves(hand: nat)

  /** What a writer holds between its load and its save, the presses it has seen, and how many toggles of
      the card there had been. */
  datatype Hand = Hand(rec: PendingRecord, felt: seq<Press>, toggles: nat)

  /** The disk, the writers' hands, the presses that still show in the record, and the toggles so far. */
  datatype Desk = Desk(disk: Disk, hands: map<nat, Hand>, felt: seq<Press>, toggles: nat)

  predicate TogglesCard(p: Press, rid: Rid) {
    var v := SplitVerdict(p.data);
    v.Some? && v.value.action == Toggle && v.value.rid == rid
  }

  function Happened(k: Desk, rid: Rid, ev: Event): Desk {
    match ev
    case Pressing(p) =>
      Desk(Pressed(k.disk, p), k.hands, k.felt + [p], if TogglesCard(p, rid) then k.toggles + 1 else k.toggles)
    case Loads(h, edit) =>
      if rid !in k.disk.recs || edit.SetSelectedIdxs? || Edited(k.disk.recs[rid], edit).None? then k
      else k.(hands := k.hands[h := Hand(Edited(k.disk.recs[rid], edit).value, k.felt, k.toggles)])
    case Saves(h) =>
      if h !in k.hands then k
      else k.(disk := SaveRec(k.disk, rid, k.hands[h].rec), felt := k.hands[h].felt)
  }

  function AllHappened(k: Desk, rid: Rid, evs: seq<Event>): Desk {
    if evs == [] then k else Happened(AllHappened(k, rid, evs[..|evs| - 1]), rid, evs[|evs| - 1])
  }

  function Presses(evs: seq<Event>): seq<Press> {
    if evs == [] then []
    else
      var earlier := Presses(evs[..|evs| - 1]);
      if evs[|evs| - 1].Pressing? then earlier + [evs[|evs| - 1].press] else earlier
  }

  /** The set is the strictly ascending list of the options toggled an odd number of times. */
  ghost predicate Shows(rec: PendingRecord, felt: seq<Press>, rid: Rid) {
    && StrictlyAscending(rec.selectedIdxs)
    && forall i :: i in rec.selectedIdxs <==> InRange(rec.petition.options, i) && OddlyToggled(felt, rid, i)
  }

  /** The card's record and every copy of it in some hand show what was felt. */
  ghost predicate Desked(k: Desk, rid: Rid, p: Petition) {
    && MultiAsk(k.disk, rid) && k.disk.recs[rid].petition == p && Shows(k.disk.recs[rid], k.felt, rid)
    && forall h | h in k.hands :: k.hands[h].rec.petition == p && Shows(k.hands[h].rec, k.hands[h].felt, rid)
  }

  lemma MorePressed(felt: seq<Press>, p: Press, rid: Rid, i: int)
    ensures OddlyToggled(felt + [p], rid, i) <==> OddlyToggled(felt, rid, i) != IsToggle(p, rid, i)
  {
    assert (felt + [p])[..|felt|] == felt;
  }

  lemma PressShows(k: Desk, rid: Rid, q: Petition, p: Press)
    requires Desked(k, rid, q) && Unanswered(k.disk, rid)
    ensures Desked(Happened(k, rid, Pressing(p)), rid, q)
  {
    PressOnCard(k.disk, p, rid);
    hide Pressed, IsToggle, InRange, OddlyToggled, StrictlyAscending;
    forall i ensures OddlyToggled(k.felt + [p], rid, i) <==> OddlyToggled(k.felt, rid, i) != IsToggle(p, rid, i) {
      MorePressed(k.felt, p, rid, i);
    }
  }

  lemma EditKeepsSet(rec: PendingRecord, e: Edit)
    ensures !e.SetSelectedIdxs? && Edited(rec, e).Some? ==>
              Edited(rec, e).value.selectedIdxs == rec.selectedIdxs && Edited(rec, e).value.petition == rec.petition
  {
  }

  lemma EventShows(k: Desk, rid: Rid, p: Petition, ev: Event)
    requires Desked(k, rid, p) && Unanswered(k.disk, rid)
    ensures Desked(Happened(k, rid, ev), rid, p)
  {
    if ev.Pressing? {
      PressShows(k, rid, p, ev.press);
    } else if ev.Loads? {
      EditKeepsSet(k.disk.recs[rid], ev.edit);
      hide Edited, OddlyToggled, InRange, StrictlyAscending;
    } else {
      hide OddlyToggled, InRange, StrictlyAscending;
    }
  }

  lemma OpenEarlier(k: Desk, rid: Rid, ev: Event)
    ensures Unanswered(Happened(k, rid, ev).disk, rid) ==> Unanswered(k.disk, rid)
  {
    if ev.Pressing? {
      OpenBefore(k.disk, ev.press, rid);
      hide Pressed;
    }
  }

  function Fresh(d: Disk): Desk {
    Desk(d, map[], [], 0)
  }

  /** Whatever updates of the record come between, lost toggles included: the stored set of an open
      question is given by the presses its record still shows, which a save takes back to those its
      writer had seen. */
  lemma {:induction false} SetIsWhatWasFelt(d: Disk, evs: seq<Event>, rid: Rid)
    requires MultiAsk(d, rid) && d.recs[rid].selectedIdxs == []
    requires Unanswered(AllHappened(Fresh(d), rid, evs).disk, rid)
    ensures Desked(AllHappened(Fresh(d), rid, evs), rid, d.recs[rid].petition)
  {
    if evs != [] {
      var init := evs[..|evs| - 1];
      OpenEarlier(AllHappened(Fresh(d), rid, init), rid, evs[|evs| - 1]);
      SetIsWhatWasFelt(d, init, rid);
      EventShows(AllHappened(Fresh(d), rid, init), rid, d.recs[rid].petition, evs[|evs| - 1]);
      hide Happened, Desked;
    }
  }

  /** So the set is that of all presses exactly if the presses the record shows toggle as all of them do. */
  lemma ParityIff(d: Disk, evs: seq<Event>, rid: Rid)
    requires MultiAsk(d, rid) && d.recs[rid].selectedIdxs == []
    requires Unanswered(AllHappened(Fresh(d), rid, evs).disk, rid)
    ensures var k := AllHappened(Fresh(d), rid, evs);
      rid in k.disk.recs &&
      (Shows(k.disk.recs[rid], Presses(evs), rid) <==>
       forall i | InRange(d.recs[rid].petition.options, i) ::
         OddlyToggled(k.felt, rid, i) == OddlyToggled(Presses(evs), rid, i))
  {
    SetIsWhatWasFelt(d, evs, rid);
    hide AllHappened, OddlyToggled, Presses, InRange, StrictlyAscending;
  }

  /** No save stems from a load older than the last toggle of the card. */
  predicate Timely(k: Desk, rid: Rid, evs: seq<Event>) {
    evs == [] ||
    (var init := evs[..|evs| - 1];
     var before := AllHappened(k, rid, init);
     var last := evs[|evs| - 1];
     && Timely(k, rid, init)
     && (last.Saves? && last.hand in before.hands ==> before.hands[last.hand].toggles == before.toggles))
  }

  ghost predicate SameToggles(a: seq<Press>, b: seq<Press>, rid: Rid) {
    forall i :: OddlyToggled(a, rid, i) == OddlyToggled(b, rid, i)
  }

  /** Nothing felt differs from everything pressed, and a hand that has seen the last toggle knows as much. */
  ghost predicate InStep(k: Desk, all: seq<Press>, rid: Rid) {
    && SameToggles(k.felt, all, rid)
    && forall h | h in k.hands :: k.hands[h].toggles <= k.toggles &&
                    (k.hands[h].toggles == k.toggles ==> SameToggles(k.hands[h].felt, all, rid))
  }

  lemma PressInStep(k: Desk, all: seq<Press>, p: Press, rid: Rid)
    requires InStep(k, all, rid)
    ensures InStep(Happened(k, rid, Pressing(p)), all + [p], rid)
  {
    hide OddlyToggled, Pressed, SplitVerdict;
    forall i
      ensures OddlyToggled(k.felt + [p], rid, i) == (OddlyToggled(k.felt, rid, i) != IsToggle(p, rid, i))
      ensures OddlyToggled(all + [p], rid, i) == (OddlyToggled(all, rid, i) != IsToggle(p, rid, i))
      ensures IsToggle(p, rid, i) ==> TogglesCard(p, rid)
    {
      MorePressed(k.felt, p, rid, i);
      MorePressed(all, p, rid, i);
    }
    hide IsToggle, TogglesCard;
  }

  lemma {:induction false} StaysInStep(k: Desk, evs: seq<Event>, rid: Rid)
    requires k.hands == map[] && k.felt == [] && Timely(k, rid, evs)
    ensures InStep(AllHappened(k, rid, evs), Presses(evs), rid)
  {
    if evs != [] {
      var init, last := evs[..|evs| - 1], evs[|evs| - 1];
      StaysInStep(k, init, rid);
      if last.Pressing? {
        PressInStep(AllHappened(k, rid, init), Presses(init), last.press, rid);
        hide InStep, Happened;
      } else {
        hide OddlyToggled, Pressed, Edited;
      }
    }
  }

  /** While no save stems from a load older than the last toggle, the set is the strictly ascending list of
      exactly the options toggled an odd number of times. */
  lemma TimelyParity(d: Disk, evs: seq<Event>, rid: Rid)
    requires MultiAsk(d, rid) && d.recs[rid].selectedIdxs == []
    requires Unanswered(AllHappened(Fresh(d), rid, evs).disk, rid) && Timely(Fresh(d), rid, evs)
    ensures var k := AllHappened(Fresh(d), rid, evs);
      rid in k.disk.recs && Shows(k.disk.recs[rid], Presses(evs), rid)
  {
    ParityIff(d, evs, rid);
    StaysInStep(Fresh(d), evs, rid);
    hide AllHappened, OddlyToggled, Presses, InRange, StrictlyAscending, Timely, Shows;
  }

  lemma OnePress(a: Event, b: Event, c: Event)
    requires a.Loads? && b.Pressing? && c.Saves?
    ensures Presses([a, b, c]) == [b.press]
  {
    assert [a, b, c][..2] == [a, b] && [a, b][..1] == [a] && [a][..0] == [];
    assert Presses([a]) == [];
    assert Presses([a, b]) == [] + [b.press];
  }

  lemma ThreeHappen(k: Desk, rid: Rid, a: Event, b: Event, c: Event)
    ensures AllHappened(k, rid, [a, b]) == Happened(Happened(k, rid, a), rid, b)
    ensures AllHappened(k, rid, [a, b, c]) == Happened(Happened(Happened(k, rid, a), rid, b), rid, c)
    ensures Timely(k, rid, [a, b, c]) && c.Saves? ==>
              var before := AllHappened(k, rid, [a, b]);
              c.hand in before.hands ==> before.hands[c.hand].toggles == before.toggles
  {
    hide Happened;
    assert [a, b, c][..2] == [a, b] && [a, b][..1] == [a] && [a][..0] == [];
    assert AllHappened(k, rid, [a]) == Happened(k, rid, a);
    assert AllHappened(k, rid, [a, b]) == Happened(AllHappened(k, rid, [a]), rid, b);
  }

  lemma PressedOnce(p: Press, rid: Rid, i: int)
    requires IsToggle(p, rid, i)
    ensures OddlyToggled([p], rid, i)
  {
    hide IsToggle;
    MorePressed([], p, rid, i);
    assert [] + [p] == [p];
  }

  /** Loaded before a press and saved after it, a record takes the set back to what it was. */
  lemma SavedOver(d: Disk, rid: Rid, edit: Edit, p: Press)
    requires rid in d.recs && d.recs[rid].selectedIdxs == [] && edit.AttachPager? && TogglesCard(p, rid)
    ensures var k := Happened(Happened(Fresh(d), rid, Loads(0, edit)), rid, Pressing(p));
      && 0 in k.hands && k.hands[0].toggles == 0 && k.toggles == 1
      && var end := Happened(k, rid, Saves(0)); rid in end.disk.recs && end.disk.recs[rid].selectedIdxs == []
  {
    hide TogglesCard, Pressed;
  }

  /** The shortest loss: loaded before a toggle and saved after it, an attached pager undoes the toggle. */
  lemma ToggleCanBeLost(d: Disk, rid: Rid, i: int, chat: string, msg: int)
    requires MultiAsk(d, rid) && d.recs[rid].selectedIdxs == [] && Unanswered(d, rid) && PlainRid(rid)
    requires InRange(d.recs[rid].petition.options, i) && i <= MAX64
    ensures var evs := [Loads(0, AttachPager(chat, msg)), Pressing(Press(AskData(rid, "t:", i), "op")), Saves(0)];
      var k := AllHappened(Fresh(d), rid, evs);
      !Timely(Fresh(d), rid, evs) && rid in k.disk.recs && k.disk.recs[rid].selectedIdxs == []
      && !Shows(k.disk.recs[rid], Presses(evs), rid)
  {
    var p := Press(AskData(rid, "t:", i), "op");
    AskDataParses(rid, i);
    hide SplitVerdict, AskData, PlainRid;
    assert IsToggle(p, rid, i) && TogglesCard(p, rid);
    hide IsToggle, TogglesCard;
    PressedOnce(p, rid, i);
    SavedOver(d, rid, AttachPager(chat, msg), p);
    OnePress(Loads(0, AttachPager(chat, msg)), Pressing(p), Saves(0));
    ThreeHappen(Fresh(d), rid, Loads(0, AttachPager(chat, msg)), Pressing(p), Saves(0));
    hide Happened, AllHappened, Presses, Timely, OddlyToggled, StrictlyAscending;
  }
}
