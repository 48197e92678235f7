/** The edit engine for a user's value history, and its applied plan as a replay log. */
module ValueHistory {
  import opened Wrappers
  import Text

  // ---------------------------------------------------------------- data

  datatype Entry = Entry(text: string, createdAt: Option<string>)

  /** Stored JSON; texts are what `str(value or "")` gives. */
  datatype RawItem = Dict(text: string, createdAt: string) | Plain(text: string) | Junk
  datatype RawHistory = List(items: seq<RawItem>) | NotAList

  datatype RawIndex = Number(value: int) | Digits(text: string) | NoIndex
  datatype Op = Remove | Replace | Append | UnknownOp
  datatype RawEdit = Edit(op: Op, index: RawIndex, text: string) | NotADict

  /** Any other action is treated as apply. */
  datatype RawAction = ApplyIt | ClearIt | LeaveIt | OtherAction
  datatype Plan = Plan(action: RawAction, edits: seq<RawEdit>)

  datatype AppliedEdit = Removed(index: nat) | Replaced(index: nat, text: string) | Appended(text: string)
  datatype AppliedAction = Applied | Cleared | Untouched | AppendedFallback
  datatype AppliedPlan = AppliedPlan(action: AppliedAction, edits: seq<AppliedEdit>)

  // ---------------------------------------------------------------- normalizing

  function NormalizeItem(r: RawItem): Option<Entry> {
    match r
    case Dict(rawText, rawCreated) =>
      var text, created := Text.Strip(rawText), Text.Strip(rawCreated);
      if text == "" then None else Some(Entry(text, if created == "" then None else Some(created)))
    case Plain(rawText) =>
      var text := Text.Strip(rawText);
      if text == "" then None else Some(Entry(text, None))
    case Junk => None
  }

  function NormalizeItems(items: seq<RawItem>): seq<Entry> {
    if items == [] then []
    else
      var e := NormalizeItem(items[|items| - 1]);
      NormalizeItems(items[..|items| - 1]) + if e.Some? then [e.value] else []
  }

  function NormalizeHistory(raw: RawHistory): seq<Entry> {
    if raw.List? then NormalizeItems(raw.items) else []
  }

  method NormalizeLoop(raw: RawHistory) returns (out: seq<Entry>)
    ensures out == NormalizeHistory(raw)
  {
    out := [];
    if raw.NotAList? {
      return;
    }
    for i := 0 to |raw.items|
      invariant out == NormalizeItems(raw.items[..i])
    {
      assert raw.items[..i + 1][..i] == raw.items[..i] && raw.items[..i + 1][i] == raw.items[i];
      var e := NormalizeItem(raw.items[i]);
      if e.Some? {
        out := out + [e.value];
      }
    }
    assert raw.items[..|raw.items|] == raw.items;
  }

  /** An entry as it is stored again. */
  function Store(e: Entry): RawItem {
    Dict(e.text, if e.createdAt.Some? then e.createdAt.value else "")
  }

  function StoreAll(es: seq<Entry>): (r: seq<RawItem>)
    ensures |r| == |es| && forall i :: 0 <= i < |es| ==> r[i] == Store(es[i])
  {
    seq(|es|, i requires 0 <= i < |es| => Store(es[i]))
  }

  predicate Normal(e: Entry) {
    && e.text != "" && Text.IsTrimmed(e.text)
    && (e.createdAt.Some? ==> e.createdAt.value != "" && Text.IsTrimmed(e.createdAt.value))
  }

  lemma NormalizeItemFixes(e: Entry)
    requires e.text != "" && Text.IsTrimmed(e.text) && (e.createdAt.Some? ==> Text.IsTrimmed(e.createdAt.value))
    ensures NormalizeItem(Store(e)).Some? && (NormalizeItem(Store(e)) == Some(e) <==> Normal(e))
  {
    Text.StripFixpoint(e.text);
    if e.createdAt.Some? {
      Text.StripFixpoint(e.createdAt.value);
    } else {
      Text.StripFixpoint("");
    }
  }

  lemma {:induction false} NormalizeGivesNormal(items: seq<RawItem>)
    ensures forall e <- NormalizeItems(items) :: Normal(e)
  {
    if items != [] {
      NormalizeGivesNormal(items[..|items| - 1]);
    }
  }

  /** The text and the creation time an item comes with, as stored. */
  function ItemText(r: RawItem): string {
    if r.Junk? then "" else r.text
  }

  function ItemCreatedAt(r: RawItem): string {
    if r.Dict? then r.createdAt else ""
  }

  predicate HasVisibleText(r: RawItem) {
    Text.Strip(ItemText(r)) != ""
  }

  function Visibility(items: seq<RawItem>): (r: seq<bool>)
    ensures |r| == |items| && forall i :: 0 <= i < |items| ==> r[i] == HasVisibleText(items[i])
  {
    seq(|items|, i requires 0 <= i < |items| => HasVisibleText(items[i]))
  }

  /** The positions of the chosen elements, in order. */
  ghost predicate Selects(chosen: seq<bool>, from: seq<nat>) {
    && (forall i :: i in from <==> 0 <= i < |chosen| && chosen[i])
    && (forall p, q :: 0 <= p < q < |from| ==> from[p] < from[q])
  }

  lemma SelectsSnoc(chosen: seq<bool>, from: seq<nat>, more: bool)
    requires Selects(chosen, from)
    ensures Selects(chosen + [more], from + if more then [|chosen|] else [])
  {
    assert forall k :: 0 <= k < |from| ==> from[k] in from;
  }

  /** The items with a visible text, dictionaries and plain texts alike, in order. */
  ghost predicate VisibleItems(items: seq<RawItem>, from: seq<nat>) {
    Selects(Visibility(items), from)
  }

  /** The entry holds the trimmed text and, if it is visible, the trimmed creation time of the item. */
  ghost predicate EntryOf(e: Entry, r: RawItem) {
    && e.text == Text.Strip(ItemText(r))
    && (e.createdAt.None? <==> Text.Strip(ItemCreatedAt(r)) == "")
    && (e.createdAt.Some? ==> e.createdAt.value == Text.Strip(ItemCreatedAt(r)))
  }

  lemma NormalizeItemIff(r: RawItem)
    ensures NormalizeItem(r).Some? <==> HasVisibleText(r)
    ensures NormalizeItem(r).Some? ==> EntryOf(NormalizeItem(r).value, r)
  {
    Text.StripFixpoint("");
  }

  lemma VisibleItemsSnoc(items: seq<RawItem>, init: seq<nat>, r: RawItem)
    requires VisibleItems(items, init)
    ensures VisibleItems(items + [r], init + if HasVisibleText(r) then [|items|] else [])
  {
    SelectsSnoc(Visibility(items), init, HasVisibleText(r));
    assert Visibility(items + [r]) == Visibility(items) + [HasVisibleText(r)];
  }

  ghost predicate EntriesOf(es: seq<Entry>, items: seq<RawItem>, from: seq<nat>) {
    && VisibleItems(items, from) && |es| == |from|
    && forall k :: 0 <= k < |from| ==> from[k] < |items| && EntryOf(es[k], items[from[k]])
  }

  lemma EntriesOfSnoc(es: seq<Entry>, items: seq<RawItem>, from: seq<nat>, r: RawItem, e: Option<Entry>)
    requires EntriesOf(es, items, from)
    requires (e.Some? <==> HasVisibleText(r)) && (e.Some? ==> EntryOf(e.value, r))
    ensures EntriesOf(es + if e.Some? then [e.value] else [], items + [r],
                      from + if HasVisibleText(r) then [|items|] else [])
  {
    VisibleItemsSnoc(items, from, r);
  }

  lemma NormalizeSnoc(items: seq<RawItem>, init: seq<RawItem>, r: RawItem, before: seq<nat>) returns (from: seq<nat>)
    requires items == init + [r] && EntriesOf(NormalizeItems(init), init, before)
    ensures EntriesOf(NormalizeItems(items), items, from)
  {
    NormalizeItemIff(r);
    EntriesOfSnoc(NormalizeItems(init), init, before, r, NormalizeItem(r));
    assert items[..|items| - 1] == init;
    from := before + if HasVisibleText(r) then [|init|] else [];
  }

  lemma NoEntries(items: seq<RawItem>)
    requires items == []
    ensures EntriesOf(NormalizeItems(items), items, [])
  {
  }

  /** Normalizing gives one entry for every item with a visible text, in order, and nothing else. */
  lemma {:induction false} NormalizeKeepsVisible(items: seq<RawItem>) returns (from: seq<nat>)
    ensures EntriesOf(NormalizeItems(items), items, from)
  {
    if items == [] {
      NoEntries(items);
      from := [];
    } else {
      var before := NormalizeKeepsVisible(items[..|items| - 1]);
      from := NormalizeSnoc(items, items[..|items| - 1], items[|items| - 1], before);
    }
  }

  ghost predicate AllTrimmed(es: seq<Entry>) {
    forall e <- es ::
      e.text != "" && Text.IsTrimmed(e.text) && (e.createdAt.Some? ==> Text.IsTrimmed(e.createdAt.value))
  }

  /** Normalizing a list of trimmed entries changes it exactly where a creation time is the empty text. */
  lemma {:induction false} NormalizeFixesIff(es: seq<Entry>)
    requires AllTrimmed(es)
    ensures |NormalizeItems(StoreAll(es))| == |es|
    ensures NormalizeItems(StoreAll(es)) == es <==> forall e <- es :: Normal(e)
  {
    if es != [] {
      var init, e := es[..|es| - 1], es[|es| - 1];
      assert StoreAll(es)[..|es| - 1] == StoreAll(init);
      assert es == init + [e];
      NormalizeFixesIff(init);
      NormalizeItemFixes(e);
      var again := NormalizeItem(Store(e)).value;
      assert NormalizeItems(StoreAll(es)) == NormalizeItems(StoreAll(init)) + [again];
      LastDiffers(NormalizeItems(StoreAll(init)), init, again, e);
    }
  }

  lemma LastDiffers(a: seq<Entry>, b: seq<Entry>, x: Entry, y: Entry)
    requires |a| == |b|
    ensures a + [x] == b + [y] <==> a == b && x == y
  {
    if a + [x] == b + [y] {
      assert (a + [x])[..|a|] == a && (b + [y])[..|b|] == b;
    }
  }

  // ---------------------------------------------------------------- reading edits

  predicate IsDigit(c: char) {
    '0' <= c <= '9'
  }

  function ParseNat(s: string): nat
    requires forall c <- s :: IsDigit(c)
  {
    if s == "" then 0
    else
      assert IsDigit(s[|s| - 1]) && forall c <- s[..|s| - 1] :: c in s;
      10 * ParseNat(s[..|s| - 1]) + (s[|s| - 1] as int - '0' as int)
  }

  function CoerceIndex(r: RawIndex): Option<nat> {
    match r
    case Number(v) => if v >= 0 then Some(v) else None
    case Digits(s) => if s != "" && forall c <- s :: IsDigit(c) then Some(ParseNat(s)) else None
    case NoIndex => None
  }

  function DigitChar(d: nat): (c: char)
    requires d < 10
    ensures IsDigit(c) && c as int - '0' as int == d
  {
    ('0' as int + d) as char
  }

  function Decimal(n: nat): (s: string)
    ensures s != "" && forall c <- s :: IsDigit(c)
  {
    (if n < 10 then "" else Decimal(n / 10)) + [DigitChar(n % 10)]
  }

  lemma ParsePush(s: string, c: char)
    requires (forall d <- s :: IsDigit(d)) && IsDigit(c)
    ensures forall d <- s + [c] :: IsDigit(d)
    ensures ParseNat(s + [c]) == 10 * ParseNat(s) + (c as int - '0' as int)
  {
    assert (s + [c])[..|s|] == s;
  }

  lemma {:induction false} DecimalParses(n: nat)
    ensures ParseNat(Decimal(n)) == n
  {
    if n >= 10 {
      DecimalParses(n / 10);
    }
    ParsePush(if n < 10 then "" else Decimal(n / 10), DigitChar(n % 10));
  }

  /** A number and its decimal text name the same index; negative numbers and texts other than digits name none. */
  lemma IndexOfDecimal(n: int, s: string)
    ensures CoerceIndex(Digits(s)).Some? <==> s != "" && forall c <- s :: '0' <= c <= '9'
    ensures CoerceIndex(NoIndex) == None
    ensures n >= 0 ==> CoerceIndex(Number(n)) == CoerceIndex(Digits(Decimal(n))) == Some(n)
    ensures n < 0 ==> CoerceIndex(Number(n)) == None
  {
    if n >= 0 {
      DecimalParses(n);
    }
  }

  /** The index an edit asks to remove from a list of n entries. */
  function RemoveIndex(e: RawEdit, n: nat): Option<nat> {
    if e.Edit? && e.op.Remove? && CoerceIndex(e.index).Some? && CoerceIndex(e.index).value < n
    then CoerceIndex(e.index) else None
  }

  function ReplaceIndex(e: RawEdit, n: nat): Option<nat> {
    if e.Edit? && e.op.Replace? && CoerceIndex(e.index).Some? && CoerceIndex(e.index).value < n &&
       Text.Strip(e.text) != ""
    then CoerceIndex(e.index) else None
  }

  function AppendText(e: RawEdit): Option<string> {
    if e.Edit? && e.op.Append? && Text.Strip(e.text) != "" then Some(Text.Strip(e.text)) else None
  }

  // ---------------------------------------------------------------- the engine, pass by pass

  datatype Pass = Pass(updated: seq<Entry>, removed: set<nat>, applied: seq<AppliedEdit>)

  function WithText(e: Entry, text: string): Entry {
    Entry(text, if e.createdAt.Some? && e.createdAt.value != "" then e.createdAt else None)
  }

  function PassStep(p: Pass, e: RawEdit): Pass {
    var n := |p.updated|;
    if RemoveIndex(e, n).Some? then
      var i := RemoveIndex(e, n).value;
      p.(removed := p.removed + {i}, applied := p.applied + [Removed(i)])
    else if ReplaceIndex(e, n).Some? && ReplaceIndex(e, n).value !in p.removed then
      var i, text := ReplaceIndex(e, n).value, Text.Strip(e.text);
      p.(updated := p.updated[i := WithText(p.updated[i], text)], applied := p.applied + [Replaced(i, text)])
    else p
  }

  function FirstPass(items: seq<Entry>, edits: seq<RawEdit>): (p: Pass)
    ensures |p.updated| == |items|
  {
    if edits == [] then Pass(items, {}, [])
    else PassStep(FirstPass(items, edits[..|edits| - 1]), edits[|edits| - 1])
  }

  function Keep(es: seq<Entry>, removed: set<nat>): seq<Entry> {
    if es == [] then []
    else
      var i := |es| - 1;
      Keep(es[..i], removed) + if i in removed then [] else [es[i]]
  }

  /** The texts the edits append, in order. */
  function AppendTexts(edits: seq<RawEdit>): seq<string> {
    if edits == [] then []
    else
      var t := AppendText(edits[|edits| - 1]);
      AppendTexts(edits[..|edits| - 1]) + if t.Some? then [t.value] else []
  }

  function NewEntry(text: string, createdAt: string): Entry {
    Entry(text, if createdAt != "" then Some(Text.Strip(createdAt)) else None)
  }

  function NewEntries(texts: seq<string>, createdAt: string): (r: seq<Entry>)
    ensures |r| == |texts| && forall i :: 0 <= i < |texts| ==> r[i] == NewEntry(texts[i], createdAt)
  {
    seq(|texts|, i requires 0 <= i < |texts| => NewEntry(texts[i], createdAt))
  }

  function AppendLog(texts: seq<string>): (r: seq<AppliedEdit>)
    ensures |r| == |texts| && forall i :: 0 <= i < |texts| ==> r[i] == Appended(texts[i])
  {
    seq(|texts|, i requires 0 <= i < |texts| => Appended(texts[i]))
  }

  function AppendHistory(items: seq<Entry>, text: string, createdAt: string): seq<Entry> {
    if Text.Strip(text) == "" then items else items + [NewEntry(Text.Strip(text), createdAt)]
  }

  /** The second half of the engine: filter, append, or fall back. */
  function Finish(items: seq<Entry>, p: Pass, texts: seq<string>, fallback: string, createdAt: string)
    : (seq<Entry>, AppliedPlan)
  {
    var applied := p.applied + AppendLog(texts);
    if applied == [] && fallback != "" then
      (AppendHistory(items, fallback, createdAt), AppliedPlan(AppendedFallback, [Appended(Text.Strip(fallback))]))
    else
      (Keep(p.updated, p.removed) + NewEntries(texts, createdAt), AppliedPlan(Applied, applied))
  }

  function EditItems(items: seq<Entry>, plan: Plan, fallback: string, createdAt: string): (seq<Entry>, AppliedPlan) {
    match plan.action
    case ClearIt => ([], AppliedPlan(Cleared, []))
    case LeaveIt => (items, AppliedPlan(Untouched, []))
    case _ => Finish(items, FirstPass(items, plan.edits), AppendTexts(plan.edits), fallback, createdAt)
  }

  /** The engine as a function; `fallback` and `createdAt` are empty when absent. */
  function EditHistory(history: RawHistory, plan: Plan, fallback: string, createdAt: string)
    : (seq<Entry>, AppliedPlan)
  {
    EditItems(NormalizeHistory(history), plan, fallback, createdAt)
  }

  method ApplyValueHistoryEdits(history: RawHistory, plan: Plan, fallback: string, createdAt: string)
    returns (updatedHistory: seq<Entry>, appliedPlan: AppliedPlan)
    ensures (updatedHistory, appliedPlan) == EditHistory(history, plan, fallback, createdAt)
    ensures plan.action.ClearIt? ==> updatedHistory == []
    ensures !plan.action.ClearIt? ==>
              exists kept ::
                EditSpec(NormalizeHistory(history), Replacing(plan),
                         Additions(plan, |NormalizeHistory(history)|, fallback), createdAt, updatedHistory, kept)
  {
    ghost var kept := EditsRefineSpec(history, plan, fallback, createdAt);
    var items := NormalizeLoop(history);
    if plan.action.ClearIt? {
      return [], AppliedPlan(Cleared, []);
    }
    if plan.action.LeaveIt? {
      return items, AppliedPlan(Untouched, []);
    }
    var updated, removedIndices, appliedEdits := FirstLoop(items, plan.edits);
    var filtered := KeepLoop(updated, removedIndices);
    var texts := AppendLoop(plan.edits);
    filtered := filtered + NewEntries(texts, createdAt);
    appliedEdits := appliedEdits + AppendLog(texts);
    if appliedEdits == [] && fallback != "" {
      return AppendHistory(items, fallback, createdAt),
             AppliedPlan(AppendedFallback, [Appended(Text.Strip(fallback))]);
    }
    return filtered, AppliedPlan(Applied, appliedEdits);
  }

  method KeepLoop(updated: seq<Entry>, removedIndices: set<nat>) returns (filtered: seq<Entry>)
    ensures filtered == Keep(updated, removedIndices)
  {
    filtered := [];
    for idx := 0 to |updated|
      invariant filtered == Keep(updated[..idx], removedIndices)
    {
      assert updated[..idx + 1][..idx] == updated[..idx];
      if idx !in removedIndices {
        filtered := filtered + [updated[idx]];
      }
    }
    assert updated[..|updated|] == updated;
  }

  method AppendLoop(edits: seq<RawEdit>) returns (texts: seq<string>)
    ensures texts == AppendTexts(edits)
  {
    texts := [];
    for k := 0 to |edits|
      invariant texts == AppendTexts(edits[..k])
    {
      assert edits[..k + 1][..k] == edits[..k];
      var text := AppendText(edits[k]);
      if text.Some? {
        texts := texts + [text.value];
      }
    }
    assert edits[..|edits|] == edits;
  }

  method FirstLoop(items: seq<Entry>, edits: seq<RawEdit>)
    returns (updated: seq<Entry>, removedIndices: set<nat>, appliedEdits: seq<AppliedEdit>)
    ensures Pass(updated, removedIndices, appliedEdits) == FirstPass(items, edits)
  {
    updated, removedIndices, appliedEdits := items, {}, [];
    for k := 0 to |edits|
      invariant Pass(updated, removedIndices, appliedEdits) == FirstPass(items, edits[..k])
    {
      assert edits[..k + 1][..k] == edits[..k];
      var remove, replace := RemoveIndex(edits[k], |updated|), ReplaceIndex(edits[k], |updated|);
      if remove.Some? {
        removedIndices := removedIndices + {remove.value};
        appliedEdits := appliedEdits + [Removed(remove.value)];
      } else if replace.Some? && replace.value !in removedIndices {
        var text := Text.Strip(edits[k].text);
        updated := updated[replace.value := WithText(updated[replace.value], text)];
        appliedEdits := appliedEdits + [Replaced(replace.value, text)];
      }
    }
    assert edits[..|edits|] == edits;
  }

  // ---------------------------------------------------------------- what the engine computes

  /** The edit is a removal, or a replacement, of index i of n entries. */
  predicate Targets(e: RawEdit, op: Op, n: nat, i: nat) {
    e.Edit? && e.op == op && i < n && CoerceIndex(e.index) == Some(i)
  }

  predicate HasText(e: RawEdit) {
    e.Edit? && Text.Strip(e.text) != ""
  }

  /** Some edit removes index i. */
  ghost predicate IsRemoved(edits: seq<RawEdit>, n: nat, i: nat) {
    exists k :: 0 <= k < |edits| && Targets(edits[k], Remove, n, i)
  }

  /** The text of the last edit that replaces index i, whatever else the edits do. */
  function LastText(edits: seq<RawEdit>, n: nat, i: nat): Option<string> {
    if edits == [] then None
    else
      var e := edits[|edits| - 1];
      if Targets(e, Replace, n, i) && HasText(e) then Some(Text.Strip(e.text))
      else LastText(edits[..|edits| - 1], n, i)
  }

  function AppendedText(e: RawEdit): seq<string> {
    if HasText(e) && e.op.Append? then [Text.Strip(e.text)] else []
  }

  /** The visible texts of the append edits, trimmed and in order. */
  function AppendedTexts(edits: seq<RawEdit>): seq<string> {
    if edits == [] then [] else AppendedText(edits[0]) + AppendedTexts(edits[1..])
  }

  /** The edit can be carried out on n entries. */
  ghost predicate Acceptable(e: RawEdit, n: nat) {
    || (exists i :: Targets(e, Remove, n, i))
    || (HasText(e) && exists i :: Targets(e, Replace, n, i))
    || (HasText(e) && e.op.Append?)
  }

  ghost predicate NoneAcceptable(edits: seq<RawEdit>, n: nat) {
    forall k :: 0 <= k < |edits| ==> !Acceptable(edits[k], n)
  }

  /** What a plan appends: nothing if it leaves the history alone, the fallback if no edit can be carried out. */
  ghost function Additions(plan: Plan, n: nat, fallback: string): seq<string> {
    if plan.action.ClearIt? || plan.action.LeaveIt? then []
    else if NoneAcceptable(plan.edits, n) && Text.Strip(fallback) != "" then [Text.Strip(fallback)]
    else AppendedTexts(plan.edits)
  }

  lemma RemoveTargets(e: RawEdit, n: nat, i: nat)
    ensures RemoveIndex(e, n) == Some(i) <==> Targets(e, Remove, n, i)
    ensures ReplaceIndex(e, n) == Some(i) <==> Targets(e, Replace, n, i) && HasText(e)
  {
  }

  /** The original entry with its last replacement text and its own creation time. */
  function Final(items: seq<Entry>, edits: seq<RawEdit>, i: nat): Entry
    requires i < |items|
  {
    var t := LastText(edits, |items|, i);
    if t.Some? then Entry(t.value, items[i].createdAt) else items[i]
  }

  lemma IsRemovedSnoc(edits: seq<RawEdit>, n: nat, i: nat)
    requires edits != []
    ensures var last := |edits| - 1;
            IsRemoved(edits, n, i) <==> IsRemoved(edits[..last], n, i) || Targets(edits[last], Remove, n, i)
  {
    var init := edits[..|edits| - 1];
    if IsRemoved(edits, n, i) {
      var k :| 0 <= k < |edits| && Targets(edits[k], Remove, n, i);
      assert k < |init| ==> init[k] == edits[k];
    }
    if IsRemoved(init, n, i) {
      var k :| 0 <= k < |init| && Targets(init[k], Remove, n, i);
      assert edits[k] == init[k];
    }
  }

  lemma {:induction false} FirstPassRemoves(items: seq<Entry>, edits: seq<RawEdit>, i: nat)
    ensures i in FirstPass(items, edits).removed <==> IsRemoved(edits, |items|, i)
  {
    if edits != [] {
      var init, e := edits[..|edits| - 1], edits[|edits| - 1];
      FirstPassRemoves(items, init, i);
      RemoveTargets(e, |items|, i);
      IsRemovedSnoc(edits, |items|, i);
    }
  }

  lemma {:induction false} FirstPassReplaces(items: seq<Entry>, edits: seq<RawEdit>, i: nat)
    requires i < |items| && Normal(items[i])
    ensures i !in FirstPass(items, edits).removed ==>
              && FirstPass(items, edits).updated[i] == Final(items, edits, i)
              && Final(items, edits, i).createdAt == items[i].createdAt
  {
    if edits != [] {
      FirstPassReplaces(items, edits[..|edits| - 1], i);
    }
  }

  /** The indices below n that no edit removes, in increasing order. */
  function Survivors(n: nat, removed: set<nat>): seq<nat> {
    if n == 0 then []
    else Survivors(n - 1, removed) + if n - 1 in removed then [] else [n - 1]
  }

  lemma {:induction false} SurvivorsIncrease(n: nat, removed: set<nat>)
    ensures var s := Survivors(n, removed);
            && (forall i :: i in s <==> 0 <= i < n && i !in removed)
            && (forall p, q :: 0 <= p < q < |s| ==> s[p] < s[q])
  {
    if n > 0 {
      SurvivorsIncrease(n - 1, removed);
      var prev := Survivors(n - 1, removed);
      assert forall p :: 0 <= p < |prev| ==> prev[p] in prev;
    }
  }

  lemma {:induction false} SurvivorsCount(n: nat, removed: set<nat>)
    ensures |Survivors(n, removed)| == n - |set i | i in removed && i < n|
  {
    if n == 0 {
      assert (set i | i in removed && i < n) == {};
    } else {
      SurvivorsCount(n - 1, removed);
      var before, after := set i | i in removed && i < n - 1, set i | i in removed && i < n;
      assert after == before + if n - 1 in removed then {n - 1} else {};
    }
  }

  lemma {:induction false} KeepIsSurvivors(es: seq<Entry>, removed: set<nat>)
    ensures var s := Survivors(|es|, removed);
            && |Keep(es, removed)| == |s|
            && forall p :: 0 <= p < |s| ==> s[p] < |es| && Keep(es, removed)[p] == es[s[p]]
  {
    if es != [] {
      var n := |es| - 1;
      KeepIsSurvivors(es[..n], removed);
      var s, prev := Survivors(n + 1, removed), Survivors(n, removed);
      forall p | 0 <= p < |s| ensures s[p] < |es| && Keep(es, removed)[p] == es[s[p]] {
        if p < |prev| {
          assert s[p] == prev[p] && Keep(es, removed)[p] == Keep(es[..n], removed)[p];
        }
      }
    }
  }

  /** The texts appended: those of the append edits, or the fallback when no edit was accepted. */
  function FinalTexts(p: Pass, texts: seq<string>, fallback: string): seq<string> {
    if p.applied == [] && texts == [] && Text.Strip(fallback) != "" then [Text.Strip(fallback)] else texts
  }

  function AllAppends(history: RawHistory, plan: Plan, fallback: string): seq<string> {
    if plan.action.ClearIt? || plan.action.LeaveIt? then []
    else FinalTexts(FirstPass(NormalizeHistory(history), plan.edits), AppendTexts(plan.edits), fallback)
  }

  function Replacing(plan: Plan): seq<RawEdit> {
    if plan.action.LeaveIt? then [] else plan.edits
  }

  lemma NothingAppliedKeepsAll(items: seq<Entry>, edits: seq<RawEdit>)
    requires FirstPass(items, edits).applied == []
    ensures FirstPass(items, edits) == Pass(items, {}, [])
  {
    if edits != [] {
      NothingAppliedKeepsAll(items, edits[..|edits| - 1]);
    }
  }

  /** The surviving original indices in order, each with the text of its last replacement and its own creation time. */
  ghost predicate KeptSpec(items: seq<Entry>, edits: seq<RawEdit>, entries: seq<Entry>, kept: seq<nat>) {
    && (forall i :: i in kept <==> 0 <= i < |items| && !IsRemoved(edits, |items|, i))
    && (forall p, q :: 0 <= p < q < |kept| ==> kept[p] < kept[q])
    && |entries| == |kept|
    && (forall k :: 0 <= k < |kept| ==>
          && kept[k] < |items|
          && entries[k] == Final(items, edits, kept[k])
          && entries[k].createdAt == items[kept[k]].createdAt)
  }

  lemma PassRefinesSpec(items: seq<Entry>, edits: seq<RawEdit>) returns (kept: seq<nat>)
    requires forall e <- items :: Normal(e)
    ensures var p := FirstPass(items, edits); KeptSpec(items, edits, Keep(p.updated, p.removed), kept)
  {
    var p := FirstPass(items, edits);
    kept := Survivors(|items|, p.removed);
    SurvivorsIncrease(|items|, p.removed);
    forall i: nat ensures i in p.removed <==> IsRemoved(edits, |items|, i) {
      FirstPassRemoves(items, edits, i);
    }
    KeepIsSurvivors(p.updated, p.removed);
    forall k | 0 <= k < |kept|
      ensures kept[k] < |items| && Keep(p.updated, p.removed)[k] == Final(items, edits, kept[k])
      ensures Final(items, edits, kept[k]).createdAt == items[kept[k]].createdAt
    {
      assert kept[k] in kept && items[kept[k]] in items;
      FirstPassReplaces(items, edits, kept[k]);
    }
  }

  lemma FallbackIsAppend(items: seq<Entry>, text: string, createdAt: string)
    ensures AppendHistory(items, text, createdAt) ==
            items + NewEntries(if Text.Strip(text) == "" then [] else [Text.Strip(text)], createdAt)
  {
    var t := Text.Strip(text);
    assert NewEntries([], createdAt) == [];
    assert NewEntries([t], createdAt) == [NewEntry(t, createdAt)];
    assert items + [] == items;
  }

  /** No edit accepted: the fallback, if it is visible, is the only change. */
  lemma FallbackOnly(items: seq<Entry>, fallback: string, createdAt: string)
    ensures var p := Pass(items, {}, []);
            Finish(items, p, [], fallback, createdAt).0 == items + NewEntries(FinalTexts(p, [], fallback), createdAt)
  {
    KeepNothingRemoved(items);
    assert [] + AppendLog([]) == [];
    FallbackIsAppend(items, fallback, createdAt);
    if fallback == "" {
      Text.StripFixpoint(fallback);
    }
  }

  lemma FinishIsKeptThenAppended(items: seq<Entry>, p: Pass, texts: seq<string>, fallback: string, createdAt: string)
    requires p.applied == [] ==> p == Pass(items, {}, [])
    ensures Finish(items, p, texts, fallback, createdAt).0
            == Keep(p.updated, p.removed) + NewEntries(FinalTexts(p, texts, fallback), createdAt)
  {
    if p.applied == [] && texts == [] {
      KeepNothingRemoved(items);
      FallbackOnly(items, fallback, createdAt);
    } else {
      assert |p.applied + AppendLog(texts)| > 0;
    }
  }

  /** A call's result: the entries kept, then the appended ones - the fallback included. */
  lemma ResultIsKeptThenAppended(history: RawHistory, plan: Plan, fallback: string, createdAt: string)
    requires !plan.action.ClearIt?
    ensures var items := NormalizeHistory(history);
            var p := FirstPass(items, Replacing(plan));
            EditHistory(history, plan, fallback, createdAt).0
              == Keep(p.updated, p.removed) + NewEntries(AllAppends(history, plan, fallback), createdAt)
  {
    var items := NormalizeHistory(history);
    var p := FirstPass(items, Replacing(plan));
    if plan.action.LeaveIt? {
      KeepNothingRemoved(items);
      assert items + NewEntries([], createdAt) == items;
    } else {
      if p.applied == [] {
        NothingAppliedKeepsAll(items, plan.edits);
      }
      FinishIsKeptThenAppended(items, p, AppendTexts(plan.edits), fallback, createdAt);
    }
  }

  /** A new entry has the given text and, if there is one, the trimmed creation time of the call. */
  ghost predicate Added(e: Entry, text: string, createdAt: string) {
    && e.text == text
    && (e.createdAt.None? <==> createdAt == "")
    && (e.createdAt.Some? ==> e.createdAt.value == Text.Strip(createdAt))
  }

  /** The one-line specification of an edit: the kept entries, then the appended texts in order. */
  ghost predicate EditSpec(items: seq<Entry>, edits: seq<RawEdit>, texts: seq<string>, createdAt: string,
                           updated: seq<Entry>, kept: seq<nat>)
  {
    && |updated| == |kept| + |texts|
    && KeptSpec(items, edits, updated[..|kept|], kept)
    && (forall q :: 0 <= q < |texts| ==> Added(updated[|kept| + q], texts[q], createdAt))
  }

  lemma AppendedMeetsSpec(items: seq<Entry>, edits: seq<RawEdit>, texts: seq<string>, createdAt: string,
                          entries: seq<Entry>, kept: seq<nat>)
    requires KeptSpec(items, edits, entries, kept)
    ensures EditSpec(items, edits, texts, createdAt, entries + NewEntries(texts, createdAt), kept)
  {
    assert (entries + NewEntries(texts, createdAt))[..|kept|] == entries;
  }

  lemma {:induction false} AppendedTextsConcat(a: seq<RawEdit>, b: seq<RawEdit>)
    ensures AppendedTexts(a + b) == AppendedTexts(a) + AppendedTexts(b)
  {
    if a == [] {
      assert a + b == b;
    } else {
      assert (a + b)[1..] == a[1..] + b && (a + b)[0] == a[0];
      AppendedTextsConcat(a[1..], b);
    }
  }

  lemma AppendedTextsOfOne(e: RawEdit)
    ensures AppendedTexts([e]) == AppendedText(e)
  {
    assert AppendedTexts([e][1..]) == [];
  }

  lemma AppendTextIsAppended(e: RawEdit)
    ensures AppendedText(e) == if AppendText(e).Some? then [AppendText(e).value] else []
  {
  }

  lemma AppendTextsSnoc(edits: seq<RawEdit>, e: RawEdit)
    requires AppendTexts(edits) == AppendedTexts(edits)
    ensures AppendTexts(edits + [e]) == AppendedTexts(edits + [e])
  {
    AppendTextIsAppended(e);
    AppendedTextsConcat(edits, [e]);
    AppendedTextsOfOne(e);
    assert (edits + [e])[..|edits|] == edits;
  }

  lemma {:induction false} AppendTextsAreAppended(edits: seq<RawEdit>)
    ensures AppendTexts(edits) == AppendedTexts(edits)
  {
    if edits != [] {
      AppendTextsAreAppended(edits[..|edits| - 1]);
      AppendTextsSnoc(edits[..|edits| - 1], edits[|edits| - 1]);
      assert edits == edits[..|edits| - 1] + [edits[|edits| - 1]];
    }
  }

  lemma NoneAcceptableSnoc(edits: seq<RawEdit>, n: nat)
    requires edits != []
    ensures var last := |edits| - 1;
            NoneAcceptable(edits, n) <==> NoneAcceptable(edits[..last], n) && !Acceptable(edits[last], n)
  {
    var init := edits[..|edits| - 1];
    assert forall k :: 0 <= k < |init| ==> init[k] == edits[k];
  }

  lemma AcceptableByIndex(e: RawEdit, n: nat)
    ensures Acceptable(e, n) <==> RemoveIndex(e, n).Some? || ReplaceIndex(e, n).Some? || AppendText(e).Some?
  {
    if RemoveIndex(e, n).Some? {
      assert Targets(e, Remove, n, RemoveIndex(e, n).value);
    }
    if ReplaceIndex(e, n).Some? {
      assert Targets(e, Replace, n, ReplaceIndex(e, n).value);
    }
  }

  /** The first pass logs an edit, or the second one appends, exactly if some edit can be carried out. */
  lemma {:induction false} AppliedIffAcceptable(items: seq<Entry>, edits: seq<RawEdit>)
    ensures FirstPass(items, edits).applied == [] && AppendTexts(edits) == [] <==> NoneAcceptable(edits, |items|)
  {
    if edits != [] {
      var init, e := edits[..|edits| - 1], edits[|edits| - 1];
      AppliedIffAcceptable(items, init);
      NoneAcceptableSnoc(edits, |items|);
      AcceptableByIndex(e, |items|);
      if FirstPass(items, init).applied == [] {
        NothingAppliedKeepsAll(items, init);
      }
    }
  }

  lemma AppendsAreAdditions(history: RawHistory, plan: Plan, fallback: string)
    ensures AllAppends(history, plan, fallback) == Additions(plan, |NormalizeHistory(history)|, fallback)
  {
    AppliedIffAcceptable(NormalizeHistory(history), plan.edits);
    AppendTextsAreAppended(plan.edits);
  }

  /** The engine against its specification: clear empties the history, every other call meets it. */
  lemma EditsRefineSpec(history: RawHistory, plan: Plan, fallback: string, createdAt: string) returns (kept: seq<nat>)
    ensures plan.action.ClearIt? ==> EditHistory(history, plan, fallback, createdAt).0 == []
    ensures !plan.action.ClearIt? ==>
              var items := NormalizeHistory(history);
              EditSpec(items, Replacing(plan), Additions(plan, |items|, fallback), createdAt,
                       EditHistory(history, plan, fallback, createdAt).0, kept)
  {
    kept := [];
    if !plan.action.ClearIt? {
      if history.List? {
        NormalizeGivesNormal(history.items);
      }
      ResultIsKeptThenAppended(history, plan, fallback, createdAt);
      AppendsAreAdditions(history, plan, fallback);
      var items, edits := NormalizeHistory(history), Replacing(plan);
      kept := PassRefinesSpec(items, edits);
      var p := FirstPass(items, edits);
      AppendedMeetsSpec(items, edits, AllAppends(history, plan, fallback), createdAt, Keep(p.updated, p.removed), kept);
    }
  }

  /** The removals and replacements carried out, in order: a replacement is dropped if its entry is gone by then. */
  ghost function Carried(edits: seq<RawEdit>, n: nat): seq<AppliedEdit> {
    if edits == [] then []
    else
      var init, e := edits[..|edits| - 1], edits[|edits| - 1];
      Carried(init, n) +
      if exists i :: Targets(e, Remove, n, i) then [Removed(CoerceIndex(e.index).value)]
      else if HasText(e) && exists i :: Targets(e, Replace, n, i) && !IsRemoved(init, n, i)
      then [Replaced(CoerceIndex(e.index).value, Text.Strip(e.text))]
      else []
  }

  lemma {:induction false} PassLogsCarried(items: seq<Entry>, edits: seq<RawEdit>)
    ensures FirstPass(items, edits).applied == Carried(edits, |items|)
  {
    if edits != [] {
      var n, init, e := |items|, edits[..|edits| - 1], edits[|edits| - 1];
      PassLogsCarried(items, init);
      if RemoveIndex(e, n).Some? {
        assert Targets(e, Remove, n, RemoveIndex(e, n).value);
      } else if ReplaceIndex(e, n).Some? {
        FirstPassRemoves(items, init, ReplaceIndex(e, n).value);
        assert Targets(e, Replace, n, ReplaceIndex(e, n).value);
      }
    }
  }

  lemma FinishLogs(items: seq<Entry>, p: Pass, texts: seq<string>, fallback: string, createdAt: string)
    ensures Finish(items, p, texts, fallback, createdAt).1 ==
            if p.applied == [] && texts == [] && fallback != ""
            then AppliedPlan(AppendedFallback, [Appended(Text.Strip(fallback))])
            else AppliedPlan(Applied, p.applied + AppendLog(texts))
  {
    assert |p.applied + AppendLog(texts)| == |p.applied| + |texts|;
  }

  /** The returned plan: its action, and exactly the edits that were carried out, appends last. */
  lemma AppliedPlanIsExact(history: RawHistory, plan: Plan, fallback: string, createdAt: string)
    ensures var applied, n := EditHistory(history, plan, fallback, createdAt).1, |NormalizeHistory(history)|;
            if plan.action.ClearIt? then applied == AppliedPlan(Cleared, [])
            else if plan.action.LeaveIt? then applied == AppliedPlan(Untouched, [])
            else if NoneAcceptable(plan.edits, n) && fallback != "" then
              applied == AppliedPlan(AppendedFallback, [Appended(Text.Strip(fallback))])
            else
              && applied.action == Applied
              && var carried, texts := Carried(plan.edits, n), AppendedTexts(plan.edits);
              && |applied.edits| == |carried| + |texts| && applied.edits[..|carried|] == carried
              && forall q :: 0 <= q < |texts| ==> applied.edits[|carried| + q] == Appended(texts[q])
  {
    var items := NormalizeHistory(history);
    if !plan.action.ClearIt? && !plan.action.LeaveIt? {
      PassLogsCarried(items, plan.edits);
      AppliedIffAcceptable(items, plan.edits);
      AppendTextsAreAppended(plan.edits);
      FinishLogs(items, FirstPass(items, plan.edits), AppendTexts(plan.edits), fallback, createdAt);
    }
  }

  /** Its length: one entry less for each distinct removed index, one more for each appended text. */
  lemma EditedLength(history: RawHistory, plan: Plan, fallback: string, createdAt: string)
    requires !plan.action.ClearIt?
    ensures var items := NormalizeHistory(history);
            var removed := FirstPass(items, Replacing(plan)).removed;
            && |EditHistory(history, plan, fallback, createdAt).0|
               == |items| - |removed| + |AllAppends(history, plan, fallback)|
            && (forall i :: i in removed <==> 0 <= i < |items| && IsRemoved(Replacing(plan), |items|, i))
  {
    var items := NormalizeHistory(history);
    var p := FirstPass(items, Replacing(plan));
    ResultIsKeptThenAppended(history, plan, fallback, createdAt);
    KeepIsSurvivors(p.updated, p.removed);
    SurvivorsCount(|items|, p.removed);
    forall i: nat ensures i in p.removed <==> IsRemoved(Replacing(plan), |items|, i) {
      FirstPassRemoves(items, Replacing(plan), i);
    }
    assert p.removed == set i | i in p.removed && i < |items|;
  }

  lemma {:induction false} KeepNothingRemoved(es: seq<Entry>)
    ensures Keep(es, {}) == es
  {
    if es != [] {
      KeepNothingRemoved(es[..|es| - 1]);
    }
  }

  // ---------------------------------------------------------------- normalizing the result again

  lemma AppendTextsVisible(edits: seq<RawEdit>)
    ensures forall t <- AppendTexts(edits) :: t != "" && Text.IsTrimmed(t)
  {
    if edits != [] {
      AppendTextsVisible(edits[..|edits| - 1]);
    }
  }

  lemma KeptIsNormal(items: seq<Entry>, edits: seq<RawEdit>)
    requires forall e <- items :: Normal(e)
    ensures var p := FirstPass(items, edits); forall e <- Keep(p.updated, p.removed) :: Normal(e)
  {
    var p := FirstPass(items, edits);
    var kept := PassRefinesSpec(items, edits);
    forall k | 0 <= k < |kept| ensures Normal(Keep(p.updated, p.removed)[k]) {
      assert items[kept[k]] in items;
      LastTextVisible(edits, |items|, kept[k]);
    }
  }

  /** Appending visible texts to normal entries: all is trimmed, and only a blank creation time is not normal. */
  lemma AppendedNormalIff(kept: seq<Entry>, texts: seq<string>, createdAt: string)
    requires (forall e <- kept :: Normal(e)) && (forall t <- texts :: t != "" && Text.IsTrimmed(t))
    ensures var updated := kept + NewEntries(texts, createdAt);
            && AllTrimmed(updated)
            && ((forall e <- updated :: Normal(e)) <==>
                createdAt == "" || Text.Strip(createdAt) != "" || texts == [])
  {
    var added := NewEntries(texts, createdAt);
    var fine := createdAt == "" || Text.Strip(createdAt) != "";
    forall q | 0 <= q < |texts|
      ensures added[q].text != "" && Text.IsTrimmed(added[q].text)
      ensures added[q].createdAt.Some? ==> Text.IsTrimmed(added[q].createdAt.value)
      ensures Normal(added[q]) <==> fine
    {
      assert texts[q] in texts && added[q] == NewEntry(texts[q], createdAt);
    }
    if texts != [] {
      assert added[0] in kept + added;
    }
  }

  lemma ResultEntries(history: RawHistory, plan: Plan, fallback: string, createdAt: string)
    ensures var updated := EditHistory(history, plan, fallback, createdAt).0;
            var texts := AllAppends(history, plan, fallback);
            && AllTrimmed(updated)
            && ((forall e <- updated :: Normal(e)) <==>
                createdAt == "" || Text.Strip(createdAt) != "" || texts == [])
  {
    if !plan.action.ClearIt? {
      var items, texts := NormalizeHistory(history), AllAppends(history, plan, fallback);
      if history.List? {
        NormalizeGivesNormal(history.items);
      }
      AppendTextsVisible(plan.edits);
      KeptIsNormal(items, Replacing(plan));
      ResultIsKeptThenAppended(history, plan, fallback, createdAt);
      var p := FirstPass(items, Replacing(plan));
      AppendedNormalIff(Keep(p.updated, p.removed), texts, createdAt);
    }
  }

  lemma LastTextVisible(edits: seq<RawEdit>, n: nat, i: nat)
    ensures var t := LastText(edits, n, i); t.Some? ==> t.value != "" && Text.IsTrimmed(t.value)
  {
    if edits != [] {
      LastTextVisible(edits[..|edits| - 1], n, i);
    }
  }

  /**
   * Normalizing an edited history changes nothing - except that a creation time of blanks only is stored as the empty
   * text, which normalizing drops.
   */
  lemma NormalizeIdempotentIff(history: RawHistory, plan: Plan, fallback: string, createdAt: string)
    ensures var updated := EditHistory(history, plan, fallback, createdAt).0;
            NormalizeHistory(List(StoreAll(updated))) == updated <==>
            createdAt == "" || Text.Strip(createdAt) != "" || AllAppends(history, plan, fallback) == []
  {
    ResultEntries(history, plan, fallback, createdAt);
    NormalizeFixesIff(EditHistory(history, plan, fallback, createdAt).0);
  }

  // ---------------------------------------------------------------- the applied plan as a replay log

  function Replay(a: AppliedEdit): RawEdit {
    match a
    case Removed(i) => Edit(Remove, Number(i), "")
    case Replaced(i, text) => Edit(Replace, Number(i), text)
    case Appended(text) => Edit(Append, NoIndex, text)
  }

  function ReplayAll(a: seq<AppliedEdit>): (r: seq<RawEdit>)
    ensures |r| == |a| && forall i :: 0 <= i < |a| ==> r[i] == Replay(a[i])
  {
    seq(|a|, i requires 0 <= i < |a| => Replay(a[i]))
  }

  function ReplayPlan(a: AppliedPlan): Plan {
    var action := match a.action
      case Applied => ApplyIt
      case Cleared => ClearIt
      case Untouched => LeaveIt
      case AppendedFallback => OtherAction;
    Plan(action, ReplayAll(a.edits))
  }

  /** An edit is logged exactly when it changes the pass, and its log entry makes the same change. */
  lemma ReplayStep(q: Pass, e: RawEdit)
    ensures var p := PassStep(q, e);
            if p.applied == q.applied then p == q
            else
              && p.applied == q.applied + [p.applied[|p.applied| - 1]]
              && PassStep(q, Replay(p.applied[|p.applied| - 1])) == p
  {
    if e.Edit? {
      Text.StripIdempotent(e.text);
    }
  }

  /** Replaying what the first pass accepted repeats it. */
  lemma {:induction false} ReplayFirstPass(items: seq<Entry>, edits: seq<RawEdit>)
    ensures var p := FirstPass(items, edits); FirstPass(items, ReplayAll(p.applied)) == p
  {
    if edits != [] {
      var init, e := edits[..|edits| - 1], edits[|edits| - 1];
      var q := FirstPass(items, init);
      ReplayFirstPass(items, init);
      ReplayStep(q, e);
      var p := PassStep(q, e);
      if p.applied != q.applied {
        var again := ReplayAll(p.applied);
        assert again[..|again| - 1] == ReplayAll(q.applied);
      }
    }
  }

  /** Append edits do not disturb the first pass. */
  lemma {:induction false} FirstPassSkipsAppends(items: seq<Entry>, edits: seq<RawEdit>, texts: seq<string>)
    ensures FirstPass(items, edits + ReplayAll(AppendLog(texts))) == FirstPass(items, edits)
  {
    if texts == [] {
      assert edits + ReplayAll(AppendLog(texts)) == edits;
    } else {
      var init := texts[..|texts| - 1];
      var all := edits + ReplayAll(AppendLog(texts));
      assert all[..|all| - 1] == edits + ReplayAll(AppendLog(init));
      FirstPassSkipsAppends(items, edits, init);
    }
  }

  lemma {:induction false} FirstPassAppendsNothing(items: seq<Entry>, edits: seq<RawEdit>)
    ensures forall a <- FirstPass(items, edits).applied :: !a.Appended?
  {
    if edits != [] {
      FirstPassAppendsNothing(items, edits[..|edits| - 1]);
    }
  }

  lemma {:induction false} NoAppendTexts(applied: seq<AppliedEdit>)
    requires forall a <- applied :: !a.Appended?
    ensures AppendTexts(ReplayAll(applied)) == []
  {
    if applied != [] {
      var init := applied[..|applied| - 1];
      assert forall a <- init :: a in applied;
      NoAppendTexts(init);
      assert ReplayAll(applied)[..|applied| - 1] == ReplayAll(init);
      assert applied[|applied| - 1] in applied;
    }
  }

  lemma {:induction false} AppendTextsConcat(a: seq<RawEdit>, b: seq<RawEdit>)
    ensures AppendTexts(a + b) == AppendTexts(a) + AppendTexts(b)
  {
    if b == [] {
      assert a + b == a;
    } else {
      assert (a + b)[..|a + b| - 1] == a + b[..|b| - 1];
      AppendTextsConcat(a, b[..|b| - 1]);
    }
  }

  lemma ReplayedText(t: string)
    requires t != "" && Text.IsTrimmed(t)
    ensures AppendTexts([Replay(Appended(t))]) == [t]
  {
    Text.StripFixpoint(t);
    assert AppendTexts([Replay(Appended(t))][..0]) == [];
  }

  lemma ReplaySnoc(texts: seq<string>)
    requires texts != []
    ensures var all := ReplayAll(AppendLog(texts));
            all == ReplayAll(AppendLog(texts[..|texts| - 1])) + [Replay(Appended(texts[|texts| - 1]))]
  {
  }

  lemma {:induction false} ReplayedTexts(texts: seq<string>)
    requires forall i :: 0 <= i < |texts| ==> texts[i] != "" && Text.IsTrimmed(texts[i])
    ensures AppendTexts(ReplayAll(AppendLog(texts))) == texts
  {
    if texts != [] {
      var init, t := texts[..|texts| - 1], texts[|texts| - 1];
      ReplayedTexts(init);
      ReplaySnoc(texts);
      AppendTextsConcat(ReplayAll(AppendLog(init)), [Replay(Appended(t))]);
      ReplayedText(t);
      assert texts == init + [t];
    }
  }

  /** Reading back what was applied: the same first pass and the same texts. */
  lemma ReplayReadsPass(items: seq<Entry>, edits: seq<RawEdit>, texts: seq<string>)
    ensures var p := FirstPass(items, edits); FirstPass(items, ReplayAll(p.applied + AppendLog(texts))) == p
  {
    var p := FirstPass(items, edits);
    assert ReplayAll(p.applied + AppendLog(texts)) == ReplayAll(p.applied) + ReplayAll(AppendLog(texts));
    FirstPassSkipsAppends(items, ReplayAll(p.applied), texts);
    ReplayFirstPass(items, edits);
  }

  lemma ReplayReadsTexts(items: seq<Entry>, edits: seq<RawEdit>, texts: seq<string>)
    requires forall i :: 0 <= i < |texts| ==> texts[i] != "" && Text.IsTrimmed(texts[i])
    ensures AppendTexts(ReplayAll(FirstPass(items, edits).applied + AppendLog(texts))) == texts
  {
    var applied := FirstPass(items, edits).applied;
    assert ReplayAll(applied + AppendLog(texts)) == ReplayAll(applied) + ReplayAll(AppendLog(texts));
    FirstPassAppendsNothing(items, edits);
    NoAppendTexts(applied);
    AppendTextsConcat(ReplayAll(applied), ReplayAll(AppendLog(texts)));
    ReplayedTexts(texts);
    assert [] + texts == texts;
  }

  lemma ReplayApplied(items: seq<Entry>, edits: seq<RawEdit>, fallback: string, createdAt: string)
    ensures var result := Finish(items, FirstPass(items, edits), AppendTexts(edits), fallback, createdAt);
            result.1.action.Applied? ==> EditItems(items, ReplayPlan(result.1), "", createdAt) == result
  {
    var texts := AppendTexts(edits);
    AppendTextsVisible(edits);
    assert forall i :: 0 <= i < |texts| ==> texts[i] in texts;
    ReplayReadsPass(items, edits, texts);
    ReplayReadsTexts(items, edits, texts);
  }

  lemma SingleAppend(items: seq<Entry>, text: string)
    requires Text.Strip(text) == text
    ensures var edits := ReplayAll([Appended(text)]);
            FirstPass(items, edits) == Pass(items, {}, []) && AppendTexts(edits) == if text == "" then [] else [text]
  {
    var edits := ReplayAll([Appended(text)]);
    assert edits == [Edit(Append, NoIndex, text)] && edits[..0] == [];
    assert AppendTexts(edits[..0]) == [];
  }

  lemma ReplayFallback(items: seq<Entry>, fallback: string, createdAt: string)
    ensures var edits := ReplayAll([Appended(Text.Strip(fallback))]);
            Finish(items, FirstPass(items, edits), AppendTexts(edits), "", createdAt).0
            == AppendHistory(items, fallback, createdAt)
  {
    Text.StripIdempotent(fallback);
    SingleAppend(items, Text.Strip(fallback));
    KeepNothingRemoved(items);
    FallbackIsAppend(items, fallback, createdAt);
  }

  lemma ReplayItems(items: seq<Entry>, plan: Plan, fallback: string, createdAt: string)
    requires !plan.action.ClearIt? && !plan.action.LeaveIt?
    ensures var (updated, applied) := EditItems(items, plan, fallback, createdAt);
            && EditItems(items, ReplayPlan(applied), "", createdAt).0 == updated
            && (!applied.action.AppendedFallback? ==> EditItems(items, ReplayPlan(applied), "", createdAt).1 == applied)
  {
    ReplayApplied(items, plan.edits, fallback, createdAt);
    ReplayFallback(items, fallback, createdAt);
  }

  /** Whatever the plan and the fallback, the returned plan replayed on the same history gives the same result. */
  lemma ReplayReproduces(history: RawHistory, plan: Plan, fallback: string, createdAt: string)
    ensures var (updated, applied) := EditHistory(history, plan, fallback, createdAt);
            && EditHistory(history, ReplayPlan(applied), "", createdAt).0 == updated
            && (!applied.action.AppendedFallback? ==>
                  EditHistory(history, ReplayPlan(applied), "", createdAt).1 == applied)
  {
    if !plan.action.ClearIt? && !plan.action.LeaveIt? {
      ReplayItems(NormalizeHistory(history), plan, fallback, createdAt);
    }
  }
}
