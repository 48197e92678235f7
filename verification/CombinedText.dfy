/** The text a batch is processed with: its messages in time order, trimmed, without blanks and repetitions. */
module CombinedText {
  import opened Wrappers
  import opened Coalescer
  import StableSort
  import Text

  function Timestamp(): Message -> int {
    (m: Message) => m.timestamp
  }

  /** The trimmed contents, in order. */
  function Contents(ms: seq<Message>): (r: seq<string>)
    ensures |r| == |ms| && forall i :: 0 <= i < |ms| ==> r[i] == Text.Strip(ms[i].content)
  {
    seq(|ms|, i requires 0 <= i < |ms| => Text.Strip(ms[i].content))
  }

  /** Content i is visible and not a repetition. */
  ghost predicate FirstArrival(cs: seq<string>, i: nat) {
    i < |cs| && cs[i] != "" && forall j :: 0 <= j < i ==> cs[j] != cs[i]
  }

  function Distinct(cs: seq<string>): seq<string> {
    if cs == [] then []
    else
      var parts, c := Distinct(cs[..|cs| - 1]), cs[|cs| - 1];
      if c != "" && c !in parts then parts + [c] else parts
  }

  /** The loop of the source, over already sorted contents. */
  method CombineParts(cs: seq<string>) returns (parts: seq<string>)
    ensures parts == Distinct(cs)
  {
    var seen: set<string> := {};
    parts := [];
    for i := 0 to |cs|
      invariant parts == Distinct(cs[..i])
      invariant forall c :: c in seen <==> c in parts
    {
      assert cs[..i + 1][..i] == cs[..i];
      if cs[i] != "" && cs[i] !in seen {
        parts := parts + [cs[i]];
        seen := seen + {cs[i]};
      }
    }
    assert cs[..|cs|] == cs;
  }

  function Parts(ms: seq<Message>): seq<string> {
    Distinct(Contents(StableSort.Sort(Timestamp(), ms)))
  }

  function Join(parts: seq<string>): string {
    if parts == [] then ""
    else if |parts| == 1 then parts[0]
    else Join(parts[..|parts| - 1]) + "\n" + parts[|parts| - 1]
  }

  method CombineMessages(ms: seq<Message>) returns (text: string)
    ensures text == Join(Parts(ms))
    ensures exists sorted ::
              StableSort.IsStableSort(Timestamp(), sorted, ms) && text == Join(Distinct(Contents(sorted)))
  {
    StableSort.SortMeetsSpec(Timestamp(), ms);
    var parts := CombineParts(Contents(StableSort.Sort(Timestamp(), ms)));
    text := Join(parts);
  }

  // ---------------------------------------------------------------- one part per line

  /** Where part p begins in the joined text. */
  function LineStart(parts: seq<string>, p: nat): nat
    requires p <= |parts|
  {
    if p == 0 then 0 else LineStart(parts, p - 1) + |parts[p - 1]| + 1
  }

  lemma {:induction false} LineStartPrefix(a: seq<string>, b: seq<string>, p: nat)
    requires p <= |a| <= |b| && a == b[..|a|]
    ensures LineStart(a, p) == LineStart(b, p)
  {
    if p > 0 {
      LineStartPrefix(a, b, p - 1);
    }
  }

  lemma {:induction false} JoinLength(parts: seq<string>)
    requires parts != []
    ensures |Join(parts)| + 1 == LineStart(parts, |parts|)
  {
    if |parts| > 1 {
      var init := parts[..|parts| - 1];
      JoinLength(init);
      LineStartPrefix(init, parts, |init|);
    } else {
      assert LineStart(parts, 0) == 0;
    }
  }

  /** The text has this part at i, up to a newline or, for the last part, up to its end. */
  ghost predicate LineAt(text: string, i: nat, part: string, isLast: bool) {
    var j := i + |part|;
    j <= |text| && text[i..j] == part && if isLast then j == |text| else j < |text| && text[j] == '\n'
  }

  lemma LineStays(before: string, more: string, i: nat, part: string, isLast: bool)
    requires LineAt(before, i, part, isLast)
    ensures LineAt(before + "\n" + more, i, part, false)
  {
    var text := before + "\n" + more;
    assert text[..|before|] == before && text[|before|] == '\n';
    assert text[i..i + |part|] == before[i..i + |part|];
  }

  lemma LastLine(before: string, part: string)
    ensures LineAt(before + "\n" + part, |before| + 1, part, true)
  {
  }

  lemma OnlyLine(parts: seq<string>)
    requires |parts| == 1
    ensures LineAt(Join(parts), LineStart(parts, 0), parts[0], true)
  {
  }

  /** The text is the parts and nothing else, each on its own line: cut at the line starts, it gives the parts back. */
  lemma {:induction false} JoinIsLines(parts: seq<string>, p: nat)
    requires p < |parts|
    ensures LineAt(Join(parts), LineStart(parts, p), parts[p], p == |parts| - 1)
    decreases |parts|
  {
    if |parts| > 1 {
      var n := |parts| - 1;
      var init := parts[..n];
      LineStartPrefix(init, parts, p);
      if p < n {
        JoinIsLines(init, p);
        LineStays(Join(init), parts[n], LineStart(init, p), parts[p], p == n - 1);
      } else {
        JoinLength(init);
        LastLine(Join(init), parts[n]);
      }
    } else {
      OnlyLine(parts);
    }
  }

  // ---------------------------------------------------------------- exactly the first arrivals

  lemma {:induction false} DistinctMembers(cs: seq<string>, c: string)
    ensures c in Distinct(cs) <==> c != "" && c in cs
  {
    if cs != [] {
      DistinctMembers(cs[..|cs| - 1], c);
      assert cs == cs[..|cs| - 1] + [cs[|cs| - 1]];
    }
  }

  lemma {:induction false} DistinctHasNoRepetition(cs: seq<string>)
    ensures forall p, q :: 0 <= p < q < |Distinct(cs)| ==> Distinct(cs)[p] != Distinct(cs)[q]
  {
    if cs != [] {
      DistinctHasNoRepetition(cs[..|cs| - 1]);
    }
  }

  /** Where part p arrived first; later parts arrived later. */
  lemma {:induction false} PartsInOrderOfArrival(cs: seq<string>) returns (at: seq<nat>)
    ensures |at| == |Distinct(cs)|
    ensures forall p :: 0 <= p < |at| ==> FirstArrival(cs, at[p]) && cs[at[p]] == Distinct(cs)[p]
    ensures forall p, q :: 0 <= p < q < |at| ==> at[p] < at[q]
    ensures forall i :: FirstArrival(cs, i) ==> i in at
  {
    at := [];
    if cs != [] {
      var init, c := cs[..|cs| - 1], cs[|cs| - 1];
      at := PartsInOrderOfArrival(init);
      DistinctMembers(init, c);
      assert forall i :: 0 <= i < |init| ==> (FirstArrival(cs, i) <==> FirstArrival(init, i));
      assert FirstArrival(cs, |init|) <==> c != "" && c !in init;
      if c != "" && c !in Distinct(init) {
        at := at + [|init|];
      }
    }
  }

  lemma {:induction false} DistinctPrefix(a: seq<string>, b: seq<string>)
    ensures Distinct(a) <= Distinct(a + b)
  {
    if b == [] {
      assert a + b == a;
    } else {
      assert (a + b)[..|a + b| - 1] == a + b[..|b| - 1];
      DistinctPrefix(a, b[..|b| - 1]);
    }
  }

  // ---------------------------------------------------------------- batches of the coalescer

  ghost predicate InTimeOrder(ms: seq<Message>) {
    forall i, j :: 0 <= i < j < |ms| ==> ms[i].timestamp <= ms[j].timestamp
  }

  lemma InTimeOrderNeedsNoSort(ms: seq<Message>)
    requires InTimeOrder(ms)
    ensures StableSort.Sort(Timestamp(), ms) == ms
  {
    StableSort.SortFixesSorted(Timestamp(), ms);
  }

  ghost predicate TimeOrderInv(c: Conversation) {
    && InTimeOrder(c.pending) && InTimeOrder(c.inFlight)
    && (forall m <- c.pending + c.inFlight :: m.timestamp <= c.now)
    && (forall i :: 0 <= i < |c.batches| ==> InTimeOrder(c.batches[i].messages))
  }

  lemma StepKeepsTimeOrder(c: Conversation, step: Step, limits: Limits)
    requires Shape(c) && TimeOrderInv(c)
    ensures TimeOrderInv(Apply(c, step, limits))
  {
    if Enabled(c, step) && step.Enqueue? {
      var d := CancelActive(c, step.outcome);
      if Running(c) {
        assert c.inFlight + c.pending == c.inFlight;
      }
      forall m | m in d.pending + d.inFlight ensures m.timestamp <= c.now {
        assert m in c.pending + c.inFlight;
      }
      AddKeepsTimeOrder(d, step, limits);
    }
  }

  lemma ProcessKeepsTimeOrder(e: Conversation, at: int)
    requires TimeOrderInv(e)
    ensures TimeOrderInv(ProcessNow(e, at))
  {
    assert forall m :: m in e.pending ==> m in e.pending + e.inFlight;
  }

  lemma AddKeepsTimeOrder(d: Conversation, step: Step, limits: Limits)
    requires TimeOrderInv(d) && step.Enqueue? && d.now <= step.at <= step.settle
    ensures var e := AddMessage(d, Message(step.id, step.content, step.at, step.isLocationShare)).(now := step.settle);
            TimeOrderInv(if step.isLocationShare then ProcessNow(e, step.settle)
                         else StartDebounceTimer(e, step.settle, limits))
  {
    var m := Message(step.id, step.content, step.at, step.isLocationShare);
    var e := AddMessage(d, m).(now := step.settle);
    assert forall i :: 0 <= i < |d.pending| ==> d.pending[i] in d.pending + d.inFlight;
    assert forall x :: x in e.pending + e.inFlight ==> x == m || x in d.pending + d.inFlight;
    assert TimeOrderInv(e);
    ProcessKeepsTimeOrder(e, step.settle);
    ProcessKeepsTimeOrder(e.(timer := None), step.settle);
  }

  lemma {:induction false} BatchesInTimeOrder(steps: seq<Step>, limits: Limits)
    ensures TimeOrderInv(Run(Fresh(), steps, limits))
  {
    if steps != [] {
      BatchesInTimeOrder(steps[..|steps| - 1], limits);
      ProgressSafety(steps[..|steps| - 1], limits);
      StepKeepsTimeOrder(Run(Fresh(), steps[..|steps| - 1], limits), steps[|steps| - 1], limits);
    }
  }

  /** The parts of a batch are its distinct visible contents, each once, in the order in which they first arrived. */
  lemma BatchPartsAreFirstArrivals(steps: seq<Step>, limits: Limits, i: nat) returns (at: seq<nat>)
    requires i < |Run(Fresh(), steps, limits).batches|
    ensures var ms := Run(Fresh(), steps, limits).batches[i].messages;
            var cs, parts := Contents(ms), Parts(ms);
            && |at| == |parts|
            && (forall p :: 0 <= p < |at| ==> FirstArrival(cs, at[p]) && cs[at[p]] == parts[p])
            && (forall p, q :: 0 <= p < q < |at| ==> at[p] < at[q] && parts[p] != parts[q])
            && (forall k :: FirstArrival(cs, k) ==> k in at)
  {
    var ms := Run(Fresh(), steps, limits).batches[i].messages;
    BatchesInTimeOrder(steps, limits);
    InTimeOrderNeedsNoSort(ms);
    at := PartsInOrderOfArrival(Contents(ms));
    DistinctHasNoRepetition(Contents(ms));
  }

  /** What a cancelled batch was processed with is where the text of its re-dispatch begins. */
  lemma CancelledPartsArePrefix(steps: seq<Step>, limits: Limits, i: nat)
    requires var bs := Run(Fresh(), steps, limits).batches; i + 1 < |bs| && bs[i].fate.Cancelled?
    ensures var bs := Run(Fresh(), steps, limits).batches;
            var first, second := Parts(bs[i].messages), Parts(bs[i + 1].messages);
            && first <= second && Join(first) <= Join(second)
            && (0 < |first| < |second| ==> |Join(first)| < |Join(second)| && Join(second)[|Join(first)|] == '\n')
  {
    BatchesInTimeOrder(steps, limits);
    ProgressSafety(steps, limits);
    var bs := Run(Fresh(), steps, limits).batches;
    var a, b := bs[i].messages, bs[i + 1].messages;
    PartsPrefix(a, b);
    JoinPrefix(Parts(a), Parts(b));
  }

  /** More parts only add lines. */
  lemma {:induction false} JoinPrefix(a: seq<string>, b: seq<string>)
    requires a <= b
    ensures Join(a) <= Join(b) && (0 < |a| < |b| ==> |Join(a)| < |Join(b)| && Join(b)[|Join(a)|] == '\n')
  {
    if a == b {
    } else {
      var init := b[..|b| - 1];
      assert a <= init;
      JoinPrefix(a, init);
      if a != [] {
        assert Join(b) == Join(init) + "\n" + b[|b| - 1];
        assert Join(b)[|Join(init)|] == '\n';
        assert Join(b)[..|Join(init)|] == Join(init);
        if a != init {
          assert Join(b)[..|Join(init)|][|Join(a)|] == '\n';
        }
      }
    }
  }

  lemma PartsPrefix(a: seq<Message>, b: seq<Message>)
    requires a <= b && InTimeOrder(b)
    ensures Parts(a) <= Parts(b)
  {
    InTimeOrderNeedsNoSort(a);
    InTimeOrderNeedsNoSort(b);
    assert Contents(b) == Contents(a) + Contents(b)[|a|..];
    DistinctPrefix(Contents(a), Contents(b)[|a|..]);
  }
}
