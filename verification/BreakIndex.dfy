/** Where the message chunker breaks an over-long text. */
module BreakIndex {
  import opened Text
  import opened Wrappers

  predicate OccursAt(text: string, sep: string, k: int) {
    0 <= k && k + |sep| <= |text| && text[k..k + |sep|] == sep
  }

  /** Python's `rfind`, from position i downwards. */
  function RFindFrom(text: string, sep: string, start: nat, i: int): (r: int)
    ensures r == -1 || (start <= r <= i && OccursAt(text, sep, r))
    ensures forall k :: start <= k <= i && r < k ==> !OccursAt(text, sep, k)
    decreases i - start
  {
    if i < start then -1
    else if OccursAt(text, sep, i) then i
    else RFindFrom(text, sep, start, i - 1)
  }

  function RFind(text: string, sep: string, start: nat, end: nat): (r: int)
    ensures r == -1 || (start <= r && r + |sep| <= end)
  {
    RFindFrom(text, sep, start, end - |sep|)
  }

  /** The hit of the first separator that has one. */
  function FirstHit(text: string, seps: seq<string>, start: nat, end: nat): (r: int)
    requires forall i :: 0 <= i < |seps| ==> seps[i] != ""
    ensures r == -1 || start <= r < end
  {
    if seps == [] then -1
    else
      var r := RFind(text, seps[0], start, end);
      if r != -1 then r else FirstHit(text, seps[1..], start, end)
  }

  const NEWLINES := ["\n\n", "\n"]
  const SENTENCE_ENDS := [".\n", "!\n", [ELLIPSIS, '\n'], ". ", "! ", [ELLIPSIS, ' ']]
  const SENTENCE_MARKS := ['.', '!', ELLIPSIS]
  const CLAUSE_MARKS := [';', ':', ',']
  const CLAUSE_ENDS := [";\n", ":\n", ",\n", "; ", ": ", ", "]

  function SearchWindow(text: string, start: nat, end: nat): (r: int)
    ensures r == -1 || start <= r <= end
  {
    var newline := FirstHit(text, NEWLINES, start, end);
    if newline != -1 then newline
    else
      var sentence := FirstHit(text, SENTENCE_ENDS, start, end);
      if sentence != -1 then sentence + 1
      else
        var clause := FirstHit(text, CLAUSE_ENDS, start, end);
        if clause != -1 then clause + 1
        else RFind(text, " ", start, end)
  }

  /** The start of the preferred window, 55% of the limit. */
  function MinIndex(maxLength: nat): (r: nat)
    requires 0 < maxLength
    ensures r < maxLength
  {
    Min(maxLength * 11 / 20, maxLength - 1)
  }

  function FindBreakIndex(text: string, maxLength: int): (idx: nat)
    ensures idx <= |text|
  {
    if maxLength <= 0 then 0
    else if |text| <= maxLength then |text|
    else
      var preferred := SearchWindow(text, MinIndex(maxLength), maxLength + 1);
      if preferred != -1 then preferred
      else
        var anywhere := SearchWindow(text, 0, maxLength + 1);
        if anywhere != -1 then anywhere else maxLength
  }

  /** The kinds of boundary, best first. */
  datatype Kind = Newline | Sentence | Clause | Space

  function Rank(kind: Kind): nat {
    match kind case Newline => 1 case Sentence => 2 case Clause => 3 case Space => 4
  }

  /** Breaking before position k of the window is a boundary of this kind. */
  predicate Boundary(text: string, k: int, kind: Kind, start: nat, end: nat)
    requires end <= |text|
  {
    match kind
    case Newline => start <= k < end && text[k] == '\n'
    case Sentence => start < k < end && text[k - 1] in SENTENCE_MARKS && text[k] in ['\n', ' ']
    case Clause => start < k < end && text[k - 1] in CLAUSE_MARKS && text[k] in ['\n', ' ']
    case Space => start <= k < end && text[k] == ' '
  }

  ghost predicate Without(text: string, kind: Kind, start: nat, end: nat)
    requires end <= |text|
  {
    forall k :: !Boundary(text, k, kind, start, end)
  }

  /** Separator s occurs at k, inside the window. */
  predicate HitIn(text: string, s: string, k: int, start: nat, end: nat) {
    start <= k && k + |s| <= end && OccursAt(text, s, k)
  }

  /** A first hit is a hit of some separator; without one, no separator occurs. */
  lemma {:induction false} FirstHitSound(text: string, seps: seq<string>, start: nat, end: nat)
    requires forall i :: 0 <= i < |seps| ==> seps[i] != ""
    ensures var r := FirstHit(text, seps, start, end);
            && (r != -1 ==> exists i :: 0 <= i < |seps| && HitIn(text, seps[i], r, start, end))
            && (r == -1 ==> forall i, k :: 0 <= i < |seps| ==> !HitIn(text, seps[i], k, start, end))
  {
    if seps != [] {
      var r := RFind(text, seps[0], start, end);
      if r != -1 {
        assert HitIn(text, seps[0], r, start, end);
      } else {
        FirstHitSound(text, seps[1..], start, end);
        var q := FirstHit(text, seps[1..], start, end);
        if q != -1 {
          var i :| 0 <= i < |seps[1..]| && HitIn(text, seps[1..][i], q, start, end);
          assert HitIn(text, seps[i + 1], q, start, end);
        } else {
          forall i, k | 0 <= i < |seps| ensures !HitIn(text, seps[i], k, start, end) {
            assert i > 0 ==> seps[i] == seps[1..][i - 1];
          }
        }
      }
    }
  }

  lemma CharAt(text: string, k: int, c: char)
    ensures OccursAt(text, [c], k) <==> 0 <= k < |text| && text[k] == c
  {
    if 0 <= k < |text| {
      assert text[k..k + 1] == [text[k]];
    }
  }

  lemma PairAt(text: string, k: int, a: char, b: char)
    ensures OccursAt(text, [a, b], k) <==> 0 <= k && k + 2 <= |text| && text[k] == a && text[k + 1] == b
  {
    if 0 <= k && k + 2 <= |text| {
      assert text[k..k + 2] == [text[k], text[k + 1]];
    }
  }

  /** What a search for one kind of boundary finds. */
  ghost predicate HitOf(text: string, k: int, kind: Kind, start: nat, end: nat)
    requires end <= |text|
  {
    if k == -1 then Without(text, kind, start, end) else Boundary(text, k, kind, start, end)
  }

  lemma NewlineHit(text: string, start: nat, end: nat) returns (hit: int)
    requires end <= |text|
    ensures var r := FirstHit(text, NEWLINES, start, end); hit == if r == -1 then -1 else r
    ensures HitOf(text, hit, Newline, start, end)
  {
    hit := FirstHit(text, NEWLINES, start, end);
    FirstHitSound(text, NEWLINES, start, end);
    var r := FirstHit(text, NEWLINES, start, end);
    if r != -1 {
      PairAt(text, r, '\n', '\n');
      CharAt(text, r, '\n');
      var i :| 0 <= i < |NEWLINES| && HitIn(text, NEWLINES[i], r, start, end);
      assert i == 0 || i == 1;
    } else {
      forall k ensures !Boundary(text, k, Newline, start, end) {
        CharAt(text, k, '\n');
        assert !HitIn(text, NEWLINES[1], k, start, end);
      }
    }
  }

  /** The pairs are all combinations of a mark with a newline or a space. */
  ghost predicate Pairs(seps: seq<string>, marks: seq<char>) {
    && (forall i :: 0 <= i < |seps| ==> |seps[i]| == 2 && seps[i][0] in marks && seps[i][1] in ['\n', ' '])
    && (forall m <- marks :: [m, '\n'] in seps && [m, ' '] in seps)
  }

  lemma PairMissing(text: string, seps: seq<string>, k: nat, start: nat, end: nat)
    requires start < k < end <= |text|
    requires forall i :: 0 <= i < |seps| ==> !HitIn(text, seps[i], k - 1, start, end)
    ensures [text[k - 1], text[k]] !in seps
  {
    PairAt(text, k - 1, text[k - 1], text[k]);
    assert HitIn(text, [text[k - 1], text[k]], k - 1, start, end);
  }

  /** Both punctuation levels: a mark followed by a newline or a space. */
  lemma PairHit(text: string, seps: seq<string>, marks: seq<char>, start: nat, end: nat)
    requires end <= |text| && Pairs(seps, marks)
    ensures var r := FirstHit(text, seps, start, end);
            && (r != -1 ==> start <= r && r + 1 < end && text[r] in marks && text[r + 1] in ['\n', ' '])
            && (r == -1 ==> forall k :: start < k < end && text[k - 1] in marks ==> text[k] !in ['\n', ' '])
  {
    FirstHitSound(text, seps, start, end);
    var r := FirstHit(text, seps, start, end);
    if r != -1 {
      var i :| 0 <= i < |seps| && HitIn(text, seps[i], r, start, end);
      var s := seps[i];
      assert s == [s[0], s[1]];
      PairAt(text, r, s[0], s[1]);
    } else {
      forall k | start < k < end && text[k - 1] in marks ensures text[k] !in ['\n', ' '] {
        PairMissing(text, seps, k, start, end);
      }
    }
  }

  lemma EndsArePairs()
    ensures Pairs(SENTENCE_ENDS, SENTENCE_MARKS) && Pairs(CLAUSE_ENDS, CLAUSE_MARKS)
  {
    var s, t := SENTENCE_ENDS, SENTENCE_MARKS;
    assert [t[0], '\n'] == s[0] && [t[1], '\n'] == s[1] && [t[2], '\n'] == s[2];
    assert [t[0], ' '] == s[3] && [t[1], ' '] == s[4] && [t[2], ' '] == s[5];
    var c, m := CLAUSE_ENDS, CLAUSE_MARKS;
    assert [m[0], '\n'] == c[0] && [m[1], '\n'] == c[1] && [m[2], '\n'] == c[2];
    assert [m[0], ' '] == c[3] && [m[1], ' '] == c[4] && [m[2], ' '] == c[5];
  }

  lemma SentenceHit(text: string, start: nat, end: nat) returns (hit: int)
    requires end <= |text|
    ensures var r := FirstHit(text, SENTENCE_ENDS, start, end); hit == if r == -1 then -1 else r + 1
    ensures HitOf(text, hit, Sentence, start, end)
  {
    EndsArePairs();
    PairHit(text, SENTENCE_ENDS, SENTENCE_MARKS, start, end);
    var r := FirstHit(text, SENTENCE_ENDS, start, end);
    hit := if r == -1 then -1 else r + 1;
  }

  lemma ClauseHit(text: string, start: nat, end: nat) returns (hit: int)
    requires end <= |text|
    ensures var r := FirstHit(text, CLAUSE_ENDS, start, end); hit == if r == -1 then -1 else r + 1
    ensures HitOf(text, hit, Clause, start, end)
  {
    EndsArePairs();
    PairHit(text, CLAUSE_ENDS, CLAUSE_MARKS, start, end);
    var r := FirstHit(text, CLAUSE_ENDS, start, end);
    hit := if r == -1 then -1 else r + 1;
  }

  lemma SpaceHit(text: string, start: nat, end: nat) returns (hit: int)
    requires end <= |text|
    ensures hit == RFind(text, " ", start, end) && HitOf(text, hit, Space, start, end)
  {
    hit := RFind(text, " ", start, end);
    CharAt(text, hit, ' ');
    forall k | hit == -1 ensures !Boundary(text, k, Space, start, end) {
      CharAt(text, k, ' ');
    }
  }

  function BestOf(newline: int, sentence: int, clause: int, space: int): (int, Kind) {
    if newline != -1 then (newline, Newline)
    else if sentence != -1 then (sentence, Sentence)
    else if clause != -1 then (clause, Clause)
    else (space, Space)
  }

  lemma BestOfHits(text: string, start: nat, end: nat, newline: int, sentence: int, clause: int, space: int)
    requires end <= |text|
    requires HitOf(text, newline, Newline, start, end) && HitOf(text, sentence, Sentence, start, end)
    requires HitOf(text, clause, Clause, start, end) && HitOf(text, space, Space, start, end)
    ensures var (r, kind) := BestOf(newline, sentence, clause, space);
            && (r != -1 ==> Boundary(text, r, kind, start, end))
            && (r != -1 ==> forall k, l :: Boundary(text, k, l, start, end) ==> Rank(kind) <= Rank(l))
            && (r == -1 ==> forall k, l :: !Boundary(text, k, l, start, end))
  {
    var (r, kind) := BestOf(newline, sentence, clause, space);
    forall k, l | Boundary(text, k, l, start, end) ensures r != -1 && Rank(kind) <= Rank(l) {
      assert !Without(text, l, start, end);
    }
  }

  /** A window search finds a boundary of the best kind the window has, or nothing when it has none. */
  lemma SearchFindsBest(text: string, start: nat, end: nat) returns (kind: Kind)
    requires end <= |text|
    ensures var r := SearchWindow(text, start, end);
            && (r != -1 ==> Boundary(text, r, kind, start, end))
            && (r != -1 ==> forall k, l :: Boundary(text, k, l, start, end) ==> Rank(kind) <= Rank(l))
            && (r == -1 ==> forall k, l :: !Boundary(text, k, l, start, end))
  {
    var n := NewlineHit(text, start, end);
    var s := SentenceHit(text, start, end);
    var c := ClauseHit(text, start, end);
    var p := SpaceHit(text, start, end);
    BestOfHits(text, start, end, n, s, c, p);
    kind := BestOf(n, s, c, p).1;
  }

  /** The break prefers the best kind of boundary of the late window, then of the whole one; else it cuts hard. */
  lemma BreakIsBest(text: string, maxLength: nat)
    requires 0 < maxLength < |text|
    ensures 20 * MinIndex(maxLength) <= 11 * maxLength < 20 * MinIndex(maxLength) + 20
    ensures var idx, lo, end := FindBreakIndex(text, maxLength), MinIndex(maxLength), maxLength + 1;
            if exists k, l :: Boundary(text, k, l, lo, end) then
              exists kind :: Boundary(text, idx, kind, lo, end) &&
                             forall k, l :: Boundary(text, k, l, lo, end) ==> Rank(kind) <= Rank(l)
            else if exists k, l :: Boundary(text, k, l, 0, end) then
              exists kind :: Boundary(text, idx, kind, 0, end) &&
                             forall k, l :: Boundary(text, k, l, 0, end) ==> Rank(kind) <= Rank(l)
            else idx == maxLength
  {
    var late := SearchFindsBest(text, MinIndex(maxLength), maxLength + 1);
    var any := SearchFindsBest(text, 0, maxLength + 1);
  }

  // ---------------------------------------------------------------- the last occurrence of the first separator

  /** All separators in order of preference; those of length two after a mark keep the mark on the left. */
  const SEPARATORS := [
    "\n\n", "\n",
    ".\n", "!\n", "\U{2026}\n", ". ", "! ", "\U{2026} ",
    ";\n", ":\n", ",\n", "; ", ": ", ", ",
    " "]

  lemma SeparatorLevels()
    ensures SEPARATORS == NEWLINES + SENTENCE_ENDS + CLAUSE_ENDS + [" "]
  {
  }

  function Kept(i: nat): nat {
    if |NEWLINES| <= i < |NEWLINES| + |SENTENCE_ENDS| + |CLAUSE_ENDS| then 1 else 0
  }

  ghost predicate NoHit(text: string, sep: string, start: nat, end: nat) {
    forall k :: !HitIn(text, sep, k, start, end)
  }

  /** k is the last occurrence of sep inside the window. */
  ghost predicate LastHit(text: string, sep: string, k: int, start: nat, end: nat) {
    HitIn(text, sep, k, start, end) && forall l :: k < l ==> !HitIn(text, sep, l, start, end)
  }

  lemma RFindIsLast(text: string, sep: string, start: nat, end: nat)
    ensures var r := RFind(text, sep, start, end);
            if r == -1 then NoHit(text, sep, start, end) else LastHit(text, sep, r, start, end)
  {
  }

  /** The hit is the last occurrence of the first separator that occurs at all. */
  lemma {:induction false} FirstHitIsLast(text: string, seps: seq<string>, start: nat, end: nat) returns (i: nat)
    requires forall j :: 0 <= j < |seps| ==> seps[j] != ""
    ensures var r := FirstHit(text, seps, start, end);
            if r == -1 then i == |seps| else i < |seps| && LastHit(text, seps[i], r, start, end)
    ensures forall j :: 0 <= j < i ==> NoHit(text, seps[j], start, end)
  {
    i := 0;
    if seps != [] {
      RFindIsLast(text, seps[0], start, end);
      if RFind(text, seps[0], start, end) == -1 {
        var j := FirstHitIsLast(text, seps[1..], start, end);
        i := j + 1;
        forall l | 0 <= l < i ensures NoHit(text, seps[l], start, end) {
          assert l > 0 ==> seps[l] == seps[1..][l - 1];
        }
      }
    }
  }

  /** Separator i is the preferred one of the window, and index r breaks at its last occurrence. */
  ghost predicate BreaksAt(text: string, i: nat, r: int, start: nat, end: nat) {
    && i < |SEPARATORS|
    && LastHit(text, SEPARATORS[i], r - Kept(i), start, end)
    && (forall j :: 0 <= j < i ==> NoHit(text, SEPARATORS[j], start, end))
  }

  /** None of these separators occurs inside the window. */
  ghost predicate LevelMissing(text: string, seps: seq<string>, start: nat, end: nat) {
    forall j :: 0 <= j < |seps| ==> NoHit(text, seps[j], start, end)
  }

  lemma LevelBreaks(text: string, before: seq<string>, seps: seq<string>, after: seq<string>, i: nat, k: int,
                    start: nat, end: nat)
    requires SEPARATORS == before + seps + after && i < |seps|
    requires LevelMissing(text, before, start, end) && LastHit(text, seps[i], k, start, end)
    requires forall j :: 0 <= j < i ==> NoHit(text, seps[j], start, end)
    ensures BreaksAt(text, |before| + i, k + Kept(|before| + i), start, end)
  {
    var n := |before| + i;
    assert SEPARATORS[n] == seps[i];
    forall j | 0 <= j < n ensures NoHit(text, SEPARATORS[j], start, end) {
      assert SEPARATORS[j] == if j < |before| then before[j] else seps[j - |before|];
    }
  }

  lemma LevelsMissing(text: string, a: seq<string>, b: seq<string>, start: nat, end: nat)
    requires LevelMissing(text, a, start, end) && LevelMissing(text, b, start, end)
    ensures LevelMissing(text, a + b, start, end)
  {
    forall j | 0 <= j < |a + b| ensures NoHit(text, (a + b)[j], start, end) {
      assert (a + b)[j] == if j < |a| then a[j] else b[j - |a|];
    }
  }

  /**
   * A window search finds the last occurrence of the most preferred separator that the window has, and nothing exactly
   * if it has none.
   */
  lemma SearchIsLastOfFirst(text: string, start: nat, end: nat) returns (i: nat)
    ensures var r := SearchWindow(text, start, end);
            if r == -1 then LevelMissing(text, SEPARATORS, start, end) else BreaksAt(text, i, r, start, end)
  {
    var n := FirstHitIsLast(text, NEWLINES, start, end);
    var s := FirstHitIsLast(text, SENTENCE_ENDS, start, end);
    var c := FirstHitIsLast(text, CLAUSE_ENDS, start, end);
    RFindIsLast(text, " ", start, end);
    i := SearchLevels(text, start, end, n, s, c, FirstHit(text, NEWLINES, start, end),
                      FirstHit(text, SENTENCE_ENDS, start, end), FirstHit(text, CLAUSE_ENDS, start, end),
                      RFind(text, " ", start, end));
  }

  /** What one level of the search found: a hit of its i-th separator, or none of them. */
  ghost predicate Found(text: string, seps: seq<string>, i: nat, k: int, start: nat, end: nat) {
    && (if k == -1 then i == |seps| else i < |seps| && LastHit(text, seps[i], k, start, end))
    && (forall j :: 0 <= j < i ==> NoHit(text, seps[j], start, end))
  }

  lemma SearchLevels(text: string, start: nat, end: nat, n: nat, s: nat, c: nat,
                     newline: int, sentence: int, clause: int, space: int)
    returns (i: nat)
    requires Found(text, NEWLINES, n, newline, start, end) && Found(text, SENTENCE_ENDS, s, sentence, start, end)
    requires Found(text, CLAUSE_ENDS, c, clause, start, end)
    requires if space == -1 then NoHit(text, " ", start, end) else LastHit(text, " ", space, start, end)
    ensures var r := if newline != -1 then newline else if sentence != -1 then sentence + 1
                     else if clause != -1 then clause + 1 else space;
            if r == -1 then LevelMissing(text, SEPARATORS, start, end) else BreaksAt(text, i, r, start, end)
  {
    i := 0;
    var none: seq<string> := [];
    SeparatorLevels();
    if newline != -1 {
      i := n;
      assert SEPARATORS == none + NEWLINES + (SENTENCE_ENDS + CLAUSE_ENDS + [" "]);
      LevelBreaks(text, none, NEWLINES, SENTENCE_ENDS + CLAUSE_ENDS + [" "], n, newline, start, end);
    } else if sentence != -1 {
      i := |NEWLINES| + s;
      assert SEPARATORS == NEWLINES + SENTENCE_ENDS + (CLAUSE_ENDS + [" "]);
      LevelBreaks(text, NEWLINES, SENTENCE_ENDS, CLAUSE_ENDS + [" "], s, sentence, start, end);
    } else {
      LevelsMissing(text, NEWLINES, SENTENCE_ENDS, start, end);
      if clause != -1 {
        i := |NEWLINES + SENTENCE_ENDS| + c;
        LevelBreaks(text, NEWLINES + SENTENCE_ENDS, CLAUSE_ENDS, [" "], c, clause, start, end);
      } else {
        LevelsMissing(text, NEWLINES + SENTENCE_ENDS, CLAUSE_ENDS, start, end);
        var before := NEWLINES + SENTENCE_ENDS + CLAUSE_ENDS;
        if space != -1 {
          i := |before|;
          assert SEPARATORS == before + [" "] + none;
          LevelBreaks(text, before, [" "], none, 0, space, start, end);
        } else {
          LevelsMissing(text, before, [" "], start, end);
        }
      }
    }
  }

  /** So the break is such an occurrence in the late window, else in the whole window, else a hard cut. */
  lemma BreakIsLastOfFirst(text: string, maxLength: nat) returns (i: nat)
    requires 0 < maxLength < |text|
    ensures 20 * MinIndex(maxLength) <= 11 * maxLength < 20 * MinIndex(maxLength) + 20
    ensures var idx, lo, end := FindBreakIndex(text, maxLength), MinIndex(maxLength), maxLength + 1;
            || BreaksAt(text, i, idx, lo, end)
            || (LevelMissing(text, SEPARATORS, lo, end) && BreaksAt(text, i, idx, 0, end))
            || (LevelMissing(text, SEPARATORS, 0, end) && idx == maxLength)
  {
    var late := SearchIsLastOfFirst(text, MinIndex(maxLength), maxLength + 1);
    var any := SearchIsLastOfFirst(text, 0, maxLength + 1);
    i := if SearchWindow(text, MinIndex(maxLength), maxLength + 1) != -1 then late else any;
  }

  // ---------------------------------------------------------------- the break lies in range

  /** A boundary of a text that starts visibly is a space or a newline after the first character. */
  lemma BoundaryBreaks(text: string, k: int, kind: Kind, start: nat, end: nat)
    requires 0 < end <= |text| && !IsSpace(text[0]) && Boundary(text, k, kind, start, end)
    ensures 1 <= k < end && text[k] in ['\n', ' ']
  {
    SpaceFacts();
  }

  lemma WindowBreaks(text: string, start: nat, end: nat)
    requires 0 < end <= |text| && !IsSpace(text[0])
    ensures var r := SearchWindow(text, start, end);
            && (r != -1 ==> 1 <= r < end && text[r] in ['\n', ' '])
            && (r == -1 ==> forall k :: start <= k < end ==> text[k] !in ['\n', ' '])
  {
    var kind := SearchFindsBest(text, start, end);
    var r := SearchWindow(text, start, end);
    if r != -1 {
      BoundaryBreaks(text, r, kind, start, end);
    } else {
      forall k | start <= k < end ensures text[k] !in ['\n', ' '] {
        assert !Boundary(text, k, Newline, start, end) && !Boundary(text, k, Space, start, end);
      }
    }
  }

  /**
   * A break of an over-long text that starts visibly lies in 1..maxLength, and it splits no word unless the first
   * maxLength + 1 characters hold neither a space nor a newline.
   */
  lemma BreakInRange(text: string, maxLength: nat)
    requires 0 < maxLength < |text| && !IsSpace(text[0])
    ensures var idx := FindBreakIndex(text, maxLength);
            && 1 <= idx <= maxLength
            && (text[idx] in ['\n', ' '] ||
                (idx == maxLength && forall k :: 0 <= k <= maxLength ==> text[k] !in ['\n', ' ']))
  {
    WindowBreaks(text, MinIndex(maxLength), maxLength + 1);
    WindowBreaks(text, 0, maxLength + 1);
  }
}
