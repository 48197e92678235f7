/**
 * Splitting a long reply into chunks. The chunker is modelled for any way of choosing break positions that stays in
 * range (`Cut`), so nothing here depends on where exactly the preferred window starts; `FIND_BREAK` is the source's.
 */
module Chunker {
  import opened Wrappers
  import opened Text
  import BreakIndex

  /** A break position for an over-long text and a limit. */
  type Cut = (string, nat) -> nat

  ghost predicate InRange(cut: Cut) {
    forall text, maxLength: nat :: 0 < maxLength < |text| && IsTrimmed(text) ==> 1 <= cut(text, maxLength) <= maxLength
  }

  const FIND_BREAK: Cut := (text, maxLength) => BreakIndex.FindBreakIndex(text, maxLength)

  lemma FindBreakInRange()
    ensures InRange(FIND_BREAK)
    ensures forall text, maxLength: nat :: FIND_BREAK(text, maxLength) == BreakIndex.FindBreakIndex(text, maxLength)
  {
    forall text, maxLength: nat | 0 < maxLength < |text| && IsTrimmed(text)
      ensures 1 <= FIND_BREAK(text, maxLength) <= maxLength
    {
      BreakIndex.BreakInRange(text, maxLength);
    }
  }

  // ---------------------------------------------------------------- truncating

  function Truncate(cut: Cut, text: string, maxLength: int): string
    requires InRange(cut)
  {
    if maxLength <= 0 then ""
    else
      var s := Strip(text);
      if |s| <= maxLength then s
      else if maxLength <= 1 then [ELLIPSIS][..maxLength]
      else
        Strip(RStrip(s[..cut(s, maxLength - 1)]) + [ELLIPSIS])
  }

  /** Text that fits is only trimmed; otherwise a visible beginning of it stays, and an ellipsis. */
  lemma TruncateShape(cut: Cut, text: string, maxLength: int)
    requires InRange(cut) && 0 < maxLength
    ensures var s, t := Strip(text), Truncate(cut, text, maxLength);
            && |t| <= maxLength && IsTrimmed(t)
            && (|s| <= maxLength ==> t == s)
            && (|s| > maxLength ==> t != "" && t[|t| - 1] == ELLIPSIS && t[..|t| - 1] <= s && IsTrimmed(t[..|t| - 1]))
            && (|s| > maxLength > 1 ==> |t| > 1)
  {
    var s := Strip(text);
    SpaceFacts();
    if |s| > maxLength && maxLength > 1 {
      var left := s[..cut(s, maxLength - 1)];
      RStripKeepsFirst(left);
      EllipsisSticks(RStrip(left));
    }
  }

  lemma EllipsisSticks(kept: string)
    requires kept != "" && IsTrimmed(kept)
    ensures Strip(kept + [ELLIPSIS]) == kept + [ELLIPSIS] && (kept + [ELLIPSIS])[..|kept|] == kept
  {
    SpaceFacts();
    StripFixpoint(kept + [ELLIPSIS]);
  }

  // ---------------------------------------------------------------- splitting

  function Piece(cut: Cut, text: string, maxLength: nat): string
    requires InRange(cut) && 0 < maxLength < |text| && IsTrimmed(text)
  {
    Strip(text[..cut(text, maxLength)])
  }

  function Rest(cut: Cut, text: string, maxLength: nat): string
    requires InRange(cut) && 0 < maxLength < |text| && IsTrimmed(text)
  {
    Strip(text[cut(text, maxLength)..])
  }

  /** One split: a non-empty piece that fits, a shorter non-empty rest, and only white space dropped in between. */
  lemma SplitOnce(cut: Cut, text: string, maxLength: nat)
    requires InRange(cut) && 0 < maxLength < |text| && IsTrimmed(text)
    ensures var p, r := Piece(cut, text, maxLength), Rest(cut, text, maxLength);
            && 1 <= |p| <= maxLength && IsTrimmed(p) && 1 <= |r| < |text| && IsTrimmed(r)
            && |p| + |r| <= |text|
            && var gap := text[|p|..|text| - |r|]; IsBlank(gap) && text == p + gap + r
  {
    var idx := cut(text, maxLength);
    var a, b := text[..idx], text[idx..];
    StripKeepsFirst(a);
    StripKeepsLast(b);
    JoinGap(text, idx, |Strip(a)|, |text| - |Strip(b)|);
  }

  lemma JoinGap(text: string, idx: nat, i: nat, j: nat)
    requires i <= idx <= j <= |text|
    requires IsBlank(text[..idx][i..]) && IsBlank(text[idx..][..j - idx])
    ensures IsBlank(text[i..j]) && text == text[..idx][..i] + text[i..j] + text[idx..][j - idx..]
  {
    assert forall k :: i <= k < idx ==> text[k] == text[..idx][i..][k - i];
    assert forall k :: idx <= k < j ==> text[k] == text[idx..][..j - idx][k - idx];
  }

  /** The chunks of a trimmed text; a budget limits their number, and its last chunk swallows the remainder. */
  function Chunks(cut: Cut, text: string, maxLength: nat, budget: Option<nat>): seq<string>
    requires InRange(cut) && 0 < maxLength && IsTrimmed(text) && (budget.Some? ==> 0 < budget.value)
    decreases |text|
  {
    if text == "" then []
    else if |text| <= maxLength then [text]
    else
      SplitOnce(cut, text, maxLength);
      if budget == Some(1) then
        [Truncate(cut, Piece(cut, text, maxLength) + " " + Rest(cut, text, maxLength), maxLength)]
      else
        [Piece(cut, text, maxLength)] +
        Chunks(cut, Rest(cut, text, maxLength), maxLength, if budget.None? then None else Some(budget.value - 1))
  }

  function Chunked(cut: Cut, message: string, maxLength: int, maxChunks: Option<int>): seq<string>
    requires InRange(cut)
  {
    var text := Strip(message);
    if text == "" then []
    else if maxLength <= 0 || |text| <= maxLength then [text]
    else if maxChunks.None? then Chunks(cut, text, maxLength, None)
    else if maxChunks.value <= 1 then [Truncate(cut, text, maxLength)]
    else if maxChunks.value == 2 then
      var right := Rest(cut, text, maxLength);
      [Piece(cut, text, maxLength), if |right| > maxLength then Truncate(cut, right, maxLength) else right]
    else Chunks(cut, text, maxLength, Some(maxChunks.value))
  }

  /** Splitting off one piece, unless it is the last one the budget allows. */
  lemma ChunksStep(cut: Cut, text: string, maxLength: nat, budget: Option<nat>)
    requires InRange(cut) && 0 < maxLength < |text| && IsTrimmed(text)
    requires budget.Some? ==> 1 < budget.value
    ensures IsTrimmed(Rest(cut, text, maxLength)) && 1 <= |Rest(cut, text, maxLength)| < |text|
    ensures Chunks(cut, text, maxLength, budget) ==
            [Piece(cut, text, maxLength)] +
            Chunks(cut, Rest(cut, text, maxLength), maxLength,
                   if budget.None? then None else Some(budget.value - 1))
  {
    SplitOnce(cut, text, maxLength);
  }

  lemma ChunksLast(cut: Cut, text: string, maxLength: nat)
    requires InRange(cut) && 0 < maxLength < |text| && IsTrimmed(text)
    ensures 1 <= |Rest(cut, text, maxLength)|
    ensures Chunks(cut, text, maxLength, Some(1)) ==
            [Truncate(cut, Piece(cut, text, maxLength) + " " + Rest(cut, text, maxLength), maxLength)]
  {
    SplitOnce(cut, text, maxLength);
  }

  method SplitAtBreak(cut: Cut, text: string, maxLength: nat) returns (piece: string, rest: string)
    requires InRange(cut) && 0 < maxLength < |text| && IsTrimmed(text)
    ensures piece == Piece(cut, text, maxLength) && rest == Rest(cut, text, maxLength)
    ensures piece != "" && rest != "" && |rest| < |text| && IsTrimmed(rest)
  {
    SplitOnce(cut, text, maxLength);
    var idx := cut(text, maxLength);
    piece := Strip(text[..idx]);
    rest := Strip(text[idx..]);
  }

  /** One more piece in front of what is still to be chunked. */
  lemma LoopStep(cut: Cut, done: seq<string>, text: string, maxLength: nat, budget: Option<nat>, goal: seq<string>)
    requires InRange(cut) && 0 < maxLength < |text| && IsTrimmed(text)
    requires budget.Some? ==> 0 < budget.value
    requires done + Chunks(cut, text, maxLength, budget) == goal
    ensures IsTrimmed(Rest(cut, text, maxLength))
    ensures budget == Some(1) ==>
              done + [Truncate(cut, Piece(cut, text, maxLength) + " " + Rest(cut, text, maxLength), maxLength)] == goal
    ensures budget != Some(1) ==>
              done + [Piece(cut, text, maxLength)] +
              Chunks(cut, Rest(cut, text, maxLength), maxLength,
                     if budget.None? then None else Some(budget.value - 1)) == goal
  {
    if budget == Some(1) {
      ChunksLast(cut, text, maxLength);
    } else {
      ChunksStep(cut, text, maxLength, budget);
    }
  }

  /** The loop of the chunker. Its fallback for an empty piece is dead code: `SplitAtBreak` never returns one. */
  method SplitLoop(cut: Cut, text: string, maxLength: nat, maxChunks: Option<int>) returns (chunks: seq<string>)
    requires InRange(cut) && 0 < maxLength < |text| && IsTrimmed(text) && (maxChunks.Some? ==> 2 < maxChunks.value)
    ensures chunks == Chunks(cut, text, maxLength, if maxChunks.None? then None else Some(maxChunks.value))
    ensures maxChunks.None? ==> exists texts :: AllBroken(cut, text, texts, chunks, maxLength, None)
    ensures maxChunks.Some? ==> exists texts :: AllBroken(cut, text, texts, chunks, maxLength, Some(maxChunks.value))
  {
    ghost var texts := ChunksBroken(cut, text, maxLength, if maxChunks.None? then None else Some(maxChunks.value));
    chunks := [];
    var remaining := text;
    ghost var budget: Option<nat> := if maxChunks.None? then None else Some(maxChunks.value);
    ghost var goal := Chunks(cut, text, maxLength, budget);
    while remaining != ""
      invariant IsTrimmed(remaining) && remaining != ""
      invariant budget.Some? <==> maxChunks.Some?
      invariant budget.Some? ==> 0 < budget.value == maxChunks.value - |chunks|
      invariant chunks + Chunks(cut, remaining, maxLength, budget) == goal
      decreases |remaining|
    {
      if |remaining| <= maxLength {
        chunks := chunks + [remaining];
        break;
      }
      LoopStep(cut, chunks, remaining, maxLength, budget, goal);
      var piece, rest := SplitAtBreak(cut, remaining, maxLength);
      if maxChunks.Some? && |chunks| + 1 >= maxChunks.value {
        assert budget.value == 1;
        chunks := chunks + [Truncate(cut, piece + " " + rest, maxLength)];
        break;
      }
      budget := if budget.None? then None else Some(budget.value - 1);
      chunks := chunks + [piece];
      remaining := rest;
    }
  }

  method SplitInTwo(cut: Cut, text: string, maxLength: nat) returns (chunks: seq<string>)
    requires InRange(cut) && 0 < maxLength < |text| && IsTrimmed(text)
    ensures chunks == Chunked(cut, text, maxLength, Some(2))
  {
    var left, right := SplitAtBreak(cut, text, maxLength);
    StripFixpoint(text);
    if |right| > maxLength {
      right := Truncate(cut, right, maxLength);
    }
    chunks := [left, right];
  }

  method SplitMessage(cut: Cut, message: string, maxLength: int, maxChunks: Option<int>) returns (chunks: seq<string>)
    requires InRange(cut)
    ensures chunks == Chunked(cut, message, maxLength, maxChunks)
  {
    var text := Strip(message);
    if text == "" {
      return [];
    }
    if maxLength <= 0 || |text| <= maxLength {
      return [text];
    }
    if maxChunks.Some? && maxChunks.value <= 1 {
      return [Truncate(cut, text, maxLength)];
    }
    if maxChunks == Some(2) {
      StripIdempotent(message);
      chunks := SplitInTwo(cut, text, maxLength);
      return;
    }
    chunks := SplitLoop(cut, text, maxLength, maxChunks);
    ChunksFit(cut, text, maxLength, if maxChunks.None? then None else Some(maxChunks.value));
    assert forall i :: 0 <= i < |chunks| ==> chunks[i] in chunks;
    DropEmptyKeepsAll(chunks);
    chunks := DropEmpty(chunks);
  }

  function DropEmpty(cs: seq<string>): seq<string> {
    if cs == [] then [] else (if cs[0] == "" then [] else [cs[0]]) + DropEmpty(cs[1..])
  }

  lemma {:induction false} DropEmptyKeepsAll(cs: seq<string>)
    requires forall i :: 0 <= i < |cs| ==> cs[i] != ""
    ensures DropEmpty(cs) == cs
  {
    if cs != [] {
      DropEmptyKeepsAll(cs[1..]);
      assert cs == [cs[0]] + cs[1..];
    }
  }

  // ---------------------------------------------------------------- length and number

  ghost predicate Fits(c: string, maxLength: int) {
    1 <= |c| <= maxLength && IsTrimmed(c)
  }

  lemma TruncateFits(cut: Cut, text: string, maxLength: nat)
    requires InRange(cut) && 0 < maxLength && text != "" && !IsSpace(text[0])
    ensures Fits(Truncate(cut, text, maxLength), maxLength)
  {
    TruncateShape(cut, text, maxLength);
    StripKeepsFirst(text);
  }

  lemma {:induction false} ChunksFit(cut: Cut, text: string, maxLength: nat, budget: Option<nat>)
    requires InRange(cut) && 0 < maxLength && IsTrimmed(text) && (budget.Some? ==> 0 < budget.value)
    ensures forall c <- Chunks(cut, text, maxLength, budget) :: Fits(c, maxLength)
    ensures budget.Some? ==> |Chunks(cut, text, maxLength, budget)| <= budget.value
    ensures text != "" ==> Chunks(cut, text, maxLength, budget) != []
    decreases |text|
  {
    if |text| > maxLength {
      SplitOnce(cut, text, maxLength);
      var p, r := Piece(cut, text, maxLength), Rest(cut, text, maxLength);
      if budget == Some(1) {
        TruncateFits(cut, p + " " + r, maxLength);
      } else {
        ChunksFit(cut, r, maxLength, if budget.None? then None else Some(budget.value - 1));
      }
    }
  }

  lemma LimitedChunksFit(cut: Cut, text: string, maxLength: nat, maxChunks: int)
    requires InRange(cut) && 0 < maxLength < |text| && IsTrimmed(text)
    ensures forall c <- Chunked(cut, text, maxLength, Some(maxChunks)) :: Fits(c, maxLength)
    ensures 1 <= maxChunks ==> |Chunked(cut, text, maxLength, Some(maxChunks))| <= maxChunks
  {
    StripFixpoint(text);
    if maxChunks <= 1 {
      TruncateFits(cut, text, maxLength);
    } else if maxChunks == 2 {
      TwoChunksFit(cut, text, maxLength);
    } else {
      ChunksFit(cut, text, maxLength, Some(maxChunks));
    }
  }

  lemma TwoChunksFit(cut: Cut, text: string, maxLength: nat)
    requires InRange(cut) && 0 < maxLength < |text| && IsTrimmed(text)
    ensures var r := Rest(cut, text, maxLength);
            && Fits(Piece(cut, text, maxLength), maxLength)
            && Fits(if |r| > maxLength then Truncate(cut, r, maxLength) else r, maxLength)
  {
    SplitOnce(cut, text, maxLength);
    TruncateFits(cut, Rest(cut, text, maxLength), maxLength);
  }

  /** Every chunk has 1..maxLength characters and no white space at its ends; a positive maxChunks is respected. */
  lemma ChunkBounds(cut: Cut, message: string, maxLength: int, maxChunks: Option<int>)
    requires InRange(cut) && 1 <= maxLength
    ensures forall c <- Chunked(cut, message, maxLength, maxChunks) :: Fits(c, maxLength)
    ensures maxChunks.Some? && 1 <= maxChunks.value ==>
              |Chunked(cut, message, maxLength, maxChunks)| <= maxChunks.value
  {
    var text := Strip(message);
    if |text| > maxLength {
      if maxChunks.None? {
        ChunksFit(cut, text, maxLength, None);
      } else {
        StripIdempotent(message);
        LimitedChunksFit(cut, text, maxLength, maxChunks.value);
      }
    }
  }

  // ---------------------------------------------------------------- nothing visible is lost

  function Weave(chunks: seq<string>, gaps: seq<string>): string
    requires |gaps| + 1 >= |chunks|
  {
    if chunks == [] then ""
    else if |chunks| == 1 then chunks[0]
    else chunks[0] + gaps[0] + Weave(chunks[1..], gaps[1..])
  }

  lemma {:induction false} ChunksWeave(cut: Cut, text: string, maxLength: nat) returns (gaps: seq<string>)
    requires InRange(cut) && 0 < maxLength && IsTrimmed(text)
    ensures |gaps| + 1 >= |Chunks(cut, text, maxLength, None)| && (forall g <- gaps :: IsBlank(g))
    ensures Weave(Chunks(cut, text, maxLength, None), gaps) == text
    decreases |text|
  {
    gaps := [];
    if |text| > maxLength {
      SplitOnce(cut, text, maxLength);
      var rest := Rest(cut, text, maxLength);
      ChunksFit(cut, rest, maxLength, None);
      var more := ChunksWeave(cut, rest, maxLength);
      var p := Piece(cut, text, maxLength);
      gaps := [text[|p|..|text| - |rest|]] + more;
      var cs := Chunks(cut, text, maxLength, None);
      assert cs[1..] == Chunks(cut, rest, maxLength, None) && gaps[1..] == more;
    }
  }

  /** Without a limit on their number, the chunks and white-space gaps between them make up the trimmed message. */
  lemma ChunkingIsLossless(cut: Cut, message: string, maxLength: int) returns (gaps: seq<string>)
    requires InRange(cut) && 1 <= maxLength
    ensures var chunks := Chunked(cut, message, maxLength, None);
            && |gaps| + 1 >= |chunks| && (forall g <- gaps :: IsBlank(g))
            && Weave(chunks, gaps) == Strip(message)
  {
    gaps := [];
    if |Strip(message)| > maxLength {
      gaps := ChunksWeave(cut, Strip(message), maxLength);
    }
  }

  function Concat(chunks: seq<string>): string {
    if chunks == [] then "" else chunks[0] + Concat(chunks[1..])
  }

  lemma {:induction false} WeaveInk(chunks: seq<string>, gaps: seq<string>)
    requires |gaps| + 1 >= |chunks| && forall g <- gaps :: IsBlank(g)
    ensures Ink(Weave(chunks, gaps)) == Ink(Concat(chunks))
  {
    if |chunks| == 1 {
      assert Concat(chunks[1..]) == "" && Concat(chunks) == chunks[0];
    } else if chunks != [] {
      assert gaps[0] in gaps && forall g <- gaps[1..] :: g in gaps;
      WeaveInk(chunks[1..], gaps[1..]);
      InkConcat(chunks[0] + gaps[0], Weave(chunks[1..], gaps[1..]));
      InkConcat(chunks[0], gaps[0]);
      InkBlank(gaps[0]);
      InkConcat(chunks[0], Concat(chunks[1..]));
    }
  }

  /** Every visible character of the message is in the chunks, once and in order. */
  lemma ChunkingKeepsInk(cut: Cut, message: string, maxLength: int)
    requires InRange(cut) && 1 <= maxLength
    ensures Ink(Concat(Chunked(cut, message, maxLength, None))) == Ink(message)
  {
    var gaps := ChunkingIsLossless(cut, message, maxLength);
    WeaveInk(Chunked(cut, message, maxLength, None), gaps);
    InkStrip(message);
  }

  // ---------------------------------------------------------------- a limit changes only the last chunk

  /** The text left after n splits. */
  function Remainder(cut: Cut, text: string, maxLength: nat, n: nat): string
    requires InRange(cut) && 0 < maxLength && IsTrimmed(text)
    decreases n
  {
    if n == 0 || |text| <= maxLength then text else Remainder(cut, Rest(cut, text, maxLength), maxLength, n - 1)
  }

  ghost predicate Agrees(all: seq<string>, some: seq<string>, k: nat) {
    if |all| <= k then some == all else 0 < k == |some| && some[..k - 1] == all[..k - 1]
  }

  /** A limited list: the unlimited one, or as many chunks as allowed, the last one with the remainder cut to fit. */
  ghost predicate Limited(cut: Cut, all: seq<string>, some: seq<string>, k: nat, remainder: string, maxLength: nat)
    requires InRange(cut)
  {
    && Agrees(all, some, k)
    && (|all| > k > 0 ==> some[k - 1] == Truncate(cut, all[k - 1] + " " + remainder, maxLength))
  }

  lemma LimitedCons(cut: Cut, p: string, all: seq<string>, some: seq<string>, k: nat, remainder: string, maxLength: nat)
    requires InRange(cut) && Limited(cut, all, some, k, remainder, maxLength) && 0 < k
    ensures Limited(cut, [p] + all, [p] + some, k + 1, remainder, maxLength)
  {
    if |all| > k {
      assert ([p] + some)[..k] == [p] + some[..k - 1];
      assert ([p] + all)[..k] == [p] + all[..k - 1];
      assert ([p] + some)[k] == some[k - 1] && ([p] + all)[k] == all[k - 1];
    }
  }

  lemma BudgetOneAgrees(cut: Cut, text: string, maxLength: nat)
    requires InRange(cut) && 0 < maxLength < |text| && IsTrimmed(text)
    ensures Limited(cut, Chunks(cut, text, maxLength, None), Chunks(cut, text, maxLength, Some(1)), 1,
                    Remainder(cut, text, maxLength, 1), maxLength)
  {
    ChunksStep(cut, text, maxLength, None);
    var r := Rest(cut, text, maxLength);
    ChunksLast(cut, text, maxLength);
    ChunksFit(cut, r, maxLength, None);
    assert Remainder(cut, text, maxLength, 1) == Remainder(cut, r, maxLength, 0) == r;
    var all, some := Chunks(cut, text, maxLength, None), Chunks(cut, text, maxLength, Some(1));
    assert some[..0] == all[..0] && all[0] == Piece(cut, text, maxLength);
  }

  lemma ShortAgrees(cut: Cut, text: string, maxLength: nat, k: nat)
    requires InRange(cut) && 0 < maxLength && |text| <= maxLength && IsTrimmed(text) && 0 < k
    ensures Limited(cut, Chunks(cut, text, maxLength, None), Chunks(cut, text, maxLength, Some(k)), k,
                    Remainder(cut, text, maxLength, k), maxLength)
  {
  }

  lemma BudgetManyAgrees(cut: Cut, text: string, maxLength: nat, k: nat)
    requires InRange(cut) && 0 < maxLength < |text| && IsTrimmed(text) && 1 < k
    requires var r := Rest(cut, text, maxLength);
             && IsTrimmed(r)
             && Limited(cut, Chunks(cut, r, maxLength, None), Chunks(cut, r, maxLength, Some(k - 1)), k - 1,
                        Remainder(cut, r, maxLength, k - 1), maxLength)
    ensures Limited(cut, Chunks(cut, text, maxLength, None), Chunks(cut, text, maxLength, Some(k)), k,
                    Remainder(cut, text, maxLength, k), maxLength)
  {
    var r := Rest(cut, text, maxLength);
    ChunksStep(cut, text, maxLength, None);
    ChunksStep(cut, text, maxLength, Some(k));
    LimitedCons(cut, Piece(cut, text, maxLength), Chunks(cut, r, maxLength, None),
                Chunks(cut, r, maxLength, Some(k - 1)), k - 1, Remainder(cut, r, maxLength, k - 1), maxLength);
  }

  lemma {:induction false} BudgetAgrees(cut: Cut, text: string, maxLength: nat, k: nat)
    requires InRange(cut) && 0 < maxLength && IsTrimmed(text) && 0 < k
    ensures Limited(cut, Chunks(cut, text, maxLength, None), Chunks(cut, text, maxLength, Some(k)), k,
                    Remainder(cut, text, maxLength, k), maxLength)
    decreases |text|
  {
    if |text| <= maxLength {
      ShortAgrees(cut, text, maxLength, k);
    } else if k == 1 {
      BudgetOneAgrees(cut, text, maxLength);
    } else {
      ChunksStep(cut, text, maxLength, None);
      BudgetAgrees(cut, Rest(cut, text, maxLength), maxLength, k - 1);
      BudgetManyAgrees(cut, text, maxLength, k);
    }
  }

  lemma TwoChunksAgree(cut: Cut, text: string, maxLength: nat)
    requires InRange(cut) && 0 < maxLength < |text| && IsTrimmed(text)
    ensures var r := Rest(cut, text, maxLength);
            Agrees(Chunks(cut, text, maxLength, None),
                   [Piece(cut, text, maxLength), if |r| > maxLength then Truncate(cut, r, maxLength) else r], 2)
  {
    ChunksStep(cut, text, maxLength, None);
    var r := Rest(cut, text, maxLength);
    if |r| > maxLength {
      ChunksStep(cut, r, maxLength, None);
      ChunksFit(cut, Rest(cut, r, maxLength), maxLength, None);
    }
  }

  /** A limit of two or more changes nothing if the chunks are few enough, else only the last chunk it allows. */
  lemma LimitChangesOnlyTheLast(cut: Cut, message: string, maxLength: int, k: int)
    requires InRange(cut) && 1 <= maxLength && 2 <= k
    ensures Agrees(Chunked(cut, message, maxLength, None), Chunked(cut, message, maxLength, Some(k)), k)
  {
    var text := Strip(message);
    if |text| > maxLength {
      if k == 2 {
        TwoChunksAgree(cut, text, maxLength);
      } else {
        BudgetAgrees(cut, text, maxLength, k);
      }
    }
  }

  // ---------------------------------------------------------------- where the breaks are

  /** `left` and `right` are what stands on the two sides of `idx`, without the white space around it. */
  ghost predicate CutAt(text: string, idx: nat, left: string, right: string) {
    && |left| <= idx <= |text| - |right| && IsTrimmed(left) && IsTrimmed(right)
    && text[..|left|] == left && IsBlank(text[|left|..idx])
    && text[|text| - |right|..] == right && IsBlank(text[idx..|text| - |right|])
  }

  /** A text that fits as it is; otherwise its part before the break that leaves room for an ellipsis, and that. */
  ghost predicate Shortened(cut: Cut, text: string, maxLength: nat, t: string) {
    if |text| <= maxLength then t == text
    else
      && t != "" && t[|t| - 1] == ELLIPSIS
      && var kept := t[..|t| - 1];
      if maxLength <= 1 then kept == ""
      else
        var idx := cut(text, maxLength - 1);
        |kept| <= idx <= |text| && text[..|kept|] == kept && IsTrimmed(kept) && IsBlank(text[|kept|..idx])
  }

  /** The last of many chunks holds all of what is left, cut to fit with a single space at the next break. */
  ghost predicate Joined(cut: Cut, text: string, maxLength: nat, t: string) {
    exists left, right ::
      CutAt(text, cut(text, maxLength), left, right) && Shortened(cut, left + " " + right, maxLength, t)
  }

  ghost predicate BrokenAt(cut: Cut, text: string, maxLength: nat, left: string, right: string) {
    maxLength < |text| && CutAt(text, cut(text, maxLength), left, right) && right != ""
  }

  /** Text i of `texts` is what is left after i chunks; every chunk but the last ends at its break. */
  ghost predicate BrokenUp(cut: Cut, texts: seq<string>, chunks: seq<string>, maxLength: nat) {
    && |texts| == |chunks|
    && (forall i :: 0 <= i < |chunks| - 1 ==> BrokenAt(cut, texts[i], maxLength, chunks[i], texts[i + 1]))
  }

  lemma TruncateShortens(cut: Cut, text: string, maxLength: nat)
    requires InRange(cut) && 0 < maxLength && IsTrimmed(text)
    ensures Shortened(cut, text, maxLength, Truncate(cut, text, maxLength))
  {
    StripFixpoint(text);
    if 1 < maxLength < |text| {
      var idx := cut(text, maxLength - 1);
      var kept := RStrip(text[..idx]);
      RStripKeepsFirst(text[..idx]);
      EllipsisSticks(kept);
      assert text[..idx][|kept|..] == text[|kept|..idx] && text[..idx][..|kept|] == text[..|kept|];
    }
  }

  lemma CutParts(text: string, idx: nat, left: string, right: string)
    requires |left| <= idx <= |text| - |right| && IsTrimmed(left) && IsTrimmed(right)
    requires left <= text[..idx] && IsBlank(text[..idx][|left|..])
    requires var b := text[idx..]; right == b[|b| - |right|..] && IsBlank(b[..|b| - |right|])
    ensures CutAt(text, idx, left, right)
  {
    var i, j := |left|, |text| - |right|;
    assert text[..i] == text[..idx][..i] && text[i..idx] == text[..idx][i..];
    assert text[j..] == text[idx..][j - idx..] && text[idx..j] == text[idx..][..j - idx];
  }

  lemma SplitCutsAt(cut: Cut, text: string, maxLength: nat)
    requires InRange(cut) && 0 < maxLength < |text| && IsTrimmed(text)
    ensures CutAt(text, cut(text, maxLength), Piece(cut, text, maxLength), Rest(cut, text, maxLength))
  {
    var idx := cut(text, maxLength);
    StripKeepsFirst(text[..idx]);
    StripKeepsLast(text[idx..]);
    CutParts(text, idx, Strip(text[..idx]), Strip(text[idx..]));
  }

  lemma BrokenCons(cut: Cut, text: string, p: string, texts: seq<string>, chunks: seq<string>, maxLength: nat)
    requires BrokenUp(cut, texts, chunks, maxLength) && chunks != []
    requires BrokenAt(cut, text, maxLength, p, texts[0])
    ensures BrokenUp(cut, [text] + texts, [p] + chunks, maxLength)
  {
    var ts, cs := [text] + texts, [p] + chunks;
    forall i | 0 <= i < |cs| - 1 ensures BrokenAt(cut, ts[i], maxLength, cs[i], ts[i + 1]) {
      if i > 0 {
        assert ts[i] == texts[i - 1] && ts[i + 1] == texts[i] && cs[i] == chunks[i - 1];
      }
    }
  }

  lemma JoinedFits(cut: Cut, text: string, maxLength: nat)
    requires InRange(cut) && 0 < maxLength < |text| && IsTrimmed(text)
    ensures Chunks(cut, text, maxLength, Some(1)) != []
    ensures Joined(cut, text, maxLength, Chunks(cut, text, maxLength, Some(1))[0])
  {
    var p, r := Piece(cut, text, maxLength), Rest(cut, text, maxLength);
    ChunksLast(cut, text, maxLength);
    SplitOnce(cut, text, maxLength);
    SplitCutsAt(cut, text, maxLength);
    TruncateShortens(cut, p + " " + r, maxLength);
  }

  /** The chunks of a text under a budget: all broken up, and the last one holds what is left, or its beginning. */
  ghost predicate AllBroken(cut: Cut, text: string, texts: seq<string>, chunks: seq<string>, maxLength: nat,
                            budget: Option<nat>) {
    && chunks != [] && BrokenUp(cut, texts, chunks, maxLength) && texts[0] == text
    && var n := |chunks|;
    if |texts[n - 1]| <= maxLength then chunks[n - 1] == texts[n - 1]
    else budget == Some(n) && Joined(cut, texts[n - 1], maxLength, chunks[n - 1])
  }

  lemma BrokenStep(cut: Cut, text: string, p: string, r: string, texts: seq<string>, chunks: seq<string>,
                   maxLength: nat, budget: Option<nat>)
    requires budget.Some? ==> 1 < budget.value
    requires AllBroken(cut, r, texts, chunks, maxLength, if budget.None? then None else Some(budget.value - 1))
    requires BrokenAt(cut, text, maxLength, p, r)
    ensures AllBroken(cut, text, [text] + texts, [p] + chunks, maxLength, budget)
  {
    BrokenCons(cut, text, p, texts, chunks, maxLength);
    var ts, cs, n := [text] + texts, [p] + chunks, |chunks|;
    assert ts[n] == texts[n - 1] && cs[n] == chunks[n - 1];
  }

  lemma SplitBreaks(cut: Cut, text: string, maxLength: nat)
    requires InRange(cut) && 0 < maxLength < |text| && IsTrimmed(text)
    ensures BrokenAt(cut, text, maxLength, Piece(cut, text, maxLength), Rest(cut, text, maxLength))
  {
    SplitOnce(cut, text, maxLength);
    SplitCutsAt(cut, text, maxLength);
  }

  lemma {:induction false} ChunksBroken(cut: Cut, text: string, maxLength: nat, budget: Option<nat>)
    returns (texts: seq<string>)
    requires InRange(cut) && 0 < maxLength && IsTrimmed(text) && text != "" && (budget.Some? ==> 0 < budget.value)
    ensures AllBroken(cut, text, texts, Chunks(cut, text, maxLength, budget), maxLength, budget)
    decreases |text|
  {
    texts := [text];
    if |text| > maxLength {
      if budget == Some(1) {
        ChunksLast(cut, text, maxLength);
        JoinedFits(cut, text, maxLength);
      } else {
        ChunksStep(cut, text, maxLength, budget);
        var p, r := Piece(cut, text, maxLength), Rest(cut, text, maxLength);
        var less: Option<nat> := if budget.None? then None else Some(budget.value - 1);
        var more := ChunksBroken(cut, r, maxLength, less);
        SplitBreaks(cut, text, maxLength);
        BrokenStep(cut, text, p, r, more, Chunks(cut, r, maxLength, less), maxLength, budget);
        texts := [text] + more;
      }
    }
  }

  /** The last chunk, given what is left for it and the limit on the number of chunks. */
  ghost predicate EndsWith(cut: Cut, text: string, maxLength: nat, maxChunks: Option<int>, n: nat, last: string) {
    if |text| <= maxLength then last == text
    else
      && maxChunks.Some? && n == Max(1, maxChunks.value)
      && if n <= 2 then Shortened(cut, text, maxLength, last) else Joined(cut, text, maxLength, last)
  }

  lemma TwoChunksBroken(cut: Cut, text: string, maxLength: nat)
    requires InRange(cut) && 0 < maxLength < |text| && IsTrimmed(text)
    ensures var chunks := Chunked(cut, text, maxLength, Some(2));
            && |chunks| == 2 && BrokenUp(cut, [text, Rest(cut, text, maxLength)], chunks, maxLength)
            && EndsWith(cut, Rest(cut, text, maxLength), maxLength, Some(2), 2, chunks[1])
  {
    var r := Rest(cut, text, maxLength);
    StripFixpoint(text);
    SplitCutsAt(cut, text, maxLength);
    TruncateShortens(cut, r, maxLength);
  }

  /**
   * Where every chunk ends, for any limits: each chunk that is followed by another one is what stands before the break
   * of the text left at that point, and the next one begins after it. The last one is all that is left, or its
   * beginning if the number of chunks is used up.
   */
  lemma ChunksEndAtBreaks(cut: Cut, message: string, maxLength: int, maxChunks: Option<int>)
    returns (texts: seq<string>)
    requires InRange(cut) && 1 <= maxLength && Strip(message) != ""
    ensures var chunks := Chunked(cut, message, maxLength, maxChunks);
            && chunks != [] && BrokenUp(cut, texts, chunks, maxLength) && texts[0] == Strip(message)
            && EndsWith(cut, texts[|texts| - 1], maxLength, maxChunks, |chunks|, chunks[|chunks| - 1])
  {
    var text := Strip(message);
    StripIdempotent(message);
    texts := [text];
    if |text| > maxLength {
      if maxChunks.None? {
        texts := ChunksBroken(cut, text, maxLength, None);
      } else if maxChunks.value <= 1 {
        TruncateShortens(cut, text, maxLength);
      } else if maxChunks.value == 2 {
        TwoChunksBroken(cut, text, maxLength);
        texts := [text, Rest(cut, text, maxLength)];
      } else {
        texts := ChunksBroken(cut, text, maxLength, Some(maxChunks.value));
      }
    }
  }

  // ---------------------------------------------------------------- the chunker as shipped

  /** The chunk stands before the break index, and splits no word unless no space or newline is near. */
  ghost predicate BreakOk(text: string, maxLength: nat, left: string, right: string) {
    && maxLength < |text|
    && var idx := BreakIndex.FindBreakIndex(text, maxLength);
    && CutAt(text, idx, left, right) && right != ""
    && (text[idx] in ['\n', ' '] || forall k :: 0 <= k <= maxLength ==> text[k] !in ['\n', ' '])
  }

  /**
   * The chunks of the shipped chunker: each one but the last stands before the break index of what is left, and splits
   * no word unless the next maxLength + 1 characters hold neither a space nor a newline.
   */
  ghost predicate BreaksWell(texts: seq<string>, chunks: seq<string>, maxLength: nat) {
    && |texts| == |chunks|
    && forall i :: 0 <= i < |chunks| - 1 ==> BreakOk(texts[i], maxLength, chunks[i], texts[i + 1])
  }

  /** All of it: the first text is the message, the breaks are good, and the last chunk is what it should be. */
  ghost predicate WellChunked(texts: seq<string>, chunks: seq<string>, message: string, maxLength: nat,
                              maxChunks: Option<int>) {
    && chunks != [] && BreaksWell(texts, chunks, maxLength) && texts[0] == Strip(message)
    && EndsWith(FIND_BREAK, texts[|texts| - 1], maxLength, maxChunks, |chunks|, chunks[|chunks| - 1])
  }

  lemma ShippedBreakOk(text: string, maxLength: nat, left: string, right: string)
    requires BrokenAt(FIND_BREAK, text, maxLength, left, right) && 0 < maxLength && IsTrimmed(text)
    ensures BreakOk(text, maxLength, left, right)
  {
    BreakIndex.BreakInRange(text, maxLength);
  }

  lemma TextsAreTrimmed(cut: Cut, texts: seq<string>, chunks: seq<string>, maxLength: nat, i: nat)
    requires BrokenUp(cut, texts, chunks, maxLength) && i < |chunks| && IsTrimmed(texts[0])
    ensures IsTrimmed(texts[i])
  {
    if i > 0 {
      assert BrokenAt(cut, texts[i - 1], maxLength, chunks[i - 1], texts[i - 1 + 1]);
    }
  }

  lemma BrokenUpBreaksWell(texts: seq<string>, chunks: seq<string>, maxLength: nat)
    requires BrokenUp(FIND_BREAK, texts, chunks, maxLength) && chunks != [] && 0 < maxLength && IsTrimmed(texts[0])
    ensures BreaksWell(texts, chunks, maxLength)
  {
    forall i | 0 <= i < |chunks| - 1 ensures BreakOk(texts[i], maxLength, chunks[i], texts[i + 1]) {
      TextsAreTrimmed(FIND_BREAK, texts, chunks, maxLength, i);
      ShippedBreakOk(texts[i], maxLength, chunks[i], texts[i + 1]);
    }
  }

  lemma ShippedChunksBreakWell(message: string, maxLength: int, maxChunks: Option<int>) returns (texts: seq<string>)
    requires InRange(FIND_BREAK) && 1 <= maxLength && Strip(message) != ""
    ensures WellChunked(texts, Chunked(FIND_BREAK, message, maxLength, maxChunks), message, maxLength, maxChunks)
  {
    texts := ChunksEndAtBreaks(FIND_BREAK, message, maxLength, maxChunks);
    BrokenUpBreaksWell(texts, Chunked(FIND_BREAK, message, maxLength, maxChunks), maxLength);
  }

  method ChunkMessage(message: string, maxLength: int, maxChunks: Option<int>) returns (chunks: seq<string>)
    ensures InRange(FIND_BREAK) && chunks == Chunked(FIND_BREAK, message, maxLength, maxChunks)
    ensures 1 <= maxLength ==> forall c <- chunks :: Fits(c, maxLength)
    ensures 1 <= maxLength && maxChunks.Some? && 1 <= maxChunks.value ==> |chunks| <= maxChunks.value
    ensures 1 <= maxLength && maxChunks.None? ==> Ink(Concat(chunks)) == Ink(message)
    ensures chunks == [] <==> Strip(message) == ""
    ensures 1 <= maxLength && chunks != [] ==>
              exists texts :: WellChunked(texts, chunks, message, maxLength, maxChunks)
    ensures maxLength <= 0 && chunks != [] ==> chunks == [Strip(message)]
  {
    FindBreakInRange();
    chunks := SplitMessage(FIND_BREAK, message, maxLength, maxChunks);
    if 1 <= maxLength {
      ChunkBounds(FIND_BREAK, message, maxLength, maxChunks);
      ChunkingKeepsInk(FIND_BREAK, message, maxLength);
      if Strip(message) != "" {
        var texts := ShippedChunksBreakWell(message, maxLength, maxChunks);
      }
    }
  }
}
