/**
 * The execution agent's reasoning loop with its flow guards. The language model and the tools are arbitrary: a run is
 * given by what the model asks for and what the tools do in each iteration.
 */
module ReActGuards {
  import opened Wrappers
  import Text

  datatype Tool =
    | FindMatch | FindMultiMatches | SuggestPurposes | ConfirmInvitation | TargetResponds
    | Other(name: string)

  /** The parameters the guards look at: texts as `str(value or "")`, `accept` as `bool(value)` if the key is there. */
  datatype Params = Params(overrideDemand: string, signalText: string, accept: Option<bool>)

  datatype Action = CallTool(tool: Tool, params: Params) | Complete | WaitForUser

  /** What a tool returns; `mapping` says whether its data can be asked for a key. */
  datatype ToolResult = ToolResult(success: bool, mapping: bool)

  /**
   * Raises: before there is a result. RaisesLate: after this result was assigned; `logged` is the flag the log still
   * gets.
   */
  datatype ToolRun = Returns(result: ToolResult) | Raises | RaisesLate(result: ToolResult, logged: bool)

  /** One iteration; `breaks` means it raises before the guards or the tool log anything. */
  datatype Turn = Turn(action: Action, breaks: bool, run: ToolRun)

  datatype Case = CaseA | CaseB | CaseC | OtherCase

  datatype Instruction = Instruction(
    taskCase: Case,
    selectedPurpose: string,
    confirmedPurposes: Option<seq<string>>,
    text: string,
    declines: bool,
    accept: Option<bool>)

  datatype Context = Context(
    isNetworking: bool,
    purposeSuggestionFlow: bool,
    instruction: Instruction,
    tools: set<Tool>,
    maxIterations: nat)

  datatype Kind = Blocked | NotFound | Ran

  datatype LogEntry = LogEntry(tool: Tool, kind: Kind, success: bool, params: Params)

  datatype Status = Running | Completed | Waiting

  /** `last` is the result variable, which survives iterations; `stored` has the interim keys. */
  datatype Loop = Loop(status: Status, iterations: nat, log: seq<LogEntry>, last: Option<ToolResult>, stored: set<Tool>)

  function Start(): Loop {
    Loop(Running, 0, [], None, {})
  }

  predicate IsMatching(t: Tool) {
    t.FindMatch? || t.FindMultiMatches?
  }

  // ---------------------------------------------------------------- the demand of a CASE A instruction

  function LowerChar(c: char): char {
    if 'A' <= c <= 'Z' then (c as int + 32) as char else c
  }

  function Lower(s: string): string {
    seq(|s|, i requires 0 <= i < |s| => LowerChar(s[i]))
  }

  function DeriveDemand(i: Instruction): string {
    var selected := Text.Strip(i.selectedPurpose);
    if selected != "" then selected
    else if i.confirmedPurposes.Some? && |i.confirmedPurposes.value| == 1 &&
            Text.Strip(i.confirmedPurposes.value[0]) != "" then Text.Strip(i.confirmedPurposes.value[0])
    else
      var text := Text.Strip(i.text);
      if Lower(text) in ["confirm_purposes", "confirm_and_create_multi_match"] then "" else text
  }

  // ---------------------------------------------------------------- the guards

  datatype Verdict = Block | Allow(params: Params)

  predicate MatchingLogged(log: seq<LogEntry>) {
    exists e <- log :: IsMatching(e.tool)
  }

  predicate MatchingSucceeded(log: seq<LogEntry>) {
    exists e <- log :: IsMatching(e.tool) && e.success
  }

  predicate Visible(s: string) {
    Text.Strip(s) != ""
  }

  function FillDemand(given: string, demand: string): string {
    if !Visible(given) && demand != "" then demand else given
  }

  function ForceDemand(tool: Tool, params: Params, demand: string): Params {
    if tool.FindMatch? then params.(overrideDemand := FillDemand(params.overrideDemand, demand))
    else if tool.FindMultiMatches? then params.(signalText := FillDemand(params.signalText, demand))
    else params
  }

  /** The explicit demand a CASE A networking task forces onto a matching call. */
  function WithDemand(ctx: Context, tool: Tool, params: Params): Params {
    if ctx.isNetworking && ctx.instruction.taskCase.CaseA?
    then ForceDemand(tool, params, DeriveDemand(ctx.instruction)) else params
  }

  predicate HasDemand(tool: Tool, params: Params) {
    (tool.FindMatch? ==> Visible(params.overrideDemand)) && (tool.FindMultiMatches? ==> Visible(params.signalText))
  }

  function Guard(ctx: Context, log: seq<LogEntry>, tool: Tool, params: Params): Verdict {
    match tool
    case SuggestPurposes =>
      if MatchingLogged(log) && !MatchingSucceeded(log) then Block else Allow(params)
    case FindMatch => GuardMatching(ctx, tool, params)
    case FindMultiMatches => GuardMatching(ctx, tool, params)
    case ConfirmInvitation =>
      if ctx.instruction.taskCase.CaseB? && ctx.instruction.declines then Block
      else if MatchingSucceeded(log) then Block
      else Allow(params)
    case TargetResponds =>
      if ctx.instruction.taskCase.CaseC? && ctx.instruction.accept.Some? then
        if params.accept.None? then Allow(params.(accept := ctx.instruction.accept))
        else if params.accept != ctx.instruction.accept then Block
        else Allow(params)
      else Allow(params)
    case Other(_) => Allow(params)
  }

  function GuardMatching(ctx: Context, tool: Tool, params: Params): Verdict {
    var filled := WithDemand(ctx, tool, params);
    if ctx.isNetworking && ctx.instruction.taskCase.CaseA? && !HasDemand(tool, filled) then Block
    else if ctx.purposeSuggestionFlow then Block
    else Allow(filled)
  }

  lemma ForcedDemand(tool: Tool, params: Params, demand: string)
    requires IsMatching(tool) && Text.Strip(demand) == demand
    ensures var given := if tool.FindMatch? then params.overrideDemand else params.signalText;
            var used := if Visible(given) then given else demand;
            var forced := ForceDemand(tool, params, demand);
            && (HasDemand(tool, forced) <==> Visible(given) || Visible(demand))
            && (HasDemand(tool, forced) ==>
                  forced == (if tool.FindMatch? then params.(overrideDemand := used) else params.(signalText := used)))
  {
  }

  /** The texts agree up to the case of ASCII letters; `w` has no capital letters. */
  predicate IsWord(s: string, w: string) {
    && |s| == |w|
    && forall i :: 0 <= i < |s| ==> s[i] == w[i] || ('A' <= s[i] <= 'Z' && s[i] as int + 32 == w[i] as int)
  }

  lemma LowerIsWord(s: string, w: string)
    requires forall i :: 0 <= i < |w| ==> !('A' <= w[i] <= 'Z')
    ensures Lower(s) == w <==> IsWord(s, w)
  {
    if IsWord(s, w) {
      forall i | 0 <= i < |s| ensures Lower(s)[i] == w[i] {
        assert LowerChar(s[i]) == w[i];
      }
      assert Lower(s) == w;
    } else if |s| == |w| {
      var i :| 0 <= i < |s| && !(s[i] == w[i] || ('A' <= s[i] <= 'Z' && s[i] as int + 32 == w[i] as int));
      assert Lower(s)[i] == LowerChar(s[i]) != w[i];
    }
  }

  /** The single confirmed purpose, if there is exactly one. */
  function OnlyPurpose(i: Instruction): string {
    if i.confirmedPurposes.Some? && |i.confirmedPurposes.value| == 1 then i.confirmedPurposes.value[0] else ""
  }

  lemma ControlWords(text: string)
    ensures Lower(text) in ["confirm_purposes", "confirm_and_create_multi_match"] <==>
            IsWord(text, "confirm_purposes") || IsWord(text, "confirm_and_create_multi_match")
  {
    LowerIsWord(text, "confirm_purposes");
    LowerIsWord(text, "confirm_and_create_multi_match");
  }

  /** Without a visible purpose the instruction itself is the demand, unless it is a control word. */
  lemma DemandFromText(i: Instruction)
    requires !Visible(i.selectedPurpose) && !Visible(OnlyPurpose(i))
    ensures var text := Text.Strip(i.text);
            DeriveDemand(i) ==
            if IsWord(text, "confirm_purposes") || IsWord(text, "confirm_and_create_multi_match") then "" else text
  {
    ControlWords(Text.Strip(i.text));
  }

  /** A selected purpose wins, then a single confirmed one. */
  lemma DemandFromPurpose(i: Instruction)
    ensures Visible(i.selectedPurpose) ==> DeriveDemand(i) == Text.Strip(i.selectedPurpose)
    ensures !Visible(i.selectedPurpose) && Visible(OnlyPurpose(i)) ==> DeriveDemand(i) == Text.Strip(OnlyPurpose(i))
  {
    Text.StripFixpoint("");
  }

  lemma DemandIsTrimmed(i: Instruction)
    ensures Text.Strip(DeriveDemand(i)) == DeriveDemand(i)
  {
    Text.StripIdempotent(i.selectedPurpose);
    Text.StripIdempotent(OnlyPurpose(i));
    Text.StripIdempotent(i.text);
    Text.StripFixpoint("");
  }

  /**
   * For a CASE A networking task outside the purpose flow, a matching call is blocked exactly when neither the call nor
   * the instruction has a visible demand; a visible demand of the call is never overwritten.
   */
  lemma CaseAMatching(ctx: Context, log: seq<LogEntry>, tool: Tool, params: Params)
    requires ctx.isNetworking && ctx.instruction.taskCase.CaseA? && !ctx.purposeSuggestionFlow && IsMatching(tool)
    ensures var demand := DeriveDemand(ctx.instruction);
            var given := if tool.FindMatch? then params.overrideDemand else params.signalText;
            var used := if Visible(given) then given else demand;
            Guard(ctx, log, tool, params) ==
              if !Visible(given) && !Visible(demand) then Block
              else Allow(if tool.FindMatch? then params.(overrideDemand := used) else params.(signalText := used))
  {
    DemandIsTrimmed(ctx.instruction);
    ForcedDemand(tool, params, DeriveDemand(ctx.instruction));
  }

  /** The rule for each tool, said on the log and the instruction. */
  ghost predicate Allowed(ctx: Context, log: seq<LogEntry>, tool: Tool, params: Params) {
    var i := ctx.instruction;
    var demand := Visible(DeriveDemand(i));
    && (tool.FindMatch? || tool.FindMultiMatches? ==> !ctx.purposeSuggestionFlow)
    && (tool.FindMatch? && ctx.isNetworking && i.taskCase.CaseA? ==> Visible(params.overrideDemand) || demand)
    && (tool.FindMultiMatches? && ctx.isNetworking && i.taskCase.CaseA? ==> Visible(params.signalText) || demand)
    && (tool.SuggestPurposes? ==>
          || (forall e <- log :: !IsMatching(e.tool))
          || (exists e <- log :: IsMatching(e.tool) && e.success))
    && (tool.ConfirmInvitation? ==>
          && !(i.taskCase.CaseB? && i.declines)
          && (forall e <- log :: IsMatching(e.tool) ==> !e.success))
    && (tool.TargetResponds? && i.taskCase.CaseC? && i.accept.Some? && params.accept.Some? ==>
          params.accept == i.accept)
  }

  /** The parameters a call is executed with: a demand or answer of the task is filled in where it is missing. */
  ghost predicate Filled(ctx: Context, tool: Tool, given: Params, used: Params) {
    var i := ctx.instruction;
    var demand, force := DeriveDemand(i), ctx.isNetworking && i.taskCase.CaseA?;
    && used.overrideDemand == (if tool.FindMatch? && force && !Visible(given.overrideDemand) then demand
                               else given.overrideDemand)
    && used.signalText == (if tool.FindMultiMatches? && force && !Visible(given.signalText) then demand
                           else given.signalText)
    && used.accept == (if tool.TargetResponds? && i.taskCase.CaseC? && given.accept.None? then i.accept
                       else given.accept)
  }

  lemma MatchingAllowsIff(ctx: Context, log: seq<LogEntry>, tool: Tool, params: Params)
    requires IsMatching(tool)
    ensures Guard(ctx, log, tool, params).Allow? <==> Allowed(ctx, log, tool, params)
    ensures Guard(ctx, log, tool, params).Allow? ==> Filled(ctx, tool, params, Guard(ctx, log, tool, params).params)
  {
    DemandIsTrimmed(ctx.instruction);
    if ctx.isNetworking && ctx.instruction.taskCase.CaseA? {
      ForcedDemand(tool, params, DeriveDemand(ctx.instruction));
    }
  }

  /** Every call, of every tool, is allowed exactly by its rule, and then only the missing parameters are filled in. */
  lemma GuardAllowsIff(ctx: Context, log: seq<LogEntry>, tool: Tool, params: Params)
    ensures Guard(ctx, log, tool, params).Allow? <==> Allowed(ctx, log, tool, params)
    ensures Guard(ctx, log, tool, params).Allow? ==> Filled(ctx, tool, params, Guard(ctx, log, tool, params).params)
  {
    if IsMatching(tool) {
      MatchingAllowsIff(ctx, log, tool, params);
    }
  }

  // ---------------------------------------------------------------- the loop

  /** The result variable after a tool ran: an early exception leaves the previous one in place. */
  function ResultAfter(last: Option<ToolResult>, run: ToolRun): Option<ToolResult> {
    match run
    case Returns(result) => Some(result)
    case Raises => last
    case RaisesLate(result, _) => Some(result)
  }

  function LoggedSuccess(run: ToolRun): bool {
    match run
    case Returns(result) => result.success
    case Raises => false
    case RaisesLate(result, logged) => result.success && logged
  }

  /**
   * The result variable ends up stored under the tool's name. Before an invitation is stored its data is asked for the
   * target's name, which raises if the data is no mapping.
   */
  predicate Stores(tool: Tool, last: Option<ToolResult>, run: ToolRun) {
    var result := ResultAfter(last, run);
    result.Some? && result.value.success && (tool.ConfirmInvitation? ==> result.value.mapping)
  }

  function RunTool(s: Loop, tool: Tool, params: Params, run: ToolRun): Loop {
    s.(log := s.log + [LogEntry(tool, Ran, LoggedSuccess(run), params)],
       last := ResultAfter(s.last, run),
       stored := if Stores(tool, s.last, run) then s.stored + {tool} else s.stored)
  }

  function Act(ctx: Context, s: Loop, tool: Tool, params: Params, run: ToolRun): Loop {
    var verdict := Guard(ctx, s.log, tool, params);
    if verdict.Block? then s.(log := s.log + [LogEntry(tool, Blocked, false, params)])
    else if tool !in ctx.tools then s.(log := s.log + [LogEntry(tool, NotFound, false, params)])
    else RunTool(s, tool, verdict.params, run)
  }

  function Iterate(ctx: Context, s: Loop, turn: Turn): Loop {
    if !s.status.Running? then s
    else
      var t := s.(iterations := s.iterations + 1);
      if turn.breaks then t
      else match turn.action
        case Complete => t.(status := Completed)
        case WaitForUser => t.(status := Waiting)
        case CallTool(tool, params) => Act(ctx, t, tool, params, turn.run)
  }

  function Run(ctx: Context, turns: seq<Turn>): Loop {
    if turns == [] then Start() else Iterate(ctx, Run(ctx, turns[..|turns| - 1]), turns[|turns| - 1])
  }

  /** The bounded loop; the model and the tools supply a turn for every iteration. */
  method ExecuteTask(ctx: Context, turns: seq<Turn>) returns (s: Loop)
    requires ctx.maxIterations <= |turns|
    ensures s == Run(ctx, turns[..ctx.maxIterations])
    ensures s.status.Running? ==> s.iterations == ctx.maxIterations
  {
    s := Start();
    for i := 0 to ctx.maxIterations
      invariant s == Run(ctx, turns[..i]) && s.status.Running? && s.iterations == i
    {
      assert turns[..i + 1][..i] == turns[..i];
      s := Iterate(ctx, s, turns[i]);
      if !s.status.Running? {
        StoppedStays(ctx, turns, i + 1, ctx.maxIterations);
        return;
      }
    }
  }

  lemma {:induction false} StoppedStays(ctx: Context, turns: seq<Turn>, i: nat, j: nat)
    requires i <= j <= |turns| && !Run(ctx, turns[..i]).status.Running?
    ensures Run(ctx, turns[..j]) == Run(ctx, turns[..i])
  {
    if i < j {
      assert turns[..j][..j - 1] == turns[..j - 1];
      StoppedStays(ctx, turns, i, j - 1);
    }
  }

  /** The turn ends the loop. */
  predicate Terminal(turn: Turn) {
    !turn.breaks && (turn.action.Complete? || turn.action.WaitForUser?)
  }

  /** A run goes on until its first terminal turn, which decides how it ends. */
  lemma {:induction false} EndsAtFirstTerminal(ctx: Context, turns: seq<Turn>)
    ensures var s := Run(ctx, turns);
            && (forall i :: 0 <= i < s.iterations - 1 ==> i < |turns| && !Terminal(turns[i]))
            && (if s.status.Running? then
                  s.iterations == |turns| && forall i :: 0 <= i < |turns| ==> !Terminal(turns[i])
                else
                  && 0 < s.iterations <= |turns| && Terminal(turns[s.iterations - 1])
                  && (s.status.Completed? <==> turns[s.iterations - 1].action.Complete?))
  {
    if turns != [] {
      var init := turns[..|turns| - 1];
      EndsAtFirstTerminal(ctx, init);
      assert forall i :: 0 <= i < |init| ==> init[i] == turns[i];
    }
  }

  /**
   * One iteration that calls a tool: the call is logged, as blocked exactly if its rule forbids it, as not found if
   * there is no such tool, and otherwise as executed with the filled-in parameters.
   */
  lemma CallIsLogged(ctx: Context, s: Loop, turn: Turn)
    requires s.status.Running? && !turn.breaks && turn.action.CallTool?
    ensures var t, tool, given := Iterate(ctx, s, turn), turn.action.tool, turn.action.params;
            && |t.log| == |s.log| + 1 && t.log[..|s.log|] == s.log && t.status.Running?
            && var e := t.log[|s.log|];
            && e.tool == tool
            && (e.kind.Blocked? <==> !Allowed(ctx, s.log, tool, given))
            && (e.kind.NotFound? <==> Allowed(ctx, s.log, tool, given) && tool !in ctx.tools)
            && (e.kind.Ran? ==> Filled(ctx, tool, given, e.params) && e.success == LoggedSuccess(turn.run))
            && (!e.kind.Ran? ==> !e.success && t.stored == s.stored && t.last == s.last)
  {
    GuardAllowsIff(ctx, s.log, turn.action.tool, turn.action.params);
  }

  /** Every other iteration leaves the log, the results and the result variable alone. */
  lemma OtherTurnsLogNothing(ctx: Context, s: Loop, turn: Turn)
    requires !s.status.Running? || turn.breaks || !turn.action.CallTool?
    ensures var t := Iterate(ctx, s, turn);
            && t.log == s.log && t.stored == s.stored && t.last == s.last
            && (!s.status.Running? ==> t == s)
            && (s.status.Running? ==> t.iterations == s.iterations + 1 && (t.status.Running? <==> !Terminal(turn)))
  {
  }

  // ---------------------------------------------------------------- what the guards keep out

  /** The guards' promises about entry i, from the entries before it. */
  ghost predicate EntryOk(ctx: Context, log: seq<LogEntry>, i: nat)
    requires i < |log|
  {
    var e, before := log[i], log[..i];
    && (e.success ==> e.kind.Ran?)
    && (e.kind.Ran? ==>
          && e.tool in ctx.tools
          && (IsMatching(e.tool) ==> !ctx.purposeSuggestionFlow)
          && (IsMatching(e.tool) && ctx.isNetworking && ctx.instruction.taskCase.CaseA? ==> HasDemand(e.tool, e.params))
          && (e.tool.ConfirmInvitation? ==> !MatchingSucceeded(before))
          && (e.tool.ConfirmInvitation? ==> !(ctx.instruction.taskCase.CaseB? && ctx.instruction.declines))
          && (e.tool.SuggestPurposes? ==> MatchingLogged(before) ==> MatchingSucceeded(before))
          && (e.tool.TargetResponds? && ctx.instruction.taskCase.CaseC? && ctx.instruction.accept.Some? ==>
                e.params.accept == ctx.instruction.accept))
    && (e.tool.SuggestPurposes? && MatchingLogged(before) && !MatchingSucceeded(before) ==> e.kind.Blocked?)
  }

  ghost predicate LogOk(ctx: Context, log: seq<LogEntry>) {
    forall i :: 0 <= i < |log| ==> EntryOk(ctx, log, i)
  }

  lemma AppendOk(ctx: Context, log: seq<LogEntry>, e: LogEntry)
    requires LogOk(ctx, log) && EntryOk(ctx, log + [e], |log|)
    ensures LogOk(ctx, log + [e])
  {
    forall i | 0 <= i < |log| ensures EntryOk(ctx, log + [e], i) {
      assert EntryOk(ctx, log, i) && (log + [e])[..i] == log[..i];
    }
  }

  lemma ActOk(ctx: Context, s: Loop, tool: Tool, params: Params, run: ToolRun)
    requires LogOk(ctx, s.log)
    ensures LogOk(ctx, Act(ctx, s, tool, params, run).log)
    ensures |Act(ctx, s, tool, params, run).log| == |s.log| + 1
  {
    var t := Act(ctx, s, tool, params, run);
    var e := t.log[|s.log|];
    assert t.log == s.log + [e] && t.log[..|s.log|] == s.log;
    AppendOk(ctx, s.log, e);
  }

  /**
   * Over every run, whatever the model asks for and the tools do: the guards' promises hold of every log entry, and
   * each iteration logs at most one entry.
   */
  lemma {:induction false} GuardsHold(ctx: Context, turns: seq<Turn>)
    ensures var s := Run(ctx, turns); LogOk(ctx, s.log) && |s.log| <= s.iterations <= |turns|
  {
    if turns != [] {
      GuardsHold(ctx, turns[..|turns| - 1]);
      var s, turn := Run(ctx, turns[..|turns| - 1]), turns[|turns| - 1];
      if s.status.Running? && !turn.breaks && turn.action.CallTool? {
        ActOk(ctx, s.(iterations := s.iterations + 1), turn.action.tool, turn.action.params, turn.run);
      }
    }
  }

  /** The guards over the whole log of a run, said without reference to how far it had got. */
  lemma SafeRun(ctx: Context, turns: seq<Turn>, i: nat)
    requires i < |Run(ctx, turns).log| && Run(ctx, turns).log[i].kind.Ran?
    ensures var log := Run(ctx, turns).log;
            && (ctx.purposeSuggestionFlow ==> !IsMatching(log[i].tool))
            && (log[i].tool.ConfirmInvitation? ==>
                  forall j :: 0 <= j < i && IsMatching(log[j].tool) ==> !log[j].success)
            && (log[i].tool.SuggestPurposes? ==>
                  (forall j :: 0 <= j < i ==> !IsMatching(log[j].tool)) ||
                  (exists j :: 0 <= j < i && IsMatching(log[j].tool) && log[j].success))
            && (log[i].tool.FindMatch? && ctx.isNetworking && ctx.instruction.taskCase.CaseA? ==>
                  Text.Strip(log[i].params.overrideDemand) != "")
            && (log[i].tool.FindMultiMatches? && ctx.isNetworking && ctx.instruction.taskCase.CaseA? ==>
                  Text.Strip(log[i].params.signalText) != "")
  {
    GuardsHold(ctx, turns);
    var log := Run(ctx, turns).log;
    assert EntryOk(ctx, log, i);
    forall j | 0 <= j < i ensures log[j] in log[..i] {
      assert log[..i][j] == log[j];
    }
  }

  /**
   * In the purpose-suggestion flow a matching call is always blocked, and since blocked calls are logged too, a single
   * one shuts the prescribed suggestion out for the rest of the run.
   */
  lemma BlockedMatchShutsOffSuggestions(ctx: Context, turns: seq<Turn>, i: nat, j: nat)
    requires ctx.purposeSuggestionFlow && i < j < |Run(ctx, turns).log|
    requires IsMatching(Run(ctx, turns).log[i].tool) && Run(ctx, turns).log[j].tool.SuggestPurposes?
    ensures Run(ctx, turns).log[i].kind != Ran && Run(ctx, turns).log[j].kind.Blocked?
  {
    GuardsHold(ctx, turns);
    var log := Run(ctx, turns).log;
    assert EntryOk(ctx, log, i) && EntryOk(ctx, log, j);
    assert log[..j][i] == log[i] && log[i] in log[..j];
    forall e | e in log[..j] && IsMatching(e.tool) ensures !e.success {
      var k :| 0 <= k < j && log[..j][k] == e;
      assert EntryOk(ctx, log, k);
    }
  }

  // ---------------------------------------------------------------- stored results

  ghost predicate StoredAreSuccesses(s: Loop) {
    forall t :: t in s.stored <==> Succeeded(s.log, t)
  }

  /** The call gets past the guards to an available tool. */
  predicate Executes(ctx: Context, s: Loop, turn: Turn) {
    && s.status.Running? && !turn.breaks && turn.action.CallTool? && turn.action.tool in ctx.tools
    && Guard(ctx, s.log, turn.action.tool, turn.action.params).Allow?
  }

  predicate Succeeded(log: seq<LogEntry>, tool: Tool) {
    exists e <- log :: e.tool == tool && e.success
  }

  lemma SucceededSnoc(log: seq<LogEntry>, e: LogEntry, tool: Tool)
    ensures Succeeded(log + [e], tool) <==> Succeeded(log, tool) || (e.tool == tool && e.success)
  {
    assert e in log + [e] && forall f <- log :: f in log + [e];
  }

  /** What one iteration does to the log and to the stored results. */
  lemma IterateStores(ctx: Context, s: Loop, turn: Turn, tool: Tool)
    ensures var t := Iterate(ctx, s, turn);
            var here := Executes(ctx, s, turn) && turn.action.tool == tool;
            && (tool in t.stored <==> tool in s.stored || (here && Stores(tool, s.last, turn.run)))
            && (Succeeded(t.log, tool) <==> Succeeded(s.log, tool) || (here && LoggedSuccess(turn.run)))
  {
    var t := Iterate(ctx, s, turn);
    if t.log != s.log {
      assert t.log == s.log + [t.log[|s.log|]];
      SucceededSnoc(s.log, t.log[|s.log|], tool);
    }
  }

  /** The call executes, and what is stored for it differs from what is logged. */
  predicate Mismatch(ctx: Context, s: Loop, turn: Turn) {
    Executes(ctx, s, turn) && (Stores(turn.action.tool, s.last, turn.run) <==> !LoggedSuccess(turn.run))
  }

  /**
   * From stored results that are exactly the successes, an iteration keeps them so exactly unless a tool that is not
   * stored yet executes and either fails over a success in the result variable that can be stored, or is an invitation
   * that succeeds with data that is no mapping.
   */
  lemma StepKeepsStoredIff(ctx: Context, s: Loop, turn: Turn)
    requires StoredAreSuccesses(s)
    ensures StoredAreSuccesses(Iterate(ctx, s, turn)) <==>
              !(Mismatch(ctx, s, turn) && turn.action.tool !in s.stored)
  {
    forall tool ensures tool in s.stored <==> Succeeded(s.log, tool) {
    }
    var t := Iterate(ctx, s, turn);
    forall tool
      ensures (tool in t.stored <==> Succeeded(t.log, tool)) <==>
                !(Mismatch(ctx, s, turn) && turn.action.tool == tool && tool !in s.stored)
    {
      IterateStores(ctx, s, turn, tool);
    }
  }

  /** The two ways to differ: a failed call that stores an earlier success, and an invitation that is not stored. */
  lemma MismatchCases(ctx: Context, s: Loop, turn: Turn)
    requires Mismatch(ctx, s, turn)
    ensures if LoggedSuccess(turn.run) then
              turn.action.tool.ConfirmInvitation? && !turn.run.Raises? && !turn.run.result.mapping
            else
              && ResultAfter(s.last, turn.run).Some? && ResultAfter(s.last, turn.run).value.success
              && (turn.run.Raises? || (turn.run.RaisesLate? && !turn.run.logged))
              && (turn.action.tool.ConfirmInvitation? ==> ResultAfter(s.last, turn.run).value.mapping)
  {
  }

  /** The tools with an executed call that was stored (or not) and logged as a success (or not). */
  function Outcomes(ctx: Context, turns: seq<Turn>, stores: bool, succeeds: bool): set<Tool> {
    if turns == [] then {}
    else
      var init, turn := turns[..|turns| - 1], turns[|turns| - 1];
      var s := Run(ctx, init);
      Outcomes(ctx, init, stores, succeeds) +
      if Executes(ctx, s, turn) && Stores(turn.action.tool, s.last, turn.run) == stores &&
         LoggedSuccess(turn.run) == succeeds
      then {turn.action.tool} else {}
  }

  lemma {:induction false} StoredExactly(ctx: Context, turns: seq<Turn>, tool: Tool)
    ensures tool in Run(ctx, turns).stored <==>
              tool in Outcomes(ctx, turns, true, true) || tool in Outcomes(ctx, turns, true, false)
    ensures Succeeded(Run(ctx, turns).log, tool) <==>
              tool in Outcomes(ctx, turns, true, true) || tool in Outcomes(ctx, turns, false, true)
  {
    if turns != [] {
      var init, turn := turns[..|turns| - 1], turns[|turns| - 1];
      StoredExactly(ctx, init, tool);
      IterateStores(ctx, Run(ctx, init), turn, tool);
    }
  }

  /**
   * Over every run: the stored results are those of the tools that succeeded exactly if each tool with a stale store
   * and each with an unstored success also has the other, or a success that was stored.
   */
  lemma StoredResultsAreSuccessesIff(ctx: Context, turns: seq<Turn>)
    ensures var kept, stale, missed := Outcomes(ctx, turns, true, true), Outcomes(ctx, turns, true, false),
                                       Outcomes(ctx, turns, false, true);
            StoredAreSuccesses(Run(ctx, turns)) <==> stale - kept == missed - kept
  {
    var s := Run(ctx, turns);
    var kept, stale, missed := Outcomes(ctx, turns, true, true), Outcomes(ctx, turns, true, false),
                               Outcomes(ctx, turns, false, true);
    forall tool
      ensures tool in s.stored <==> tool in kept || tool in stale
      ensures Succeeded(s.log, tool) <==> tool in kept || tool in missed
    {
      StoredExactly(ctx, turns, tool);
    }
    if StoredAreSuccesses(s) {
      assert forall tool :: tool in stale - kept <==> tool in missed - kept;
    }
    if stale - kept == missed - kept {
      forall tool ensures tool in s.stored <==> Succeeded(s.log, tool) {
        assert tool in stale - kept <==> tool in missed - kept;
      }
    }
  }

  lemma {:induction false} ReturningToolsLeaveNothingStale(ctx: Context, turns: seq<Turn>, tool: Tool)
    requires forall turn <- turns :: turn.run.Returns?
    ensures Outcomes(ctx, turns, true, false) == {}
    ensures tool in Outcomes(ctx, turns, false, true) ==> tool.ConfirmInvitation?
  {
    if turns != [] {
      var init, turn := turns[..|turns| - 1], turns[|turns| - 1];
      assert turn in turns && forall u <- init :: u in turns;
      ReturningToolsLeaveNothingStale(ctx, init, tool);
    }
  }

  /**
   * In particular when every tool call returns: the stored results are exactly the successes unless invitations
   * succeeded, but never with data that is a mapping.
   */
  lemma StoredResultsAreSuccesses(ctx: Context, turns: seq<Turn>)
    requires forall turn <- turns :: turn.run.Returns?
    ensures StoredAreSuccesses(Run(ctx, turns)) <==>
              (ConfirmInvitation in Outcomes(ctx, turns, false, true) ==>
                 ConfirmInvitation in Outcomes(ctx, turns, true, true))
  {
    var kept, missed := Outcomes(ctx, turns, true, true), Outcomes(ctx, turns, false, true);
    forall tool ensures Outcomes(ctx, turns, true, false) == {} && (tool in missed ==> tool.ConfirmInvitation?) {
      ReturningToolsLeaveNothingStale(ctx, turns, tool);
    }
    StoredResultsAreSuccessesIff(ctx, turns);
    var none: set<Tool> := {};
    assert none - kept == none;
    if ConfirmInvitation in missed && ConfirmInvitation !in kept {
      assert ConfirmInvitation in missed - kept;
    } else {
      assert missed - kept == none;
    }
  }

  // ---------------------------------------------------------------- runs in which the two differ

  lemma RunSnoc(ctx: Context, turns: seq<Turn>, turn: Turn)
    ensures Run(ctx, turns + [turn]) == Iterate(ctx, Run(ctx, turns), turn)
  {
    assert (turns + [turn])[..|turns|] == turns;
  }

  /** The guards let this call through however the log looks, as long as nothing was matched. */
  predicate Passes(ctx: Context, tool: Tool) {
    && tool in ctx.tools
    && (tool.Other? || (tool.ConfirmInvitation? && !(ctx.instruction.taskCase.CaseB? && ctx.instruction.declines)))
  }

  lemma OneCall(ctx: Context, a: Tool, params: Params, run: ToolRun)
    requires Passes(ctx, a)
    ensures Run(ctx, [Turn(CallTool(a, params), false, run)]) == RunTool(Start().(iterations := 1), a, params, run)
    ensures Run(ctx, [Turn(CallTool(a, params), false, run)]).log == [LogEntry(a, Ran, LoggedSuccess(run), params)]
  {
    assert Guard(ctx, [], a, params) == Allow(params);
    RunSnoc(ctx, [], Turn(CallTool(a, params), false, run));
  }

  lemma TwoCalls(ctx: Context, a: Tool, b: Tool, params: Params, first: ToolRun, second: ToolRun)
    requires Passes(ctx, a) && Passes(ctx, b)
    ensures var turns := [Turn(CallTool(a, params), false, first), Turn(CallTool(b, params), false, second)];
            var s := Run(ctx, turns);
            && s.log == [LogEntry(a, Ran, LoggedSuccess(first), params),
                         LogEntry(b, Ran, LoggedSuccess(second), params)]
            && (b in s.stored <==> (a == b && Stores(a, None, first)) || Stores(b, ResultAfter(None, first), second))
            && (a != b ==> (a in s.stored <==> Stores(a, None, first)))
            && s.stored <= {a, b}
  {
    var t1, t2 := Turn(CallTool(a, params), false, first), Turn(CallTool(b, params), false, second);
    OneCall(ctx, a, params, first);
    var s1 := Run(ctx, [t1]);
    RunSnoc(ctx, [t1], t2);
    assert [t1] + [t2] == [t1, t2];
    assert Guard(ctx, s1.log, b, params) == Allow(params);
    var s := Run(ctx, [t1, t2]);
    assert s == RunTool(s1.(iterations := 2), b, params, second);
  }

  /** A tool that raised gets the previous tool's success stored under its own name. */
  lemma StaleResultIsStored(ctx: Context, a: Tool, b: Tool, params: Params, mapping: bool)
    requires Passes(ctx, a) && Passes(ctx, b) && a.Other? && a != b && (b.ConfirmInvitation? ==> mapping)
    ensures var turns := [Turn(CallTool(a, params), false, Returns(ToolResult(true, mapping))),
                          Turn(CallTool(b, params), false, Raises)];
            var s := Run(ctx, turns);
            b in s.stored && !Succeeded(s.log, b) && !StoredAreSuccesses(s)
  {
    TwoCalls(ctx, a, b, params, Returns(ToolResult(true, mapping)), Raises);
  }

  /**
   * A lookup that succeeds without data, then an invitation that raises: the empty result cannot be asked for a target
   * name, so nothing is stored under the invitation's name.
   */
  lemma StaleInvitationNeedsMapping(ctx: Context, a: Tool, params: Params)
    requires Passes(ctx, a) && Passes(ctx, ConfirmInvitation) && a.Other?
    ensures var turns := [Turn(CallTool(a, params), false, Returns(ToolResult(true, false))),
                          Turn(CallTool(ConfirmInvitation, params), false, Raises)];
            ConfirmInvitation !in Run(ctx, turns).stored && StoredAreSuccesses(Run(ctx, turns))
  {
    var turns := [Turn(CallTool(a, params), false, Returns(ToolResult(true, false))),
                  Turn(CallTool(ConfirmInvitation, params), false, Raises)];
    TwoCalls(ctx, a, ConfirmInvitation, params, Returns(ToolResult(true, false)), Raises);
    var s := Run(ctx, turns);
    assert s.log[0] in s.log;
    forall tool ensures tool in s.stored <==> Succeeded(s.log, tool) {
      assert tool in s.stored ==> tool == a;
    }
  }

  /** An invitation that succeeds with data that is no mapping is logged as a success and not stored. */
  lemma InvitationWithoutMappingIsNotStored(ctx: Context, params: Params)
    requires Passes(ctx, ConfirmInvitation)
    ensures var s := Run(ctx, [Turn(CallTool(ConfirmInvitation, params), false, Returns(ToolResult(true, false)))]);
            ConfirmInvitation !in s.stored && Succeeded(s.log, ConfirmInvitation) && !StoredAreSuccesses(s)
  {
    OneCall(ctx, ConfirmInvitation, params, Returns(ToolResult(true, false)));
    var s := Run(ctx, [Turn(CallTool(ConfirmInvitation, params), false, Returns(ToolResult(true, false)))]);
    assert s.log[0] in s.log;
  }
}
