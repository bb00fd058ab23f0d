/**
 * `runLRParse` of src/core/parse/runLRParse.ts: the shift/reduce driver over a canonical parse
 * table, refusing tables with conflicts, logging one trace step per iteration and giving up
 * after `MAX_STEPS` iterations. `Outcome` is the run as a function; the method is the loop.
 */
module ParseRun {
  import opened Wrappers
  import opened Grammars
  import opened LR0Types
  import opened Strings
  import opened TableCells
  import opened TableProps

  /** `MAX_STEPS`. */
  const MaxSteps: nat := 1000

  const NotLR0Message: string := "Grammar is not LR(0). Checks conflicts before parsing."

  /** A stack entry; only the initial `S0` entry has no symbol. */
  datatype StackSymbol = StackSymbol(symbol: Option<Symbol>, stateId: nat)

  /** What a trace entry says was done; `ActionText` gives the description the source shows, `""` while pending. */
  datatype StepAction = Pending | ErrorAt(lookahead: string) | ShiftTo(to: nat) | ReduceBy(raw: string) | AcceptAction

  /** One trace entry: the stack and remaining input before the action, and the action taken. */
  datatype ParseStep = ParseStep(
    step: nat,
    stack: seq<StackSymbol>,
    input: seq<Symbol>,
    action: StepAction,
    entry: Option<ActionEntry>,
    rule: Option<Production>)

  /** Why a run stopped with status `error`; `ErrorText` gives the message the source reports. */
  datatype RunError =
    | UnexpectedToken(lookahead: string, state: nat)
    | StackUnderflow
    | NoGoto(nonTerminal: Symbol, state: nat)
    | MaxStepsExceeded

  /** `ParseRunResult`; `Thrown` is the `Production … not found` exception, which returns no trace. */
  datatype ParseRunResult =
    | Blocked(error: string, trace: seq<ParseStep>)
    | Errored(reason: RunError, trace: seq<ParseStep>)
    | Accepted(trace: seq<ParseStep>)
    | Thrown(prodId: int)

  /** The loop state: the stack and the remaining input. */
  datatype Config = Config(stack: seq<StackSymbol>, input: seq<Symbol>)

  datatype Ending = AcceptInput | Fail(error: RunError) | Throw(prodId: int)

  datatype Move = Go(next: Config) | Halt(ending: Ending)

  /** The trace entry one iteration logs, and where the loop goes from there. */
  datatype StepOut = StepOut(logged: ParseStep, move: Move)

  /** The display form `S<k>` of state k. */
  function StateName(n: nat): string {
    "S" + NatToString(n)
  }

  function IntToString(i: int): string {
    if i < 0 then "-" + NatToString(-i) else NatToString(i)
  }

  function ErrorText(e: RunError): string {
    match e
    case UnexpectedToken(look, s) => "Unexpected token '" + look + "' in state " + StateName(s)
    case StackUnderflow => "Stack underflow during reduce"
    case NoGoto(x, s) => "No GOTO for non-terminal " + x + " in state " + StateName(s)
    case MaxStepsExceeded => "Max steps exceeded"
  }

  /** The text of the exception `Thrown(p)`. */
  function ThrownText(p: int): string {
    "Production " + IntToString(p) + " not found"
  }

  function ActionText(a: StepAction): string {
    match a
    case Pending => ""
    case ErrorAt(look) => "Error: Unexpected token '" + look + "'"
    case ShiftTo(to) => "Shift " + StateName(to)
    case ReduceBy(raw) => "Reduce: " + raw
    case AcceptAction => "Accept"
  }

  /** `productions.find(p => p.id === id)`: the first production with that id. */
  function FindProduction(prods: seq<Production>, id: int): (r: Option<Production>)
    ensures r.Some? ==> r.value.id == id && exists i :: 0 <= i < |prods| && prods[i] == r.value && forall j :: 0 <= j < i ==> prods[j].id != id
    ensures r.None? <==> forall i :: 0 <= i < |prods| ==> prods[i].id != id
  {
    if prods == [] then None
    else if prods[0].id == id then Some(prods[0])
    else
      var r := FindProduction(prods[1..], id);
      assert r.Some? ==> exists i :: 0 <= i < |prods| && prods[i] == r.value && forall j :: 0 <= j < i ==> prods[j].id != id by {
        if r.Some? {
          var i :| 0 <= i < |prods[1..]| && prods[1..][i] == r.value && forall j :: 0 <= j < i ==> prods[1..][j].id != id;
          assert prods[i + 1] == r.value;
          assert forall j :: 0 < j < i + 1 ==> prods[j] == prods[1..][j - 1];
        }
      }
      assert r.None? ==> forall i :: 0 <= i < |prods| ==> prods[i].id != id by {
        if r.None? {
          assert forall i :: 0 < i < |prods| ==> prods[i] == prods[1..][i - 1];
        }
      }
      r
  }

  function GotoAt(goto: GotoTable, s: nat, x: Symbol): Option<nat> {
    if s in goto && x in goto[s] then Some(goto[s][x]) else None
  }

  /** The state on top of the stack. */
  function Top(stack: seq<StackSymbol>): nat
    requires stack != []
  {
    stack[|stack| - 1].stateId
  }

  /** `input[0]` as a template literal prints it: `undefined` once the input is used up. */
  function LookaheadText(input: seq<Symbol>): string {
    if input == [] then "undefined" else input[0]
  }

  /** `table.action.get(top)?.get(input[0])`; nothing when the input is used up. */
  function ActionFor(table: LR0ParseTable, cfg: Config): Option<ActionEntry>
    requires cfg.stack != []
  {
    if cfg.input == [] then None else Cell(table.action, Top(cfg.stack), cfg.input[0])
  }

  /** The stack keeps `S0` at the bottom and a symbol on every other entry. */
  predicate StackOk(stack: seq<StackSymbol>) {
    && stack != []
    && stack[0] == StackSymbol(None, 0)
    && forall i :: 1 <= i < |stack| ==> stack[i].symbol.Some?
  }

  /** The grammar symbols on the stack, bottom to top. */
  function Symbols(stack: seq<StackSymbol>): (r: seq<Symbol>)
    requires StackOk(stack)
    ensures |r| == |stack| - 1 && forall i :: 0 <= i < |r| ==> stack[i + 1].symbol == Some(r[i])
  {
    if |stack| == 1 then [] else
      assert StackOk(stack[..|stack| - 1]);
      Symbols(stack[..|stack| - 1]) + [stack[|stack| - 1].symbol.value]
  }

  /** The sentential form of a configuration: the stack's symbols followed by the remaining input. */
  function Form(cfg: Config): seq<Symbol>
    requires StackOk(cfg.stack)
  {
    Symbols(cfg.stack) + cfg.input
  }

  /**
   * One loop iteration `stepCount + 1 == n`: log the step, then act on `action[top][input[0]]`.
   * A shift pushes the lookahead with the target and consumes it; a reduce pops `|right|`
   * entries (refusing to pop `S0`) and pushes the left side with its goto state; accept and a
   * missing entry end the run.
   */
  function Step(table: LR0ParseTable, prods: seq<Production>, cfg: Config, n: nat): (out: StepOut)
    requires cfg.stack != []
    ensures out.logged.step == n && out.logged.stack == cfg.stack && out.logged.input == cfg.input
    ensures !(out.move.Halt? && out.move.ending.Throw?) ==> out.logged.entry == ActionFor(table, cfg)
    ensures out.move.Go? ==>
      && out.move.next.stack != [] && out.move.next.stack[0] == cfg.stack[0]
      && (out.move.next.input == cfg.input || (cfg.input != [] && out.move.next.input == cfg.input[1..]))
    ensures out.move.Go? && StackOk(cfg.stack) ==> StackOk(out.move.next.stack)
    ensures out.move == Halt(AcceptInput) <==> ActionFor(table, cfg) == Some(Accept)
    ensures out.move != Halt(Fail(MaxStepsExceeded))
  {
    var top := Top(cfg.stack);
    var logged := ParseStep(n, cfg.stack, cfg.input, Pending, None, None);
    match ActionFor(table, cfg)
    case None =>
      var look := LookaheadText(cfg.input);
      StepOut(logged.(action := ErrorAt(look)), Halt(Fail(UnexpectedToken(look, top))))
    case Some(Shift(to)) =>
      StepOut(logged.(action := ShiftTo(to), entry := Some(Shift(to))),
              Go(Config(cfg.stack + [StackSymbol(Some(cfg.input[0]), to)], cfg.input[1..])))
    case Some(Accept) =>
      StepOut(logged.(action := AcceptAction, entry := Some(Accept)), Halt(AcceptInput))
    case Some(Reduce(p)) =>
      match FindProduction(prods, p)
      case None =>
        StepOut(logged, Halt(Throw(p)))
      case Some(prod) =>
        var reduced := logged.(action := ReduceBy(prod.raw), entry := Some(Reduce(p)), rule := Some(prod));
        StepOut(reduced, ReduceMove(table, cfg, prod))
  }

  /**
   * A reduce by `prod`: pop `|right|` entries unless that would pop `S0`, then push the left
   * side with the goto state of the uncovered top.
   */
  function ReduceMove(table: LR0ParseTable, cfg: Config, prod: Production): (m: Move)
    requires cfg.stack != []
    ensures m.Halt? ==> m.ending.Fail? && m.ending.error != MaxStepsExceeded
    ensures m == Halt(Fail(StackUnderflow)) <==> |cfg.stack| - 1 < |prod.right|
    ensures m.Go? ==>
      && |prod.right| < |cfg.stack| && m.next.input == cfg.input && m.next.stack != []
      && m.next.stack[..|m.next.stack| - 1] == cfg.stack[..|cfg.stack| - |prod.right|]
      && m.next.stack[|m.next.stack| - 1].symbol == Some(prod.left)
      && GotoAt(table.goto, Top(cfg.stack[..|cfg.stack| - |prod.right|]), prod.left) == Some(Top(m.next.stack))
  {
    if |cfg.stack| - 1 < |prod.right| then Halt(Fail(StackUnderflow))
    else
      var popped := cfg.stack[..|cfg.stack| - |prod.right|];
      var t := Top(popped);
      match GotoAt(table.goto, t, prod.left)
      case None => Halt(Fail(NoGoto(prod.left, t)))
      case Some(g) => Go(Config(popped + [StackSymbol(Some(prod.left), g)], cfg.input))
  }

  /** The loop from iteration `count + 1` on, with `trace` logged so far. */
  function Run(table: LR0ParseTable, prods: seq<Production>, cfg: Config, count: nat, trace: seq<ParseStep>): ParseRunResult
    requires cfg.stack != [] && count <= MaxSteps
    decreases MaxSteps - count, 1
  {
    if count == MaxSteps then Errored(MaxStepsExceeded, trace)
    else Continue(table, prods, Step(table, prods, cfg, count + 1), count, trace)
  }

  /** The rest of the loop once iteration `count + 1` has come out as `out`. */
  function Continue(table: LR0ParseTable, prods: seq<Production>, out: StepOut, count: nat, trace: seq<ParseStep>): ParseRunResult
    requires count < MaxSteps && (out.move.Go? ==> out.move.next.stack != [])
    decreases MaxSteps - count, 0
  {
    match out.move
    case Go(next) => Run(table, prods, next, count + 1, trace + [out.logged])
    case Halt(_) => Halted(out, trace)
  }

  /** The result of an iteration that ends the run. */
  function Halted(out: StepOut, trace: seq<ParseStep>): ParseRunResult
    requires out.move.Halt?
  {
    match out.move.ending
    case AcceptInput => Accepted(trace + [out.logged])
    case Fail(e) => Errored(e, trace + [out.logged])
    case Throw(e) => Thrown(e)
  }

  /** The stack `[S0]` and the white-space separated words of the input followed by `"$"`. */
  function Initial(inputStr: string): Config {
    Config([StackSymbol(None, 0)], Words(inputStr) + ["$"])
  }

  /** `runLRParse(table, automaton, inputStr)`, with the automaton's productions. */
  function Outcome(table: LR0ParseTable, prods: seq<Production>, inputStr: string): ParseRunResult {
    if !table.isLR0 then Blocked(NotLR0Message, []) else Run(table, prods, Initial(inputStr), 0, [])
  }

  /** One pass of the `while` body: log the step, then shift, reduce, accept or stop with an error. */
  method Iteration(table: LR0ParseTable, prods: seq<Production>, stack: seq<StackSymbol>, input: seq<Symbol>, trace: seq<ParseStep>, stepCount: nat)
    returns (halt: Option<ParseRunResult>, stack': seq<StackSymbol>, input': seq<Symbol>, trace': seq<ParseStep>)
    requires stack != [] && stepCount < MaxSteps
    ensures halt.Some? ==> halt.value == Run(table, prods, Config(stack, input), stepCount, trace)
    ensures halt.None? ==> stack' != []
    ensures halt.None? ==>
      Run(table, prods, Config(stack, input), stepCount, trace) == Run(table, prods, Config(stack', input'), stepCount + 1, trace')
  {
    RunStep(table, prods, Config(stack, input), stepCount, trace);
    ghost var out := Step(table, prods, Config(stack, input), stepCount + 1);
    halt, stack', input' := None, stack, input;
    var currentStateId := stack[|stack| - 1].stateId;
    var action := if input == [] then None else Cell(table.action, currentStateId, input[0]);
    trace' := trace + [ParseStep(stepCount + 1, stack, input, Pending, None, None)];
    var last := |trace'| - 1;
    if action.None? {
      var look := if input == [] then "undefined" else input[0];
      trace' := trace'[last := trace'[last].(action := ErrorAt(look))];
      assert trace' == trace + [out.logged];
      return Some(Errored(UnexpectedToken(look, currentStateId), trace')), stack', input', trace';
    }
    match action.value {
      case Shift(to) =>
        trace' := trace'[last := trace'[last].(action := ShiftTo(to), entry := Some(Shift(to)))];
        assert trace' == trace + [out.logged];
        stack' := stack + [StackSymbol(Some(input[0]), to)];
        input' := input[1..];
      case Reduce(p) =>
        var found := FindProduction(prods, p);
        if found.None? {
          return Some(Thrown(p)), stack', input', trace';
        }
        var prod := found.value;
        trace' := trace'[last := trace'[last].(action := ReduceBy(prod.raw), entry := Some(Reduce(p)), rule := Some(prod))];
        assert trace' == trace + [out.logged];
        var popCount := |prod.right|;
        if |stack| - 1 < popCount {
          return Some(Errored(StackUnderflow, trace')), stack', input', trace';
        }
        for i := 0 to popCount
          invariant stack' == stack[..|stack| - i]
        {
          stack' := stack'[..|stack'| - 1];
        }
        var topStateId := stack'[|stack'| - 1].stateId;
        var nextStateId := GotoAt(table.goto, topStateId, prod.left);
        if nextStateId.None? {
          return Some(Errored(NoGoto(prod.left, topStateId), trace')), stack', input', trace';
        }
        stack' := stack' + [StackSymbol(Some(prod.left), nextStateId.value)];
      case Accept =>
        trace' := trace'[last := trace'[last].(action := AcceptAction, entry := Some(Accept))];
        assert trace' == trace + [out.logged];
        return Some(Accepted(trace')), stack', input', trace';
    }
  }

  lemma RunStep(table: LR0ParseTable, prods: seq<Production>, cfg: Config, count: nat, trace: seq<ParseStep>)
    requires cfg.stack != [] && count < MaxSteps
    ensures var out := Step(table, prods, cfg, count + 1);
      Run(table, prods, cfg, count, trace) == match out.move
        case Go(next) => Run(table, prods, next, count + 1, trace + [out.logged])
        case Halt(_) => Halted(out, trace)
  {
  }

  /** The `while (stepCount < MAX_STEPS)` loop from the stack `[S0]`, appending to the trace. */
  method ParseLoop(table: LR0ParseTable, prods: seq<Production>, tokens: seq<Symbol>) returns (r: ParseRunResult)
    ensures r == Run(table, prods, Config([StackSymbol(None, 0)], tokens), 0, [])
  {
    var input := tokens;
    var stack := [StackSymbol(None, 0)];
    var trace: seq<ParseStep> := [];
    var stepCount := 0;
    while stepCount < MaxSteps
      invariant stepCount <= MaxSteps && stack != []
      invariant Run(table, prods, Config([StackSymbol(None, 0)], tokens), 0, []) == Run(table, prods, Config(stack, input), stepCount, trace)
      decreases MaxSteps - stepCount
    {
      var halt;
      halt, stack, input, trace := Iteration(table, prods, stack, input, trace, stepCount);
      if halt.Some? {
        return halt.value;
      }
      stepCount := stepCount + 1;
    }
    r := Errored(MaxStepsExceeded, trace);
  }

  /** `runLRParse`: refuse a table with conflicts, split the input at white space, append `"$"` and run the loop. */
  method RunLRParse(table: LR0ParseTable, automaton: LR0Automaton, inputStr: string) returns (r: ParseRunResult)
    ensures r == Outcome(table, automaton.grammar.productions, inputStr)
  {
    if !table.isLR0 {
      return Blocked(NotLR0Message, []);
    }
    var tokens := Words(inputStr);
    r := ParseLoop(table, automaton.grammar.productions, tokens + ["$"]);
  }

  /** `u` is what is left of `w` after dropping a prefix. */
  predicate IsSuffix<T(==)>(u: seq<T>, w: seq<T>) {
    |u| <= |w| && u == w[|w| - |u|..]
  }

  /** Trace entry i of a run over `init`: numbered i + 1, with a well-formed stack and a suffix of the input. */
  predicate StepOk(init: seq<Symbol>, i: nat, st: ParseStep) {
    st.step == i + 1 && StackOk(st.stack) && IsSuffix(st.input, init)
  }

  predicate TraceOk(init: seq<Symbol>, trace: seq<ParseStep>) {
    forall i :: 0 <= i < |trace| ==> StepOk(init, i, trace[i])
  }

  /** The step found `accept` in the cell of its top state and lookahead. */
  predicate AcceptsAt(table: LR0ParseTable, st: ParseStep) {
    && st.stack != [] && st.input != []
    && Cell(table.action, Top(st.stack), st.input[0]) == Some(Accept)
    && st.entry == Some(Accept)
  }

  /** A run's trace, when it has one, is well-formed over `init` and within the step bound. */
  predicate TraceShape(init: seq<Symbol>, r: ParseRunResult) {
    !r.Thrown? ==> |r.trace| <= MaxSteps && TraceOk(init, r.trace)
  }

  /** An accepted run's last entry found `accept`; a run the step bound stops has `MAX_STEPS` entries. */
  predicate EndOk(table: LR0ParseTable, r: ParseRunResult) {
    && (r.Accepted? ==> r.trace != [] && AcceptsAt(table, r.trace[|r.trace| - 1]))
    && (r.Errored? && r.reason == MaxStepsExceeded ==> |r.trace| == MaxSteps)
  }

  lemma TraceOkAppend(init: seq<Symbol>, trace: seq<ParseStep>, st: ParseStep)
    requires TraceOk(init, trace) && StepOk(init, |trace|, st)
    ensures TraceOk(init, trace + [st])
  {
    var t := trace + [st];
    forall i | 0 <= i < |t| ensures StepOk(init, i, t[i]) {
      if i < |trace| {
        assert t[i] == trace[i];
      }
    }
  }

  lemma SuffixTail<T>(u: seq<T>, w: seq<T>)
    requires IsSuffix(u, w) && u != []
    ensures IsSuffix(u[1..], w)
  {
    assert u[1..] == w[|w| - |u| + 1..];
  }

  /**
   * What every run keeps from the loop state on: the trace is extended, never rewritten; its
   * entries are numbered from 1 with well-formed stacks and suffixes of the input; and it has
   * at most `MAX_STEPS` entries.
   */
  lemma {:induction false} RunTrace(table: LR0ParseTable, prods: seq<Production>, init: seq<Symbol>, cfg: Config, count: nat, trace: seq<ParseStep>)
    requires count <= MaxSteps && |trace| == count
    requires StackOk(cfg.stack) && IsSuffix(cfg.input, init) && TraceOk(init, trace)
    ensures !Run(table, prods, cfg, count, trace).Blocked?
    ensures TraceShape(init, Run(table, prods, cfg, count, trace))
    ensures var r := Run(table, prods, cfg, count, trace);
      !r.Thrown? ==> |trace| <= |r.trace| && r.trace[..|trace|] == trace
    decreases MaxSteps - count, 1
  {
    if count < MaxSteps {
      var out := Step(table, prods, cfg, count + 1);
      if out.move.Go? && out.move.next.input != cfg.input {
        SuffixTail(cfg.input, init);
      }
      ContinueTrace(table, prods, init, out, count, trace);
    }
  }

  /** `RunTrace` from an iteration's outcome, knowing of the iteration only what its contract says. */
  lemma {:induction false} ContinueTrace(table: LR0ParseTable, prods: seq<Production>, init: seq<Symbol>, out: StepOut, count: nat, trace: seq<ParseStep>)
    requires count < MaxSteps && |trace| == count
    requires TraceOk(init, trace) && StepOk(init, count, out.logged)
    requires out.move.Go? ==> StackOk(out.move.next.stack) && IsSuffix(out.move.next.input, init)
    ensures !Continue(table, prods, out, count, trace).Blocked?
    ensures TraceShape(init, Continue(table, prods, out, count, trace))
    ensures var r := Continue(table, prods, out, count, trace);
      !r.Thrown? ==> |trace| <= |r.trace| && r.trace[..|trace|] == trace
    decreases MaxSteps - count, 0
  {
    var t := trace + [out.logged];
    TraceOkAppend(init, trace, out.logged);
    if out.move.Go? {
      RunTrace(table, prods, init, out.move.next, count + 1, t);
      var r := Run(table, prods, out.move.next, count + 1, t);
      if !r.Thrown? {
        assert r.trace[..|trace|] == t[..|trace|];
      }
    } else {
      assert t[..|trace|] == trace;
    }
  }

  /** An accepting run's last entry found `accept`; the step bound stops a run only after `MAX_STEPS` entries. */
  lemma {:induction false} RunEnding(table: LR0ParseTable, prods: seq<Production>, cfg: Config, count: nat, trace: seq<ParseStep>)
    requires count <= MaxSteps && |trace| == count && cfg.stack != []
    ensures EndOk(table, Run(table, prods, cfg, count, trace))
    decreases MaxSteps - count, 1
  {
    if count < MaxSteps {
      ContinueEnding(table, prods, Step(table, prods, cfg, count + 1), count, trace);
    }
  }

  lemma {:induction false} ContinueEnding(table: LR0ParseTable, prods: seq<Production>, out: StepOut, count: nat, trace: seq<ParseStep>)
    requires count < MaxSteps && |trace| == count && (out.move.Go? ==> out.move.next.stack != [])
    requires out.move != Halt(Fail(MaxStepsExceeded))
    requires out.move == Halt(AcceptInput) ==> AcceptsAt(table, out.logged)
    ensures EndOk(table, Continue(table, prods, out, count, trace))
    decreases MaxSteps - count, 0
  {
    if out.move.Go? {
      RunEnding(table, prods, out.move.next, count + 1, trace + [out.logged]);
    }
  }

  /**
   * `runLRParse`: blocked exactly when the table is not LR(0), then with an empty trace;
   * otherwise the trace, when there is one, is numbered from 1, keeps `S0` at the bottom of
   * every stack, only ever consumes the input from the front, and has at most `MAX_STEPS`
   * entries; an accepted run ends on an `accept` cell.
   */
  lemma OutcomeShape(table: LR0ParseTable, prods: seq<Production>, inputStr: string)
    ensures Outcome(table, prods, inputStr).Blocked? <==> !table.isLR0
    ensures Outcome(table, prods, inputStr).Blocked? ==> Outcome(table, prods, inputStr).trace == []
    ensures TraceShape(Words(inputStr) + ["$"], Outcome(table, prods, inputStr))
    ensures EndOk(table, Outcome(table, prods, inputStr))
  {
    if table.isLR0 {
      var init := Words(inputStr) + ["$"];
      RunTrace(table, prods, init, Initial(inputStr), 0, []);
      RunEnding(table, prods, Initial(inputStr), 0, []);
    }
  }

  /** Shifting a symbol appends it to the stack's symbols. */
  lemma SymbolsPush(stack: seq<StackSymbol>, x: Symbol, to: nat)
    requires StackOk(stack)
    ensures StackOk(stack + [StackSymbol(Some(x), to)])
    ensures Symbols(stack + [StackSymbol(Some(x), to)]) == Symbols(stack) + [x]
  {
    assert (stack + [StackSymbol(Some(x), to)])[..|stack|] == stack;
  }

  lemma {:induction false} SymbolsPrefix(stack: seq<StackSymbol>, k: nat)
    requires StackOk(stack) && 1 <= k <= |stack|
    ensures StackOk(stack[..k])
    ensures Symbols(stack[..k]) == Symbols(stack)[..k - 1]
    decreases |stack|
  {
    if k < |stack| {
      var init := stack[..|stack| - 1];
      assert init[..k] == stack[..k];
      SymbolsPrefix(init, k);
    } else {
      assert stack[..k] == stack;
    }
  }

  /**
   * The sentential form (stack symbols, then remaining input) under one iteration: a shift
   * leaves it as it is; a reduce by the first production with the entry's id replaces the
   * `|right|` symbols on top of the stack by the left side.
   */
  lemma StepForm(table: LR0ParseTable, prods: seq<Production>, cfg: Config, n: nat)
    requires StackOk(cfg.stack)
    ensures var out := Step(table, prods, cfg, n);
      out.move.Go? && out.logged.entry.value.Shift? ==> Form(out.move.next) == Form(cfg)
    ensures var out := Step(table, prods, cfg, n);
      out.move.Go? && out.logged.entry.value.Reduce? ==>
        && out.logged.rule == FindProduction(prods, out.logged.entry.value.prodId)
        && out.logged.rule.Some?
        && |out.logged.rule.value.right| <= |Symbols(cfg.stack)|
        && Form(out.move.next) ==
           Symbols(cfg.stack)[..|Symbols(cfg.stack)| - |out.logged.rule.value.right|] + [out.logged.rule.value.left] + cfg.input
  {
    ShiftStepForm(table, prods, cfg, n);
    ReduceStepForm(table, prods, cfg, n);
  }

  lemma ShiftStepForm(table: LR0ParseTable, prods: seq<Production>, cfg: Config, n: nat)
    requires StackOk(cfg.stack)
    ensures var out := Step(table, prods, cfg, n);
      out.move.Go? && out.logged.entry.value.Shift? ==> Form(out.move.next) == Form(cfg)
  {
    var a := ActionFor(table, cfg);
    if a.Some? && a.value.Shift? {
      SymbolsPush(cfg.stack, cfg.input[0], a.value.to);
      assert cfg.input == [cfg.input[0]] + cfg.input[1..];
    }
  }

  lemma ReduceStepForm(table: LR0ParseTable, prods: seq<Production>, cfg: Config, n: nat)
    requires StackOk(cfg.stack)
    ensures var out := Step(table, prods, cfg, n);
      out.move.Go? && out.logged.entry.value.Reduce? ==>
        && out.logged.rule == FindProduction(prods, out.logged.entry.value.prodId)
        && out.logged.rule.Some?
        && |out.logged.rule.value.right| <= |Symbols(cfg.stack)|
        && Form(out.move.next) ==
           Symbols(cfg.stack)[..|Symbols(cfg.stack)| - |out.logged.rule.value.right|] + [out.logged.rule.value.left] + cfg.input
  {
    var a := ActionFor(table, cfg);
    if a.Some? && a.value.Reduce? {
      var found := FindProduction(prods, a.value.prodId);
      if found.Some? {
        ReduceForm(table, cfg, found.value);
      }
    }
  }

  /** A reduce that goes on replaces the `|right|` symbols on top of the stack by the left side. */
  lemma ReduceForm(table: LR0ParseTable, cfg: Config, prod: Production)
    requires StackOk(cfg.stack)
    ensures var m := ReduceMove(table, cfg, prod);
      m.Go? ==>
        && StackOk(m.next.stack)
        && |prod.right| <= |Symbols(cfg.stack)|
        && Form(m.next) == Symbols(cfg.stack)[..|Symbols(cfg.stack)| - |prod.right|] + [prod.left] + cfg.input
  {
    var m := ReduceMove(table, cfg, prod);
    if m.Go? {
      var next := m.next;
      var k := |cfg.stack| - |prod.right|;
      SymbolsPrefix(cfg.stack, k);
      var top := next.stack[|next.stack| - 1];
      assert next.stack == cfg.stack[..k] + [top];
      SymbolsPush(cfg.stack[..k], prod.left, top.stateId);
    }
  }

  /**
   * With a table built by `buildLR0ParseTable`, a run is accepted only with `"$"` as the
   * lookahead, which is the end marker itself when the input has no `"$"` word of its own.
   */
  lemma AcceptOnlyAtEnd(a: LR0Automaton, table: LR0ParseTable, inputStr: string)
    requires BuiltFrom(a, table)
    requires Outcome(table, a.grammar.productions, inputStr).Accepted?
    ensures var t := Outcome(table, a.grammar.productions, inputStr).trace;
      t != [] && t[|t| - 1].input != [] && t[|t| - 1].input[0] == "$"
    ensures var t := Outcome(table, a.grammar.productions, inputStr).trace;
      t != [] && "$" !in Words(inputStr) ==> t[|t| - 1].input == ["$"]
  {
    var init := Words(inputStr) + ["$"];
    OutcomeShape(table, a.grammar.productions, inputStr);
    var t := Outcome(table, a.grammar.productions, inputStr).trace;
    var last := t[|t| - 1];
    assert StepOk(init, |t| - 1, last);
    var s, x := Top(last.stack), last.input[0];
    TableEntriesJustified(a, table, s, x);
    var atts := AllAttempts(a);
    var i :| 0 <= i < |atts| && At(atts[i], s, x) && atts[i].entry == Accept && AttemptOk(a.grammar, a.transitions, a.states, atts[i]);
    assert x == "$";
  }
}
