/**
 * `parse` of src/lib/compiler/parser.ts: the shift/reduce driver the editor runs. It keeps a
 * state stack and a symbol stack side by side, logs "symbol state" pairs for every step, has
 * no conflict gate and no underflow check, and stops after 1000 steps. `Outcome` is the run as
 * a function; `Parse` is the loop.
 */
module CompilerParser {
  import opened Wrappers
  import opened Grammars
  import opened LR0Types
  import opened TableCells
  import opened CompilerLR0
  import ParseRun

  /** The `stepCounter > 1000` guard. */
  const StepLimit: nat := 1000

  /** Why a run ended with status `error`; `ErrorText` gives the `errorMsg` the source reports. */
  datatype ParseError = UnexpectedToken(lookahead: string, state: nat) | GotoError | MaxStepsExceeded

  function ErrorText(e: ParseError): string {
    match e
    case UnexpectedToken(look, s) => "Unexpected token '" + look + "' in state " + ParseRun.StateName(s)
    case GotoError => "Goto error (should not happen in valid table)"
    case MaxStepsExceeded => "Max steps exceeded (infinite loop?)"
  }

  datatype Status = Accepted | Error(error: ParseError)

  /** `errorMsg`: empty unless the run ended with an error. */
  function ErrorMsg(s: Status): string {
    match s
    case Accepted => ""
    case Error(e) => ErrorText(e)
  }

  /** A logged step: the rendered stack and the buffer before the action, and the action taken. */
  datatype ParseStep = ParseStep(id: nat, stack: seq<string>, input: seq<Symbol>, action: ParseRun.StepAction)

  /** `{ steps, status, errorMsg }`, the message given by `ErrorMsg(status)`; `Thrown` is the `TypeError` of a reduce by a missing production. */
  datatype ParseResult = ParseResult(steps: seq<ParseStep>, status: Status) | Thrown(prodId: int)

  /** The action text of a step; unlike the canonical trace, a reduce reads `Reduce <raw>`. */
  function ActionText(a: ParseRun.StepAction): string {
    match a
    case Pending => ""
    case ErrorAt(look) => "Error: Unexpected token '" + look + "'"
    case ShiftTo(to) => "Shift " + ParseRun.StateName(to)
    case ReduceBy(raw) => "Reduce " + raw
    case AcceptAction => "Accept"
  }

  /** `stack.map((s, i) => i === 0 ? s : symbolStack[i - 1] + " " + s)`. */
  function RenderStack(stack: seq<nat>, symbols: seq<Symbol>): (r: seq<string>)
    ensures |r| == |stack|
    ensures |stack| > 0 ==> r[0] == ParseRun.StateName(stack[0])
    ensures forall i :: 1 <= i < |stack| && i - 1 < |symbols| ==> r[i] == symbols[i - 1] + " " + ParseRun.StateName(stack[i])
  {
    seq(|stack|, i requires 0 <= i < |stack| =>
      if i == 0 then ParseRun.StateName(stack[0])
      else (if i - 1 < |symbols| then symbols[i - 1] else "undefined") + " " + ParseRun.StateName(stack[i]))
  }

  /** The loop state: the state stack, the symbol stack and the buffer. */
  datatype Config = Config(stack: seq<nat>, symbols: seq<Symbol>, buffer: seq<Symbol>)

  /** The two stacks line up over `S0`: one symbol per state above the bottom. */
  predicate ConfigOk(cfg: Config) {
    |cfg.stack| == |cfg.symbols| + 1 && cfg.stack[0] == 0
  }

  datatype Ending = AcceptInput | Fail(error: ParseError) | Throw(prodId: int)

  datatype Move = Go(next: Config) | Halt(ending: Ending)

  datatype StepOut = StepOut(logged: ParseStep, move: Move)

  function Top(stack: seq<nat>): nat
    requires stack != []
  {
    stack[|stack| - 1]
  }

  /** `table.actions.get(topState)?.get(buffer[0])`; nothing once the buffer is used up. */
  function ActionFor(table: ParseTable, cfg: Config): Option<ActionEntry>
    requires cfg.stack != []
  {
    if cfg.buffer == [] then None else Cell(table.actions, Top(cfg.stack), cfg.buffer[0])
  }

  /**
   * One iteration with step id `id`. A reduce pops `|right|` entries off both stacks, as far as
   * they go; with the state stack emptied the goto lookup finds nothing.
   */
  function Step(prods: seq<Production>, table: ParseTable, cfg: Config, id: nat): (out: StepOut)
    requires cfg.stack != []
    ensures out.logged.id == id && out.logged.stack == RenderStack(cfg.stack, cfg.symbols) && out.logged.input == cfg.buffer
    ensures out.move.Go? ==> out.move.next.stack != []
    ensures out.move.Go? && ConfigOk(cfg) ==> ConfigOk(out.move.next)
    ensures out.move.Go? ==> out.move.next.buffer == cfg.buffer || (cfg.buffer != [] && out.move.next.buffer == cfg.buffer[1..])
    ensures out.move == Halt(AcceptInput) <==> ActionFor(table, cfg) == Some(Accept)
    ensures out.move == Halt(AcceptInput) ==> out.logged.action == ParseRun.AcceptAction
    ensures out.move != Halt(Fail(MaxStepsExceeded))
  {
    var top := Top(cfg.stack);
    var logged := ParseStep(id, RenderStack(cfg.stack, cfg.symbols), cfg.buffer, ParseRun.Pending);
    match ActionFor(table, cfg)
    case None =>
      var look := ParseRun.LookaheadText(cfg.buffer);
      StepOut(logged.(action := ParseRun.ErrorAt(look)), Halt(Fail(UnexpectedToken(look, top))))
    case Some(Shift(to)) =>
      StepOut(logged.(action := ParseRun.ShiftTo(to)),
              Go(Config(cfg.stack + [to], cfg.symbols + [cfg.buffer[0]], cfg.buffer[1..])))
    case Some(Accept) =>
      StepOut(logged.(action := ParseRun.AcceptAction), Halt(AcceptInput))
    case Some(Reduce(p)) =>
      match ParseRun.FindProduction(prods, p)
      case None => StepOut(logged, Halt(Throw(p)))
      case Some(prod) => StepOut(logged.(action := ParseRun.ReduceBy(prod.raw)), ReduceMove(table, cfg, prod))
  }

  /** Pop `|right|` from both stacks (an empty stack stays empty), then push the goto state and the left side. */
  function ReduceMove(table: ParseTable, cfg: Config, prod: Production): (m: Move)
    ensures m.Halt? ==> m == Halt(Fail(GotoError))
    ensures |prod.right| >= |cfg.stack| ==> m == Halt(Fail(GotoError))
    ensures m.Go? ==>
      && |prod.right| < |cfg.stack| && m.next.buffer == cfg.buffer && m.next.stack != []
      && m.next.stack[..|m.next.stack| - 1] == cfg.stack[..|cfg.stack| - |prod.right|]
      && GotoAt(table.goto, Top(cfg.stack[..|cfg.stack| - |prod.right|]), prod.left) == Some(Top(m.next.stack))
  {
    var n := |prod.right|;
    var stack := if n <= |cfg.stack| then cfg.stack[..|cfg.stack| - n] else [];
    var symbols := if n <= |cfg.symbols| then cfg.symbols[..|cfg.symbols| - n] else [];
    if stack == [] then Halt(Fail(GotoError))
    else
      match GotoAt(table.goto, Top(stack), prod.left)
      case None => Halt(Fail(GotoError))
      case Some(g) => Go(Config(stack + [g], symbols + [prod.left], cfg.buffer))
  }

  function GotoAt(goto: GotoTable, s: nat, x: Symbol): Option<nat> {
    if s in goto && x in goto[s] then Some(goto[s][x]) else None
  }

  function Halted(out: StepOut, steps: seq<ParseStep>): ParseResult
    requires out.move.Halt?
  {
    match out.move.ending
    case AcceptInput => ParseResult(steps + [out.logged], Accepted)
    case Fail(e) => ParseResult(steps + [out.logged], Error(e))
    case Throw(p) => Thrown(p)
  }

  /** The loop from the step with id `counter` on, with `steps` logged so far. */
  function Run(prods: seq<Production>, table: ParseTable, cfg: Config, counter: nat, steps: seq<ParseStep>): ParseResult
    requires cfg.stack != [] && 1 <= counter <= StepLimit + 1
    decreases StepLimit + 1 - counter, 1
  {
    if counter > StepLimit then ParseResult(steps, Error(MaxStepsExceeded))
    else Continue(prods, table, Step(prods, table, cfg, counter), counter, steps)
  }

  /** The rest of the loop once step `counter` has come out as `out`. */
  function Continue(prods: seq<Production>, table: ParseTable, out: StepOut, counter: nat, steps: seq<ParseStep>): ParseResult
    requires 1 <= counter <= StepLimit && (out.move.Go? ==> out.move.next.stack != [])
    decreases StepLimit + 1 - counter, 0
  {
    match out.move
    case Go(next) => Run(prods, table, next, counter + 1, steps + [out.logged])
    case Halt(_) => Halted(out, steps)
  }

  /** The stacks `["S0"]` and `[]`, and the tokens followed by `"$"`. */
  function Initial(tokens: seq<Symbol>): Config {
    Config([0], [], tokens + ["$"])
  }

  /** `parse(grammar, table, inputTokens)`, with the grammar's productions. */
  function Outcome(prods: seq<Production>, table: ParseTable, tokens: seq<Symbol>): ParseResult {
    Run(prods, table, Initial(tokens), 1, [])
  }

  lemma RunStep(prods: seq<Production>, table: ParseTable, cfg: Config, counter: nat, steps: seq<ParseStep>)
    requires cfg.stack != [] && 1 <= counter <= StepLimit
    ensures var out := Step(prods, table, cfg, counter);
      Run(prods, table, cfg, counter, steps) == match out.move
        case Go(next) => Run(prods, table, next, counter + 1, steps + [out.logged])
        case Halt(_) => Halted(out, steps)
  {
  }

  /** `for (i < popSize) { stack.pop(); symbolStack.pop(); }`: popping an empty array leaves it empty. */
  method PopBoth(stack: seq<nat>, symbols: seq<Symbol>, popSize: nat) returns (stack': seq<nat>, symbols': seq<Symbol>)
    ensures stack' == if popSize <= |stack| then stack[..|stack| - popSize] else []
    ensures symbols' == if popSize <= |symbols| then symbols[..|symbols| - popSize] else []
  {
    stack', symbols' := stack, symbols;
    for i := 0 to popSize
      invariant stack' == if i <= |stack| then stack[..|stack| - i] else []
      invariant symbols' == if i <= |symbols| then symbols[..|symbols| - i] else []
    {
      if stack' != [] {
        stack' := stack'[..|stack'| - 1];
      }
      if symbols' != [] {
        symbols' := symbols'[..|symbols'| - 1];
      }
    }
  }

  /** The reduce branch after the pops: look up the goto of the uncovered state and push it with the left side. */
  method Reducing(table: ParseTable, stack: seq<nat>, symbolStack: seq<Symbol>, buffer: seq<Symbol>, prod: Production)
    returns (failed: bool, stack': seq<nat>, symbolStack': seq<Symbol>)
    ensures failed <==> ReduceMove(table, Config(stack, symbolStack, buffer), prod).Halt?
    ensures !failed ==> ReduceMove(table, Config(stack, symbolStack, buffer), prod) == Go(Config(stack', symbolStack', buffer))
  {
    stack', symbolStack' := PopBoth(stack, symbolStack, |prod.right|);
    if stack' == [] {
      return true, stack', symbolStack';
    }
    var t := stack'[|stack'| - 1];
    var gotoState := GotoAt(table.goto, t, prod.left);
    if gotoState.None? {
      return true, stack', symbolStack';
    }
    failed := false;
    symbolStack' := symbolStack' + [prod.left];
    stack' := stack' + [gotoState.value];
  }

  /** One pass of the `while` body after the step guard: log the step, then act. */
  method Iteration(prods: seq<Production>, table: ParseTable, stack: seq<nat>, symbolStack: seq<Symbol>, buffer: seq<Symbol>,
                   steps: seq<ParseStep>, stepCounter: nat)
    returns (halt: Option<ParseResult>, stack': seq<nat>, symbolStack': seq<Symbol>, buffer': seq<Symbol>, steps': seq<ParseStep>)
    requires stack != [] && 1 <= stepCounter <= StepLimit
    ensures halt.Some? ==> halt.value == Run(prods, table, Config(stack, symbolStack, buffer), stepCounter, steps)
    ensures halt.None? ==> stack' != []
    ensures halt.None? ==>
      Run(prods, table, Config(stack, symbolStack, buffer), stepCounter, steps) ==
      Run(prods, table, Config(stack', symbolStack', buffer'), stepCounter + 1, steps')
  {
    RunStep(prods, table, Config(stack, symbolStack, buffer), stepCounter, steps);
    ghost var out := Step(prods, table, Config(stack, symbolStack, buffer), stepCounter);
    halt, stack', symbolStack', buffer' := None, stack, symbolStack, buffer;
    var topState := stack[|stack| - 1];
    steps' := steps + [ParseStep(stepCounter, RenderStack(stack, symbolStack), buffer, ParseRun.Pending)];
    var last := |steps'| - 1;
    var action := if buffer == [] then None else Cell(table.actions, topState, buffer[0]);
    if action.None? {
      var currentToken := if buffer == [] then "undefined" else buffer[0];
      steps' := steps'[last := steps'[last].(action := ParseRun.ErrorAt(currentToken))];
      assert steps' == steps + [out.logged];
      return Some(ParseResult(steps', Error(UnexpectedToken(currentToken, topState)))), stack', symbolStack', buffer', steps';
    }
    match action.value {
      case Shift(to) =>
        steps' := steps'[last := steps'[last].(action := ParseRun.ShiftTo(to))];
        assert steps' == steps + [out.logged];
        stack' := stack + [to];
        symbolStack' := symbolStack + [buffer[0]];
        buffer' := buffer[1..];
        assert out.move == Go(Config(stack', symbolStack', buffer'));
      case Reduce(p) =>
        var found := ParseRun.FindProduction(prods, p);
        if found.None? {
          return Some(Thrown(p)), stack', symbolStack', buffer', steps';
        }
        var prod := found.value;
        steps' := steps'[last := steps'[last].(action := ParseRun.ReduceBy(prod.raw))];
        assert steps' == steps + [out.logged];
        var failed;
        failed, stack', symbolStack' := Reducing(table, stack, symbolStack, buffer, prod);
        if failed {
          return Some(ParseResult(steps', Error(GotoError))), stack', symbolStack', buffer', steps';
        }
      case Accept =>
        steps' := steps'[last := steps'[last].(action := ParseRun.AcceptAction)];
        assert steps' == steps + [out.logged];
        return Some(ParseResult(steps', Accepted)), stack', symbolStack', buffer', steps';
    }
  }

  /** `parse`: run while the status is `running`, giving up once the step counter passes 1000. */
  method Parse(grammar: AugmentedGrammar, table: ParseTable, inputTokens: seq<Symbol>) returns (result: ParseResult)
    ensures result == Outcome(grammar.productions, table, inputTokens)
  {
    var prods := grammar.productions;
    var stack := [0];
    var symbolStack: seq<Symbol> := [];
    var buffer := inputTokens + ["$"];
    var steps: seq<ParseStep> := [];
    var stepCounter := 1;
    var status: Option<ParseResult> := None;
    while status.None?
      invariant 1 <= stepCounter <= StepLimit + 1 && stack != []
      invariant status.None? ==>
        Outcome(prods, table, inputTokens) == Run(prods, table, Config(stack, symbolStack, buffer), stepCounter, steps)
      invariant status.Some? ==> status.value == Outcome(prods, table, inputTokens)
      decreases StepLimit + 1 - stepCounter + (if status.None? then 1 else 0)
    {
      if stepCounter > StepLimit {
        status := Some(ParseResult(steps, Error(MaxStepsExceeded)));
        break;
      }
      var halt, stack', symbolStack', buffer', steps' := Iteration(prods, table, stack, symbolStack, buffer, steps, stepCounter);
      stepCounter := stepCounter + 1;
      if halt.Some? {
        status := halt;
      } else {
        stack, symbolStack, buffer, steps := stack', symbolStack', buffer', steps';
      }
    }
    result := status.value;
  }

  /** Step i of a run over `buffer0`: id i + 1, `S0` first on the logged stack, and a suffix of the buffer. */
  predicate StepOk(buffer0: seq<Symbol>, i: nat, st: ParseStep) {
    st.id == i + 1 && st.stack != [] && st.stack[0] == "S0" && ParseRun.IsSuffix(st.input, buffer0)
  }

  predicate StepsOk(buffer0: seq<Symbol>, steps: seq<ParseStep>) {
    forall i :: 0 <= i < |steps| ==> StepOk(buffer0, i, steps[i])
  }

  /** A run's steps, when it has them, are well-formed over `buffer0` and at most 1000. */
  predicate StepsShape(buffer0: seq<Symbol>, r: ParseResult) {
    r.ParseResult? ==> |r.steps| <= StepLimit && StepsOk(buffer0, r.steps)
  }

  /** An accepted run's last step found `accept`; a run the guard stops has exactly 1000 steps. */
  predicate EndOk(table: ParseTable, r: ParseResult) {
    && (r.ParseResult? && r.status == Accepted ==>
          r.steps != [] && r.steps[|r.steps| - 1].action == ParseRun.AcceptAction)
    && (r.ParseResult? && r.status == Error(MaxStepsExceeded) ==> |r.steps| == StepLimit)
  }

  lemma LoggedOk(prods: seq<Production>, table: ParseTable, buffer0: seq<Symbol>, cfg: Config, counter: nat)
    requires ConfigOk(cfg) && ParseRun.IsSuffix(cfg.buffer, buffer0) && counter >= 1
    ensures StepOk(buffer0, counter - 1, Step(prods, table, cfg, counter).logged)
  {
    assert ParseRun.StateName(0) == "S0";
  }

  lemma StepsOkAppend(buffer0: seq<Symbol>, steps: seq<ParseStep>, st: ParseStep)
    requires StepsOk(buffer0, steps) && StepOk(buffer0, |steps|, st)
    ensures StepsOk(buffer0, steps + [st])
  {
    var t := steps + [st];
    forall i | 0 <= i < |t| ensures StepOk(buffer0, i, t[i]) {
      if i < |steps| {
        assert t[i] == steps[i];
      }
    }
  }

  /**
   * What every run keeps from the loop state on: the steps are extended, never rewritten; they
   * are numbered 1, 2, 3, … with `S0` at the bottom of every logged stack and suffixes of the
   * buffer; there are at most 1000 of them.
   */
  lemma {:induction false} RunSteps(prods: seq<Production>, table: ParseTable, buffer0: seq<Symbol>, cfg: Config, counter: nat, steps: seq<ParseStep>)
    requires 1 <= counter <= StepLimit + 1 && |steps| == counter - 1
    requires ConfigOk(cfg) && ParseRun.IsSuffix(cfg.buffer, buffer0) && StepsOk(buffer0, steps)
    ensures StepsShape(buffer0, Run(prods, table, cfg, counter, steps))
    decreases StepLimit + 1 - counter, 1
  {
    if counter <= StepLimit {
      var out := Step(prods, table, cfg, counter);
      LoggedOk(prods, table, buffer0, cfg, counter);
      if out.move.Go? && out.move.next.buffer != cfg.buffer {
        ParseRun.SuffixTail(cfg.buffer, buffer0);
      }
      ContinueSteps(prods, table, buffer0, out, counter, steps);
    }
  }

  /** `RunSteps` from a step's outcome, knowing of the step only what its contract says. */
  lemma {:induction false} ContinueSteps(prods: seq<Production>, table: ParseTable, buffer0: seq<Symbol>, out: StepOut, counter: nat, steps: seq<ParseStep>)
    requires 1 <= counter <= StepLimit && |steps| == counter - 1
    requires StepsOk(buffer0, steps) && StepOk(buffer0, counter - 1, out.logged)
    requires out.move.Go? ==> ConfigOk(out.move.next) && ParseRun.IsSuffix(out.move.next.buffer, buffer0)
    ensures StepsShape(buffer0, Continue(prods, table, out, counter, steps))
    decreases StepLimit + 1 - counter, 0
  {
    StepsOkAppend(buffer0, steps, out.logged);
    if out.move.Go? {
      RunSteps(prods, table, buffer0, out.move.next, counter + 1, steps + [out.logged]);
    } else {
      HaltedShape(buffer0, out, steps);
    }
  }

  lemma HaltedShape(buffer0: seq<Symbol>, out: StepOut, steps: seq<ParseStep>)
    requires out.move.Halt? && |steps| < StepLimit && StepsOk(buffer0, steps + [out.logged])
    ensures StepsShape(buffer0, Halted(out, steps))
  {
  }

  /** The result, when it has steps, starts with `steps`. */
  predicate Extends(steps: seq<ParseStep>, r: ParseResult) {
    r.ParseResult? ==> |steps| <= |r.steps| && r.steps[..|steps|] == steps
  }

  lemma {:induction false} RunPrefix(prods: seq<Production>, table: ParseTable, cfg: Config, counter: nat, steps: seq<ParseStep>)
    requires 1 <= counter <= StepLimit + 1 && cfg.stack != []
    ensures Extends(steps, Run(prods, table, cfg, counter, steps))
    decreases StepLimit + 1 - counter, 1
  {
    if counter <= StepLimit {
      ContinuePrefix(prods, table, Step(prods, table, cfg, counter), counter, steps);
    }
  }

  lemma {:induction false} ContinuePrefix(prods: seq<Production>, table: ParseTable, out: StepOut, counter: nat, steps: seq<ParseStep>)
    requires 1 <= counter <= StepLimit && (out.move.Go? ==> out.move.next.stack != [])
    ensures Extends(steps, Continue(prods, table, out, counter, steps))
    decreases StepLimit + 1 - counter, 0
  {
    var t := steps + [out.logged];
    if out.move.Go? {
      RunPrefix(prods, table, out.move.next, counter + 1, t);
      ExtendsTrans(steps, t, Run(prods, table, out.move.next, counter + 1, t));
    } else {
      HaltedPrefix(out, steps);
    }
  }

  lemma ExtendsTrans(steps: seq<ParseStep>, t: seq<ParseStep>, r: ParseResult)
    requires |steps| <= |t| && t[..|steps|] == steps && Extends(t, r)
    ensures Extends(steps, r)
  {
    if r.ParseResult? {
      assert r.steps[..|steps|] == r.steps[..|t|][..|steps|];
    }
  }

  lemma HaltedPrefix(out: StepOut, steps: seq<ParseStep>)
    requires out.move.Halt?
    ensures Extends(steps, Halted(out, steps))
  {
    assert (steps + [out.logged])[..|steps|] == steps;
  }

  lemma HaltedEnd(table: ParseTable, out: StepOut, steps: seq<ParseStep>)
    requires out.move.Halt? && out.move != Halt(Fail(MaxStepsExceeded))
    requires out.move == Halt(AcceptInput) ==> out.logged.action == ParseRun.AcceptAction
    ensures EndOk(table, Halted(out, steps))
  {
  }

  lemma {:induction false} RunEnding(prods: seq<Production>, table: ParseTable, cfg: Config, counter: nat, steps: seq<ParseStep>)
    requires 1 <= counter <= StepLimit + 1 && |steps| == counter - 1 && cfg.stack != []
    ensures EndOk(table, Run(prods, table, cfg, counter, steps))
    decreases StepLimit + 1 - counter, 1
  {
    if counter <= StepLimit {
      ContinueEnding(prods, table, Step(prods, table, cfg, counter), counter, steps);
    }
  }

  lemma {:induction false} ContinueEnding(prods: seq<Production>, table: ParseTable, out: StepOut, counter: nat, steps: seq<ParseStep>)
    requires 1 <= counter <= StepLimit && |steps| == counter - 1 && (out.move.Go? ==> out.move.next.stack != [])
    requires out.move != Halt(Fail(MaxStepsExceeded))
    requires out.move == Halt(AcceptInput) ==> out.logged.action == ParseRun.AcceptAction
    ensures EndOk(table, Continue(prods, table, out, counter, steps))
    decreases StepLimit + 1 - counter, 0
  {
    if out.move.Go? {
      RunEnding(prods, table, out.move.next, counter + 1, steps + [out.logged]);
    } else {
      HaltedEnd(table, out, steps);
    }
  }

  /**
   * `parse`: whatever the table (there is no conflict gate), the steps are numbered from 1 with
   * `S0` at the bottom of every logged stack, the buffer is only consumed from the front, there
   * are at most 1000 steps, exactly 1000 when the guard stops the run, and an accepted run ends
   * on an `Accept` step.
   */
  lemma OutcomeShape(prods: seq<Production>, table: ParseTable, tokens: seq<Symbol>)
    ensures StepsShape(tokens + ["$"], Outcome(prods, table, tokens))
    ensures EndOk(table, Outcome(prods, table, tokens))
  {
    RunSteps(prods, table, tokens + ["$"], Initial(tokens), 1, []);
    RunEnding(prods, table, Initial(tokens), 1, []);
  }

  /** The symbols on the symbol stack followed by the buffer. */
  function Form(cfg: Config): seq<Symbol> {
    cfg.symbols + cfg.buffer
  }

  /**
   * A shift leaves the sentential form as it is; a reduce by the first production with the
   * entry's id replaces the `|right|` symbols on top of the symbol stack by the left side.
   */
  lemma StepForm(prods: seq<Production>, table: ParseTable, cfg: Config, id: nat)
    requires ConfigOk(cfg)
    ensures var out := Step(prods, table, cfg, id);
      out.move.Go? && ActionFor(table, cfg).value.Shift? ==> Form(out.move.next) == Form(cfg)
    ensures var out := Step(prods, table, cfg, id);
      out.move.Go? && ActionFor(table, cfg).value.Reduce? ==>
        && ParseRun.FindProduction(prods, ActionFor(table, cfg).value.prodId).Some?
        && var prod := ParseRun.FindProduction(prods, ActionFor(table, cfg).value.prodId).value;
           |prod.right| <= |cfg.symbols| &&
           Form(out.move.next) == cfg.symbols[..|cfg.symbols| - |prod.right|] + [prod.left] + cfg.buffer
  {
    match ActionFor(table, cfg)
    case Some(Shift(_)) =>
      assert cfg.buffer == [cfg.buffer[0]] + cfg.buffer[1..];
    case Some(Reduce(p)) =>
      var found := ParseRun.FindProduction(prods, p);
      if found.Some? {
        ReduceForm(table, cfg, found.value);
      }
    case _ =>
  }

  /** A reduce that goes on replaces the `|right|` symbols on top of the symbol stack by the left side. */
  lemma ReduceForm(table: ParseTable, cfg: Config, prod: Production)
    requires ConfigOk(cfg)
    ensures var m := ReduceMove(table, cfg, prod);
      m.Go? ==> |prod.right| <= |cfg.symbols| && Form(m.next) == cfg.symbols[..|cfg.symbols| - |prod.right|] + [prod.left] + cfg.buffer
  {
  }
}
