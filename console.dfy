/**
  The control core of the REPL console: its lifecycle, the rule chain that
  routes each line of input to exactly one command, and the ordered list of
  completion providers.

  Collaborators are abstracted: a command is a pure predicate plus an opaque
  effect that logs lines (and may throw); the history is a sequence of
  entries; the logger is a buffer of lines; the effects on the evaluator and
  on the history file are recorded as events in `trace`.
 */
module Console {
  import opened Wrappers
  import opened Rules

  /** The five lifecycle states of a console. */
  datatype ConsoleStatus = Idle | Starting | Running | Terminating | Terminated

  /** What one run of a command's effect did: the lines it logged, and the exception it threw, if any. */
  datatype Outcome = Completed(lines: seq<string>) | Threw(lines: seq<string>, error: string)

  /**
    A registered command. `matches` is its predicate; `execute` is its effect,
    applied to the input and to the history as it stands when the command
    runs; `hasCompleter` says whether the command contributes a completer.
   */
  datatype Command = Command(
    matches: string -> bool,
    execute: (string, seq<string>) -> Outcome,
    hasCompleter: bool)

  /** The result of evaluating one line: the line itself and the log lines its command produced. */
  datatype ConsoleResult = ConsoleResult(expression: string, logs: seq<string>)

  /** The result returned when no command claims the input. */
  const EmptyResult := ConsoleResult("", [])

  /** The handler half of an evaluation rule: run command number `command`, or return the empty result. */
  datatype Handler = AsFunction(command: nat) | ReturnsEmpty

  /** The observable steps of a console, in the order they happen. */
  datatype Event =
    | StatusChanged(status: ConsoleStatus)
    | Dispatched(expression: string, handledBy: Option<nat>)  // handledBy == None: the catch-all rule served it
    | HistorySaved(entries: seq<string>)
    | OutputDirectoryCleared
    | ResultsAdded(count: nat)

  /** The configuration a console is built from. */
  datatype ConsoleConfig = ConsoleConfig(
    historyFile: seq<string>,  // the entries already in the history file
    expressions: seq<string>,  // the startup expressions, in order
    results: nat,              // how many earlier evaluation results are handed to the evaluator
    logger: seq<string>)       // the lines the supplied logger already holds

  /** A completion provider, in the place the console registers it. */
  datatype Provider =
    | CommandCompleter(command: nat)
    | JavaKeywordCompleter
    | ConsoleCompleter
    | TypeCompleter
    | StaticMemberCompleter
    | InstanceMemberCompleter

  /** A completer that merges the suggestions of its providers, queried in this order. */
  datatype AggregateCompleter = AggregateCompleter(providers: seq<Provider>)

  /** A completion request: which expression is put to which providers, in which order. */
  datatype CompletionQuery = CompletionQuery(expression: string, providers: seq<Provider>)

  /** What one dispatch yields: the result (or the exception), the logger afterwards, the events it adds. */
  datatype Evaluation = Evaluation(result: Result<ConsoleResult, string>, logs: seq<string>, events: seq<Event>)

  /** What replaying the startup expressions yields: the logger afterwards, the events, the exception that stopped it. */
  datatype Replayed = Replayed(logs: seq<string>, events: seq<Event>, failure: Option<string>)

  // ---------------------------------------------------------------------------
  // The evaluation rules

  /** The rules contributed by the first `n` commands, each its predicate paired with its own handler. */
  function CommandRules(commands: seq<Command>, n: nat): (rules: seq<Rule<Handler>>)
    requires n <= |commands|
  {
    seq(n, i requires 0 <= i < n => Rule(commands[i].matches, AsFunction(i)))
  }

  /** The full chain: one rule per command in registration order, then the catch-all returning the empty result. */
  function EvaluationRulesOf(commands: seq<Command>): (rules: seq<Rule<Handler>>)
  {
    CommandRules(commands, |commands|) + [Rule(Always, ReturnsEmpty)]
  }

  /**
    The command the evaluation rules select for `expression`: the lowest-indexed
    command whose predicate holds, or None (the catch-all) exactly when no
    command's predicate holds.
   */
  function Selected(commands: seq<Command>, expression: string): (k: Option<nat>)
    ensures k.Some? ==> k.value < |commands| && commands[k.value].matches(expression)
    ensures k.Some? ==> forall j :: 0 <= j < k.value ==> !commands[j].matches(expression)
    ensures k.None? <==> forall j :: 0 <= j < |commands| ==> !commands[j].matches(expression)
  {
    var rules := EvaluationRulesOf(commands);
    assert rules[|commands|].matches(expression);
    var m := FirstMatch(rules, expression).value;
    assert forall j :: 0 <= j < |commands| ==> rules[j].matches == commands[j].matches;
    if m < |commands| then Some(m) else None
  }

  /** The handler the evaluation rules select for `expression`. */
  function SelectedHandler(commands: seq<Command>, expression: string): (h: Handler)
    ensures h.AsFunction? ==> h.command < |commands|
  {
    match Selected(commands, expression)
    case Some(k) => AsFunction(k)
    case None => ReturnsEmpty
  }

  /**
    Running one handler on `expression`. A command's handler resets the
    logger, runs the command, and answers with the input and exactly the
    lines the command logged; an exception the command throws propagates.
    The catch-all answers with the empty result and leaves the logger alone.
   */
  function Handle(commands: seq<Command>, handler: Handler, expression: string,
                  history: seq<string>, logs: seq<string>): (e: Evaluation)
    requires handler.AsFunction? ==> handler.command < |commands|
  {
    match handler
    case ReturnsEmpty =>
      Evaluation(Success(EmptyResult), logs, [Dispatched(expression, None)])
    case AsFunction(c) =>
      var outcome := commands[c].execute(expression, history);
      var logged := outcome.lines;  // what the reset logger holds once the command has run
      var result := if outcome.Threw? then Failure(outcome.error) else Success(ConsoleResult(expression, logged));
      Evaluation(result, logged, [Dispatched(expression, Some(c))])
  }

  /** Evaluating one line through the evaluation rules, with the given history and logger contents. */
  function Evaluate(commands: seq<Command>, expression: string, history: seq<string>, logs: seq<string>): (e: Evaluation)
  {
    Handle(commands, SelectedHandler(commands, expression), expression, history, logs)
  }

  /**
    Replaying the startup expressions one after the other through the
    evaluation rules; an exception thrown by one of them ends the replay.
   */
  function Replay(commands: seq<Command>, expressions: seq<string>, history: seq<string>, logs: seq<string>): (r: Replayed)
    decreases |expressions|
  {
    if expressions == [] then Replayed(logs, [], None)
    else
      var done := Replay(commands, expressions[..|expressions| - 1], history, logs);
      if done.failure.Some? then done
      else
        var e := Evaluate(commands, expressions[|expressions| - 1], history, done.logs);
        Replayed(e.logs, done.events + e.events, if e.result.Failure? then Some(e.result.error) else None)
  }

  // ---------------------------------------------------------------------------
  // Completion providers

  /** The indices, among the first `n` commands, of the commands that contribute a completer, in registration order. */
  function CompleterIndices(commands: seq<Command>, n: nat): (r: seq<nat>)
    requires n <= |commands|
    ensures forall i :: 0 <= i < |r| ==> r[i] < n && commands[r[i]].hasCompleter
    ensures forall i, j :: 0 <= i < j < |r| ==> r[i] < r[j]
    ensures forall c :: 0 <= c < n && commands[c].hasCompleter ==> c in r
  {
    if n == 0 then []
    else CompleterIndices(commands, n - 1) + (if commands[n - 1].hasCompleter then [n - 1] else [])
  }

  /** The five completers every console registers after the commands' own, in this order. */
  const BuiltinCompleters: seq<Provider> :=
    [JavaKeywordCompleter, ConsoleCompleter, TypeCompleter, StaticMemberCompleter, InstanceMemberCompleter]

  /**
    The console's provider list: the completers of the commands that have one,
    in registration order and each once, followed by the five built-in
    completers.
   */
  function CompletionProviders(commands: seq<Command>): (p: seq<Provider>)
    ensures |p| >= 5 && p[|p| - 5..] == BuiltinCompleters
    ensures forall i :: 0 <= i < |p| - 5 ==> p[i].CommandCompleter? && p[i].command < |commands| && commands[p[i].command].hasCompleter
    ensures forall i, j :: 0 <= i < j < |p| - 5 ==> p[i].command < p[j].command
    ensures forall c :: 0 <= c < |commands| && commands[c].hasCompleter ==> CommandCompleter(c) in p[..|p| - 5]
  {
    var indices := CompleterIndices(commands, |commands|);
    var own := seq(|indices|, i requires 0 <= i < |indices| => CommandCompleter(indices[i]));
    assert forall c :: 0 <= c < |commands| && commands[c].hasCompleter ==> CommandCompleter(c) in own by {
      forall c | 0 <= c < |commands| && commands[c].hasCompleter
        ensures CommandCompleter(c) in own
      {
        var i :| 0 <= i < |indices| && indices[i] == c;
        assert own[i] == CommandCompleter(c);
      }
    }
    var p := own + BuiltinCompleters;
    assert p[..|p| - 5] == own;
    p
  }

  // ---------------------------------------------------------------------------
  // Lemmas about evaluation and replay

  /** An input no command claims yields the empty result, leaves the logger alone and runs no command. */
  lemma UnclaimedInputIsEmpty(commands: seq<Command>, expression: string, history: seq<string>, logs: seq<string>)
    requires forall j :: 0 <= j < |commands| ==> !commands[j].matches(expression)
    ensures Evaluate(commands, expression, history, logs) == Evaluation(Success(EmptyResult), logs, [Dispatched(expression, None)])
  {
  }

  /**
    When command `k` is the first whose predicate holds, its handler alone runs:
    the logger ends up holding exactly the lines it logged, and the result is the
    input with those lines (or the exception it threw).
   */
  lemma FirstClaimantRuns(commands: seq<Command>, expression: string, history: seq<string>, logs: seq<string>, k: nat)
    requires k < |commands| && commands[k].matches(expression)
    requires forall j :: 0 <= j < k ==> !commands[j].matches(expression)
    ensures var e := Evaluate(commands, expression, history, logs);
      var outcome := commands[k].execute(expression, history);
      && e.events == [Dispatched(expression, Some(k))]
      && e.logs == outcome.lines
      && e.result == if outcome.Threw? then Failure(outcome.error) else Success(ConsoleResult(expression, outcome.lines))
  {
  }

  /**
    Every dispatch runs at most one command, and a successful result that
    is not the empty one echoes the input and carries exactly the lines the
    logger holds afterwards.
   */
  lemma ResultEchoesInput(commands: seq<Command>, expression: string, history: seq<string>, logs: seq<string>)
    ensures var e := Evaluate(commands, expression, history, logs);
      && |e.events| == 1
      && e.events[0] == Dispatched(expression, Selected(commands, expression))
      && (Selected(commands, expression).Some? && e.result.Success? ==>
            e.result.value == ConsoleResult(expression, e.logs))
      && (Selected(commands, expression).None? ==> e.result == Success(EmptyResult) && e.logs == logs)
  {
  }

  /** What a command logs and returns depends on the input and history, not on what the logger held before. */
  lemma ResultIgnoresEarlierLogs(commands: seq<Command>, expression: string, history: seq<string>, logs1: seq<string>, logs2: seq<string>)
    ensures Evaluate(commands, expression, history, logs1).result == Evaluate(commands, expression, history, logs2).result
    ensures Evaluate(commands, expression, history, logs1).events == Evaluate(commands, expression, history, logs2).events
  {
  }

  /** `events` dispatches a prefix of `expressions`, one event each, in order, each to the command the rules select. */
  ghost predicate DispatchedInOrder(commands: seq<Command>, expressions: seq<string>, events: seq<Event>)
  {
    && |events| <= |expressions|
    && forall i :: 0 <= i < |events| ==> events[i] == Dispatched(expressions[i], Selected(commands, expressions[i]))
  }

  /**
    Replaying the startup expressions dispatches them one at a time, in
    configuration order, each at most once, to the command the rules select;
    without an exception every expression is dispatched exactly once.
   */
  lemma {:induction false} ReplayDispatchesInOrder(commands: seq<Command>, expressions: seq<string>, history: seq<string>, logs: seq<string>)
    ensures DispatchedInOrder(commands, expressions, Replay(commands, expressions, history, logs).events)
    ensures Replay(commands, expressions, history, logs).failure.None? ==>
      |Replay(commands, expressions, history, logs).events| == |expressions|
  {
    if expressions != [] {
      var n := |expressions|;
      var front := expressions[..n - 1];
      ReplayDispatchesInOrder(commands, front, history, logs);
      var done := Replay(commands, front, history, logs);
      var r := Replay(commands, expressions, history, logs);
      if done.failure.None? {
        var e := Evaluate(commands, expressions[n - 1], history, done.logs);
        ResultEchoesInput(commands, expressions[n - 1], history, done.logs);
        assert r.events == done.events + e.events;
        forall i | 0 <= i < |r.events|
          ensures r.events[i] == Dispatched(expressions[i], Selected(commands, expressions[i]))
        {
          if i < n - 1 {
            assert front[i] == expressions[i];
          }
        }
      } else {
        forall i | 0 <= i < |r.events|
          ensures r.events[i] == Dispatched(expressions[i], Selected(commands, expressions[i]))
        {
          assert front[i] == expressions[i];
        }
      }
    }
  }

  /** Command `k`, the one the rules select for `expression`, threw the exception `failure`. */
  ghost predicate ThrownBy(commands: seq<Command>, expression: string, history: seq<string>, failure: Option<string>)
  {
    && Selected(commands, expression).Some?
    && commands[Selected(commands, expression).value].execute(expression, history).Threw?
    && failure == Some(commands[Selected(commands, expression).value].execute(expression, history).error)
  }

  /**
    An exception ends the replay right after the startup expression whose
    command threw it: that expression is the last one dispatched, a command
    claimed it, and the replay reports that command's exception.
   */
  lemma {:induction false} ReplayStopsAtThrow(commands: seq<Command>, expressions: seq<string>, history: seq<string>, logs: seq<string>)
    requires Replay(commands, expressions, history, logs).failure.Some?
    ensures 0 < |Replay(commands, expressions, history, logs).events| <= |expressions|
    ensures ThrownBy(commands, expressions[|Replay(commands, expressions, history, logs).events| - 1], history,
                     Replay(commands, expressions, history, logs).failure)
  {
    var n := |expressions|;
    var front := expressions[..n - 1];
    var done := Replay(commands, front, history, logs);
    if done.failure.Some? {
      assert front == expressions[..n - 1];
      FailureEndsReplay(commands, expressions, history, logs, n - 1);
      ReplayStopsAtThrow(commands, front, history, logs);
      assert front[|done.events| - 1] == expressions[|done.events| - 1];
    } else {
      ReplayEventCount(commands, front, history, logs);
      ReplayLastStep(commands, expressions, history, logs);
      assert |Replay(commands, expressions, history, logs).events| == n;
    }
  }

  /** A replay dispatches at most one expression per startup expression, and all of them when no exception ends it. */
  lemma {:induction false} ReplayEventCount(commands: seq<Command>, expressions: seq<string>, history: seq<string>, logs: seq<string>)
    ensures |Replay(commands, expressions, history, logs).events| <= |expressions|
    ensures Replay(commands, expressions, history, logs).failure.None? ==>
      |Replay(commands, expressions, history, logs).events| == |expressions|
  {
    if expressions != [] {
      var front := expressions[..|expressions| - 1];
      ReplayEventCount(commands, front, history, logs);
      var done := Replay(commands, front, history, logs);
      if done.failure.None? {
        ResultEchoesInput(commands, expressions[|expressions| - 1], history, done.logs);
      }
    }
  }


  /** The command the rules select for `expression`, if any, returns normally instead of throwing. */
  ghost predicate CompletesNormally(commands: seq<Command>, expression: string, history: seq<string>)
  {
    Selected(commands, expression).None?
    || commands[Selected(commands, expression).value].execute(expression, history).Completed?
  }

  /** One more startup expression after a replay without exception: one more dispatch, and an exception exactly when its command throws. */
  lemma ReplayLastStep(commands: seq<Command>, expressions: seq<string>, history: seq<string>, logs: seq<string>)
    requires expressions != []
    requires Replay(commands, expressions[..|expressions| - 1], history, logs).failure.None?
    ensures var last := expressions[|expressions| - 1];
      && Replay(commands, expressions, history, logs).events
           == Replay(commands, expressions[..|expressions| - 1], history, logs).events + [Dispatched(last, Selected(commands, last))]
      && (Replay(commands, expressions, history, logs).failure.None? <==> CompletesNormally(commands, last, history))
      && (Replay(commands, expressions, history, logs).failure.Some? ==>
            ThrownBy(commands, last, history, Replay(commands, expressions, history, logs).failure))
  {
    var done := Replay(commands, expressions[..|expressions| - 1], history, logs);
    ResultEchoesInput(commands, expressions[|expressions| - 1], history, done.logs);
  }

  /**
    The replay ends at the first exception: every dispatched startup
    expression before the last one completed normally, and without an
    exception every dispatched one did.
   */
  lemma {:induction false} ReplayStopsAtFirstThrow(commands: seq<Command>, expressions: seq<string>, history: seq<string>, logs: seq<string>)
    ensures var r := Replay(commands, expressions, history, logs);
      forall i :: 0 <= i < |r.events| - (if r.failure.Some? then 1 else 0) ==>
        i < |expressions| && CompletesNormally(commands, expressions[i], history)
  {
    ReplayDispatchesInOrder(commands, expressions, history, logs);
    if expressions != [] {
      var n := |expressions|;
      var front := expressions[..n - 1];
      var done := Replay(commands, front, history, logs);
      var r := Replay(commands, expressions, history, logs);
      ReplayStopsAtFirstThrow(commands, front, history, logs);
      ReplayDispatchesInOrder(commands, front, history, logs);
      if done.failure.Some? {
        assert r == done;
        forall i | 0 <= i < |r.events| - 1
          ensures CompletesNormally(commands, expressions[i], history)
        {
          assert front[i] == expressions[i];
        }
      } else {
        ReplayLastStep(commands, expressions, history, logs);
        assert |done.events| == n - 1;
        forall i | 0 <= i < n - 1
          ensures CompletesNormally(commands, expressions[i], history)
        {
          assert front[i] == expressions[i];
        }
      }
    }
  }

  /** Replaying one more startup expression after a replay of a prefix that raised no exception. */
  lemma ReplayExtends(commands: seq<Command>, expressions: seq<string>, i: nat, history: seq<string>, logs: seq<string>)
    requires i < |expressions| && Replay(commands, expressions[..i], history, logs).failure.None?
    ensures var done := Replay(commands, expressions[..i], history, logs);
      var e := Evaluate(commands, expressions[i], history, done.logs);
      Replay(commands, expressions[..i + 1], history, logs)
        == Replayed(e.logs, done.events + e.events, if e.result.Failure? then Some(e.result.error) else None)
  {
    assert expressions[..i + 1][..i] == expressions[..i];
  }

  /** Once an exception has ended the replay, the remaining startup expressions are never dispatched. */
  lemma {:induction false} FailureEndsReplay(commands: seq<Command>, expressions: seq<string>, history: seq<string>, logs: seq<string>, m: nat)
    requires m <= |expressions| && Replay(commands, expressions[..m], history, logs).failure.Some?
    ensures Replay(commands, expressions, history, logs) == Replay(commands, expressions[..m], history, logs)
    decreases |expressions|
  {
    if m < |expressions| {
      var front := expressions[..|expressions| - 1];
      assert front[..m] == expressions[..m];
      FailureEndsReplay(commands, front, history, logs, m);
    } else {
      assert expressions[..m] == expressions;
    }
  }

  /** When no command ever throws, the replay dispatches every startup expression. */
  lemma {:induction false} ReplayWithoutThrowCompletes(commands: seq<Command>, expressions: seq<string>, history: seq<string>, logs: seq<string>)
    requires forall k, x, h :: 0 <= k < |commands| ==> commands[k].execute(x, h).Completed?
    ensures Replay(commands, expressions, history, logs).failure.None?
    ensures |Replay(commands, expressions, history, logs).events| == |expressions|
  {
    if expressions != [] {
      ReplayWithoutThrowCompletes(commands, expressions[..|expressions| - 1], history, logs);
    }
    ReplayDispatchesInOrder(commands, expressions, history, logs);
  }

  /** The lifecycle states a sequence of events moves the console through, in order. */
  function Statuses(events: seq<Event>): (s: seq<ConsoleStatus>)
    ensures s == [] <==> forall i :: 0 <= i < |events| ==> !events[i].StatusChanged?
  {
    if events == [] then []
    else (if events[0].StatusChanged? then [events[0].status] else []) + Statuses(events[1..])
  }

  /** The states observed over two stretches of events are those of the first, then those of the second. */
  lemma {:induction false} StatusesOfConcatenation(a: seq<Event>, b: seq<Event>)
    ensures Statuses(a + b) == Statuses(a) + Statuses(b)
  {
    if a == [] {
      assert a + b == b;
    } else {
      assert (a + b)[0] == a[0] && (a + b)[1..] == a[1..] + b;
      StatusesOfConcatenation(a[1..], b);
    }
  }

  /** Dispatching startup expressions changes no status: Starting is the only state observed while they run. */
  lemma {:induction false} ReplayChangesNoStatus(commands: seq<Command>, expressions: seq<string>, history: seq<string>, logs: seq<string>)
    ensures Statuses(Replay(commands, expressions, history, logs).events) == []
  {
    if expressions != [] {
      var front := expressions[..|expressions| - 1];
      ReplayChangesNoStatus(commands, front, history, logs);
      var done := Replay(commands, front, history, logs);
      if done.failure.None? {
        var e := Evaluate(commands, expressions[|expressions| - 1], history, done.logs);
        ResultEchoesInput(commands, expressions[|expressions| - 1], history, done.logs);
        StatusesOfConcatenation(done.events, e.events);
        assert Statuses(e.events) == [] by {
          assert e.events[1..] == [];
        }
      }
    }
  }

  // ---------------------------------------------------------------------------
  // The console

  /** A console: lifecycle status, history, logger, and the log of its observable steps. */
  class SimpleConsole {
    const commands: seq<Command>       // Commands.allCommands(), in registration order
    const expressions: seq<string>     // the configured startup expressions
    const completer: AggregateCompleter
    var status: ConsoleStatus
    var history: seq<string>           // the ConsoleHistory entries
    var logs: seq<string>              // the ConsoleLogger buffer
    var trace: seq<Event>

    /** The completer was built from the console's own commands. */
    ghost predicate Valid()
    {
      completer == AggregateCompleter(CompletionProviders(commands))
    }

    /**
      A new console starts Idle with the history file's entries, its completer
      built from the commands' completers and the five built-in ones, and the
      configured earlier results handed to the evaluator.
     */
    constructor (config: ConsoleConfig, allCommands: seq<Command>)
      ensures Valid()
      ensures commands == allCommands && expressions == config.expressions
      ensures status == Idle && history == config.historyFile && logs == config.logger
      ensures trace == [ResultsAdded(config.results)]
    {
      commands := allCommands;
      expressions := config.expressions;
      history := config.historyFile;
      logs := config.logger;
      completer := AggregateCompleter(CompletionProviders(allCommands));
      status := Idle;
      trace := [ResultsAdded(config.results)];
    }

    /** The current lifecycle state. */
    method Status() returns (s: ConsoleStatus)
      ensures s == status
    {
      s := status;
    }

    /** The entries recorded so far. */
    method History() returns (entries: seq<string>)
      ensures entries == history
    {
      entries := history;
    }

    /** The rule chain, rebuilt from the commands on every evaluation. */
    method EvaluationRules() returns (rules: seq<Rule<Handler>>)
      ensures rules == EvaluationRulesOf(commands)
    {
      rules := [];
      for i := 0 to |commands|
        invariant rules == CommandRules(commands, i)
      {
        rules := rules + [Rule(commands[i].matches, AsFunction(i))];
      }
      rules := rules + [Rule(Always, ReturnsEmpty)];
    }

    /**
      Applies a rule chain to `expression`: tries the rules in order and runs
      the handler of the first one whose predicate holds.
     */
    method Dispatch(rules: seq<Rule<Handler>>, expression: string) returns (r: Result<ConsoleResult, string>)
      requires forall i :: 0 <= i < |rules| && rules[i].handler.AsFunction? ==> rules[i].handler.command < |commands|
      requires FirstMatch(rules, expression).Some?
      modifies this`logs, this`trace
      ensures var e := Handle(commands, rules[FirstMatch(rules, expression).value].handler, expression, history, old(logs));
        r == e.result && logs == e.logs && trace == old(trace) + e.events
    {
      var i := 0;
      while !rules[i].matches(expression)
        invariant i <= |rules|
        invariant FirstMatchFrom(rules, expression, i) == FirstMatch(rules, expression)
        decreases |rules| - i
      {
        i := i + 1;
      }
      assert FirstMatch(rules, expression) == Some(i);
      match rules[i].handler
      case ReturnsEmpty =>
        r := Success(EmptyResult);
        trace := trace + [Dispatched(expression, None)];
      case AsFunction(c) =>
        logs := [];
        var outcome := commands[c].execute(expression, history);
        logs := logs + outcome.lines;
        assert logs == outcome.lines;
        trace := trace + [Dispatched(expression, Some(c))];
        if outcome.Threw? {
          r := Failure(outcome.error);
        } else {
          r := Success(ConsoleResult(expression, logs));
        }
    }

    /** Evaluates one line through the evaluation rules without recording it. */
    method ExecuteExpression(expression: string) returns (r: Result<ConsoleResult, string>)
      modifies this`logs, this`trace
      ensures var e := Evaluate(commands, expression, history, old(logs));
        r == e.result && logs == e.logs && trace == old(trace) + e.events
    {
      var rules := EvaluationRules();
      CatchAllSelects(rules, expression, ReturnsEmpty);
      assert rules[FirstMatch(rules, expression).value].handler == SelectedHandler(commands, expression);
      ghost var logs0 := logs;
      r := Dispatch(rules, expression);
      assert Evaluate(commands, expression, history, logs0)
          == Handle(commands, SelectedHandler(commands, expression), expression, history, logs0);
    }

    /** Records `expression` in the history, then evaluates it; the command sees the history with it. */
    method Execute(expression: string) returns (r: Result<ConsoleResult, string>)
      modifies this`history, this`logs, this`trace
      ensures history == old(history) + [expression]
      ensures var e := Evaluate(commands, expression, history, old(logs));
        r == e.result && logs == e.logs && trace == old(trace) + e.events
    {
      history := history + [expression];
      r := ExecuteExpression(expression);
    }

    /** Puts `expression` to the completer; nothing in the console changes. */
    method Completion(expression: string) returns (q: CompletionQuery)
      requires Valid()
      ensures q.expression == expression && q.providers == CompletionProviders(commands)
    {
      q := CompletionQuery(expression, completer.providers);
    }

    /**
      Acts only from Idle: moves to Starting, replays the startup expressions
      in order through the evaluation rules (not through the history), then
      moves to Running. An exception from a startup expression ends the replay
      and is returned; the status then stays Starting.
     */
    method Start() returns (failure: Option<string>)
      modifies this`status, this`logs, this`trace
      ensures old(status) != Idle ==>
        status == old(status) && logs == old(logs) && trace == old(trace) && failure.None?
      ensures old(status) == Idle ==>
        var r := Replay(commands, expressions, history, old(logs));
        && failure == r.failure
        && logs == r.logs
        && status == (if r.failure.None? then Running else Starting)
        && trace == old(trace) + [StatusChanged(Starting)] + r.events
                    + (if r.failure.None? then [StatusChanged(Running)] else [])
      ensures history == old(history)
    {
      failure := None;
      if status == Idle {
        status := Starting;
        trace := trace + [StatusChanged(Starting)];
        failure := ReplayStartupExpressions();
        if failure.None? {
          status := Running;
          trace := trace + [StatusChanged(Running)];
        }
      }
    }

    /**
      The loop of `start`: evaluates each startup expression in order through
      the evaluation rules; an exception ends the loop and is returned.
     */
    method ReplayStartupExpressions() returns (failure: Option<string>)
      modifies this`logs, this`trace
      ensures var r := Replay(commands, expressions, history, old(logs));
        failure == r.failure && logs == r.logs && trace == old(trace) + r.events
    {
      ghost var logs0, trace0 := logs, trace;
      for i := 0 to |expressions|
        invariant Replay(commands, expressions[..i], history, logs0).failure.None?
        invariant logs == Replay(commands, expressions[..i], history, logs0).logs
        invariant trace == trace0 + Replay(commands, expressions[..i], history, logs0).events
      {
        ghost var next := Replay(commands, expressions[..i + 1], history, logs0);
        ReplayExtends(commands, expressions, i, history, logs0);
        var r := ExecuteExpression(expressions[i]);
        assert logs == next.logs && trace == trace0 + next.events;
        if r.Failure? {
          FailureEndsReplay(commands, expressions, history, logs0, i + 1);
          return Some(r.error);
        }
      }
      assert expressions[..|expressions|] == expressions;
      return None;
    }

    /**
      From any state and on every call: moves to Terminating, saves the
      history, clears the evaluator's output directory, then moves to
      Terminated.
     */
    method Shutdown()
      modifies this`status, this`trace
      ensures status == Terminated
      ensures trace == old(trace) + [StatusChanged(Terminating), HistorySaved(history), OutputDirectoryCleared, StatusChanged(Terminated)]
    {
      status := Terminating;
      trace := trace + [StatusChanged(Terminating)];
      trace := trace + [HistorySaved(history)];
      trace := trace + [OutputDirectoryCleared];
      status := Terminated;
      trace := trace + [StatusChanged(Terminated)];
    }
  }
}
