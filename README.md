# A verified model of the java-repl console core

This project models `SimpleConsole`, the control core of the java-repl
read-eval-print console, in Dafny. It covers three things:

- **Lifecycle.** `status` moves through Idle, Starting, Running, Terminating
  and Terminated. `start()` acts only from Idle. It replays the configured
  startup expressions and then moves to Running. `shutdown()` runs on every
  call and from any state. It saves the history, clears the evaluator's
  output directory, and ends in Terminated.
- **Evaluation rules.** Each command adds a (predicate, handler) rule, in
  `allCommands()` order. A catch-all rule that returns the empty result
  comes last. The first rule whose predicate holds wins. A command's handler
  resets the logger, runs the command, and answers with the input and the
  lines the command logged.
- **The façade.** `execute` records the line in the history, then
  evaluates it. `start` evaluates without recording. `completion` only asks
  the completer. The completer's providers are the commands' own completers,
  in order, followed by five built-in completers.

How the model is built:

- `rules.dfy` (module `Rules`) is a generic first-match rule chain.
  `FirstMatch` is the pure statement of which rule a chain selects.
- `console.dfy` (module `Console`) holds the data model and the pure
  specification functions:
  - `Selected` says which command claims an input.
  - `Handle` and `Evaluate` give one dispatch's result, logger contents and
    events.
  - `Replay` covers the startup batch.
  - `CompletionProviders` is the provider list.
  - The lemmas relate these functions to the commands.
- `console.dfy` also holds the class `SimpleConsole`, with the fields the
  source updates in place:
  - `status`
  - `history`: the `ConsoleHistory` entries
  - `logs`: the `ConsoleLogger` buffer
  - `trace`: a log of observable steps, namely status changes, dispatches
    (which command served which line), history saves, output-directory
    clears and the hand-over of earlier results
- Each `SimpleConsole` method states its new state with a specification
  function of its old state. `Dispatch`, `EvaluationRules` and
  `ReplayStartupExpressions` (the loop of `start()`) carry the loops.
- `scenarios.dfy` holds concrete scenarios. The client methods use only the
  console's contracts; the lemmas `FirstRegisteredWins` and
  `SessionStatusSequence` also unfold the specification functions
  (`Evaluate`, `Handle`, `Statuses`):
  - a whole session whose statuses read exactly Starting, Running,
    Terminating, Terminated
  - `start` called twice, where the batch runs once
  - `shutdown` called twice, where save and clear happen twice
  - a specific command registered before a catch-all command
  - `execute` followed by `completion`

Collaborators become values:

- A command is a pure `matches` predicate plus an `execute` effect. The
  effect maps the input and the history visible to it to the lines it logs,
  and says whether it threw.
- The history file's initial entries, the logger's initial contents and the
  number of earlier results are fields of `ConsoleConfig`.

Two behaviours of the code may be surprising; the model follows the code:

- **`shutdown()` has no guard.** One might expect it to be idempotent. The
  code instead runs its effects on every call: a second call saves the
  history, clears the output directory and passes through Terminating again
  (`SimpleConsole.java:110-115`). `Scenarios.ShutdownTwice` shows this.
- **An exception from a startup command ends `start()`.** One might expect a
  failing startup line to be reported and skipped. Instead the exception
  propagates out of the loop at lines 94-96, so the remaining startup
  expressions do not run and the status stays Starting. `Start` returns that
  exception. `ReplayStopsAtFirstThrow`, `ReplayStopsAtThrow` and
  `FailureEndsReplay` state this.

## Model

| member | source | states |
|---|---|---|
| Rules.FirstMatchFrom | src/javarepl/console/SimpleConsole.java:117-122 | the rule found scanning from a position is the first one there whose predicate holds, and None means none from there holds |
| Rules.FirstMatch | src/javarepl/console/SimpleConsole.java:117-122 | the selected rule has the lowest index whose predicate holds, every earlier predicate is false, and None holds exactly when no predicate holds |
| Rules.CatchAllSelects | src/javarepl/console/SimpleConsole.java:122 | a chain ending in the `always()` rule selects some rule for every input |
| Console.Selected | src/javarepl/console/SimpleConsole.java:117-122 | the evaluation rules pick the lowest-indexed command whose predicate holds, and pick the catch-all exactly when no command's predicate holds |
| Console.SelectedHandler | src/javarepl/console/SimpleConsole.java:119-122 | the selected handler runs one of the registered commands or returns the empty result |
| Console.CompleterIndices | src/javarepl/console/SimpleConsole.java:46 | mapping commands to their completers and dropping nulls keeps exactly the commands that have a completer, each once, in registration order |
| Console.CompletionProviders | src/javarepl/console/SimpleConsole.java:46-53 | the provider list is the commands' completers, in registration order and each once, followed by the keyword, console, type, static-member and instance-member completers |
| Console.UnclaimedInputIsEmpty | src/javarepl/console/SimpleConsole.java:122 | an input no command claims yields the empty result, runs no command and leaves the logger as it was |
| Console.FirstClaimantRuns | src/javarepl/console/SimpleConsole.java:125-133 | when command k is the first claimant, only k runs, the logger ends with exactly k's lines, and the result is the input with those lines, or k's exception |
| Console.ResultEchoesInput | src/javarepl/console/SimpleConsole.java:125-133 | one dispatch runs exactly one handler; a command's normal result is the input plus the logger's final contents; the catch-all yields the empty result and does not reset the logger |
| Console.ResultIgnoresEarlierLogs | src/javarepl/console/SimpleConsole.java:128-130 | the logger is reset before the command runs, so neither the result nor the dispatch depends on earlier log lines |
| Console.ReplayDispatchesInOrder | src/javarepl/console/SimpleConsole.java:94-96 | the startup batch dispatches the configured expressions in order, each at most once and to the command the rules select; without an exception, every one is dispatched exactly once |
| Console.ReplayStopsAtThrow | src/javarepl/console/SimpleConsole.java:94-96 | when the batch fails, the last dispatched expression is the one whose command threw, and the batch reports that exception |
| Console.ReplayLastStep | src/javarepl/console/SimpleConsole.java:94-96 | after a prefix of the batch ran without an exception, the next startup expression adds exactly one dispatch, to the command the rules select, and raises an exception exactly when that command throws |
| Console.ReplayEventCount | src/javarepl/console/SimpleConsole.java:94-96 | the batch dispatches at most one line per startup expression, and all of them when it ends without an exception |
| Console.ReplayExtends | src/javarepl/console/SimpleConsole.java:94-96 | after a prefix ran without an exception, running one more startup expression is one more evaluation on top of the prefix's logger and events |
| Console.ReplayStopsAtFirstThrow | src/javarepl/console/SimpleConsole.java:94-96 | the batch ends at the first exception: every dispatched startup expression before the last one completed normally, and without an exception every dispatched one did |
| Console.FailureEndsReplay | src/javarepl/console/SimpleConsole.java:94-96 | after an exception, the remaining startup expressions are not dispatched |
| Console.ReplayWithoutThrowCompletes | src/javarepl/console/SimpleConsole.java:94-96 | when no command throws, the batch ends without an exception and dispatches every startup expression |
| Console.ReplayChangesNoStatus | src/javarepl/console/SimpleConsole.java:92-98 | the startup batch changes no status, so Starting is the only state observed while it runs |
| Console.SimpleConsole.constructor | src/javarepl/console/SimpleConsole.java:32-56 | a new console is Idle, holds the history file's entries, builds its completer from the commands, and hands the configured results to the evaluator |
| Console.SimpleConsole.Status | src/javarepl/console/SimpleConsole.java:82-84 | returns the current lifecycle state |
| Console.SimpleConsole.History | src/javarepl/console/SimpleConsole.java:86-88 | returns the recorded history entries |
| Console.SimpleConsole.EvaluationRules | src/javarepl/console/SimpleConsole.java:117-123 | builds one rule per command, in `allCommands()` order and pairing each predicate with that command's handler, then the catch-all |
| Console.SimpleConsole.Dispatch | src/javarepl/console/SimpleConsole.java:117-133 | tries the rules in order and runs the first matching rule's handler; the logger, the result and the events are those the selected handler produces |
| Console.SimpleConsole.ExecuteExpression | src/javarepl/console/SimpleConsole.java:74-76 | an evaluation through freshly built rules has the effect `Evaluate` describes, and the history is untouched |
| Console.SimpleConsole.Execute | src/javarepl/console/SimpleConsole.java:58-61 | appends the line to the history once, before dispatching, so its command sees the line; then returns that line's dispatch result |
| Console.SimpleConsole.Completion | src/javarepl/console/SimpleConsole.java:63-65 | puts the expression to the console's provider list and changes no field |
| Console.SimpleConsole.Start | src/javarepl/console/SimpleConsole.java:90-100 | does nothing unless Idle; from Idle it records Starting, then the startup batch, then Running (or stays Starting when a startup command throws); it never touches the history |
| Console.SimpleConsole.ReplayStartupExpressions | src/javarepl/console/SimpleConsole.java:94-96 | evaluates the startup expressions in order through the evaluation rules, without recording them; the logger, the events and the exception it returns are those of `Replay` |
| Console.SimpleConsole.Shutdown | src/javarepl/console/SimpleConsole.java:110-115 | from any state and on every call, records Terminating, a history save, an output-directory clear and Terminated, in that order, and ends in Terminated |
| Scenarios.FirstRegisteredWins | src/javarepl/console/SimpleConsole.java:117-122 | with a `:h` command registered before a catch-all command, `:h!` and `:hist` go to the first command and `1+1` to the second |
| Scenarios.NoCommandsMeansEmpty | src/javarepl/console/SimpleConsole.java:122 | with no commands, every input yields the empty result |
| Scenarios.SessionStatusSequence | src/javarepl/console/SimpleConsole.java:90-115 | a session made of construction, a startup batch and a shutdown passes through Starting, Running, Terminating and Terminated, in that order |

## Left out

- `template` (`SimpleConsole.java:67-72`): it is a thin call into the evaluator's expression parser and the class renderer, which are not part of this model. A failed parse reaching `.right()` is library behaviour.
- The JVM shutdown hook (`SimpleConsole.java:35`, `102-108`): it exists to run `shutdown()` on another thread at process exit. Concurrency is not modelled, so a hook call is just another `Shutdown` call.
- The yadic `Container` and `context()` (`SimpleConsole.java:37-45`, `78-80`): service wiring. The model gives the console its collaborators directly as fields.
- History persistence and the ignore predicate given to `historyFromFile` (`startsWith(":h!").or(blank())`): `ConsoleHistory` is not part of this model. Adding an entry is modelled as an append, and saving as a `HistorySaved` event carrying the entries.
- `emptyResult()`: `ConsoleResult` is not part of this model. The empty result is taken to be the empty expression with no log lines.
- What commands do beyond logging lines, reading the history and possibly throwing. A command's outcome is a function of the input and the history only. State the evaluator carries from one dispatch to the next is not modelled: for example, a startup `int x = 1;` followed by `x + 1`. A command that calls back into the console is not modelled either.
- The internals of `AggregateCompleter`, the individual completers, `TypeResolver` and the package resolver: their algorithms are not part of this model.
- Console.SimpleConsole.Completion: states which providers are queried and in what order, not the candidates they return or how they are merged.
- `Evaluator.addResults` (`SimpleConsole.java:55`) is modelled only as a `ResultsAdded` event carrying the number of results. `clearOutputDirectory` is modelled only as an `OutputDirectoryCleared` event.
- Console.SimpleConsole.Dispatch: requires that some rule matches. The console's own chain always ends in the catch-all (`CatchAllSelects`). What the rule library does with a chain that matches nothing is not part of this model.
