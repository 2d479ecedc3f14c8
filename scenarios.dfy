/**
  Client-side scenarios: concrete sessions and commands, checked against the
  console's contracts and specification functions.
 */
module Scenarios {
  import opened Wrappers
  import opened Rules
  import opened Console

  /** A command effect that logs nothing and returns normally. */
  function Quiet(expression: string, history: seq<string>): (o: Outcome)
  {
    Completed([])
  }

  /** A command effect that logs the most recent history entry it can see. */
  function ShowLastEntry(expression: string, history: seq<string>): (o: Outcome)
  {
    Completed(if history == [] then [] else [history[|history| - 1]])
  }

  /** Inputs that begin with ":h". */
  predicate StartsWithH(input: string)
  {
    |input| >= 2 && input[..2] == ":h"
  }

  /** A history command registered before a command that claims every input. */
  function HistoryThenAnything(): (commands: seq<Command>)
  {
    [Command(StartsWithH, ShowLastEntry, false), Command(Always, Quiet, true)]
  }

  /** The more specific command, registered first, wins; the generic one serves the rest. */
  lemma FirstRegisteredWins()
    ensures Selected(HistoryThenAnything(), ":h!") == Some(0)
    ensures Selected(HistoryThenAnything(), ":hist") == Some(0)
    ensures Selected(HistoryThenAnything(), "1+1") == Some(1)
    ensures Evaluate(HistoryThenAnything(), ":h!", [], []).events == [Dispatched(":h!", Some(0))]
  {
    var commands := HistoryThenAnything();
    assert commands[0].matches(":h!") by {
      assert ":h!"[..2] == ":h";
    }
    assert commands[0].matches(":hist") by {
      assert ":hist"[..2] == ":h";
    }
    assert !commands[0].matches("1+1") by {
      assert "1+1"[..2][0] == '1';
    }
    assert commands[1].matches("1+1");
  }

  /** With no commands, every input falls to the catch-all and yields the empty result. */
  lemma NoCommandsMeansEmpty(expression: string, history: seq<string>, logs: seq<string>)
    ensures Evaluate([], expression, history, logs) == Evaluation(Success(EmptyResult), logs, [Dispatched(expression, None)])
  {
    UnclaimedInputIsEmpty([], expression, history, logs);
  }

  /** The statuses of a session's events whose startup stretch changes no status. */
  lemma SessionStatusSequence(results: nat, events: seq<Event>, saved: seq<string>)
    requires Statuses(events) == []
    ensures Statuses([ResultsAdded(results), StatusChanged(Starting)] + events
      + [StatusChanged(Running), StatusChanged(Terminating), HistorySaved(saved),
         OutputDirectoryCleared, StatusChanged(Terminated)]) == [Starting, Running, Terminating, Terminated]
  {
    var head := [ResultsAdded(results), StatusChanged(Starting)];
    var tail := [StatusChanged(Running), StatusChanged(Terminating), HistorySaved(saved),
                 OutputDirectoryCleared, StatusChanged(Terminated)];
    assert Statuses(head) == [Starting] by {
      assert head[1..][1..] == [];
    }
    assert Statuses(tail) == [Running, Terminating, Terminated] by {
      assert tail[4..][1..] == [];
      assert Statuses(tail[4..]) == [Terminated];
      assert tail[3..][1..] == tail[4..];
      assert tail[2..][1..] == tail[3..];
      assert Statuses(tail[2..]) == [Terminated];
      assert tail[1..][1..] == tail[2..];
      assert Statuses(tail[1..]) == [Terminating, Terminated];
    }
    StatusesOfConcatenation(head, events);
    StatusesOfConcatenation(head + events, tail);
  }

  /** A whole session: Idle, then Starting, Running, Terminating and Terminated, none skipped or revisited. */
  method FullSession(config: ConsoleConfig, commands: seq<Command>)
    requires forall k, x, h :: 0 <= k < |commands| ==> commands[k].execute(x, h).Completed?
  {
    var console := new SimpleConsole(config, commands);
    var s := console.Status();
    assert s == Idle;
    ReplayWithoutThrowCompletes(commands, config.expressions, config.historyFile, config.logger);
    ReplayChangesNoStatus(commands, config.expressions, config.historyFile, config.logger);
    ghost var events := Replay(commands, config.expressions, config.historyFile, config.logger).events;
    var failure := console.Start();
    assert failure.None? && console.status == Running;
    console.Shutdown();
    assert console.trace == [ResultsAdded(config.results), StatusChanged(Starting)] + events
      + [StatusChanged(Running), StatusChanged(Terminating), HistorySaved(config.historyFile),
         OutputDirectoryCleared, StatusChanged(Terminated)];
    SessionStatusSequence(config.results, events, config.historyFile);
    assert Statuses(console.trace) == [Starting, Running, Terminating, Terminated];
  }

  /** A second start does nothing: the startup expressions run once. */
  method StartTwice(config: ConsoleConfig, commands: seq<Command>)
    requires forall k, x, h :: 0 <= k < |commands| ==> commands[k].execute(x, h).Completed?
  {
    var console := new SimpleConsole(config, commands);
    ReplayWithoutThrowCompletes(commands, config.expressions, config.historyFile, config.logger);
    var _ := console.Start();
    ghost var afterFirst := console.trace;
    var failure := console.Start();
    assert failure.None? && console.trace == afterFirst && console.status == Running;
  }

  /** Shutdown is not guarded: a second call saves the history and clears the output directory again. */
  method ShutdownTwice(config: ConsoleConfig, commands: seq<Command>)
  {
    var console := new SimpleConsole(config, commands);
    console.Shutdown();
    console.Shutdown();
    assert console.status == Terminated;
    assert console.trace == [ResultsAdded(config.results),
      StatusChanged(Terminating), HistorySaved(config.historyFile), OutputDirectoryCleared, StatusChanged(Terminated),
      StatusChanged(Terminating), HistorySaved(config.historyFile), OutputDirectoryCleared, StatusChanged(Terminated)];
  }

  /** A line is in the history before its command runs, so the command sees it; completion changes nothing. */
  method ExecuteThenComplete(config: ConsoleConfig)
  {
    var console := new SimpleConsole(config, HistoryThenAnything());
    FirstRegisteredWins();
    var r := console.Execute(":hist");
    assert console.history == config.historyFile + [":hist"];
    assert r == Success(ConsoleResult(":hist", [":hist"]));
    var q := console.Completion(":h");
    assert q.providers == [CommandCompleter(1)] + BuiltinCompleters;
    assert console.history == config.historyFile + [":hist"];
  }
}
