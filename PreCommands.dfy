/**
 * The local commands `App::new` runs before it connects (src/app.rs): each one
 * runs to completion, a failure is only reported, and the loop goes on.
 */
module PreCommands {

  import opened Strings
  import opened Config
  import opened Events

  /** What `Command::output` gave: the process could not be started, or it ran and exited. */
  datatype ExecOutcome = LaunchFailed | Exited(success: bool)

  /** The argument text cut at every single space: `args.split(' ')`. */
  function Arguments(args: string): (argv: seq<string>)
    ensures Join(argv, ' ') == args
    ensures forall k :: 0 <= k < |argv| ==> ' ' !in argv[k]
    ensures args == "" ==> argv == [""]
  {
    JoinSplit(args, ' ');
    Split(args, ' ')
  }

  /** Arguments free of spaces, joined with single spaces, are cut back into the same list. */
  lemma ArgumentsOfJoined(argv: seq<string>)
    requires |argv| >= 1
    requires forall k :: 0 <= k < |argv| ==> ' ' !in argv[k]
    ensures Arguments(Join(argv, ' ')) == argv
  {
    SplitJoin(argv, ' ');
  }

  /** The message shown once command `index` has finished with `outcome`. */
  function Verdict(index: nat, outcome: ExecOutcome): (e: Event)
    ensures e.Warn? <==> outcome != Exited(true)
  {
    match outcome
    case LaunchFailed => Warn(CommandLaunchFailed(index))
    case Exited(success) => if success then CommandDone(index) else Warn(CommandExitFailed(index))
  }

  /**
   * `log` records every command run in order: command `i` is executed with its
   * program and tokenised arguments and then reported with its own outcome,
   * whatever the commands before it did.
   */
  predicate RanInOrder(commands: seq<Command>, outcome: nat -> ExecOutcome, log: seq<Event>)
  {
    && |log| == 2 * |commands|
    && forall i :: 0 <= i < |commands| ==>
         && log[2 * i] == Exec(commands[i].program, Arguments(commands[i].args))
         && log[2 * i + 1] == Verdict(i, outcome(i))
  }

  /**
   * Runs the commands one after the other; `outcome(i)` is what running the
   * `i`-th of them gave.
   */
  method Run(commands: seq<Command>, outcome: nat -> ExecOutcome) returns (log: seq<Event>)
    ensures RanInOrder(commands, outcome, log)
  {
    log := [];
    for i := 0 to |commands|
      invariant RanInOrder(commands[..i], outcome, log)
    {
      var (program, args) := (commands[i].program, commands[i].args);
      var argv := Arguments(args);
      log := log + [Exec(program, argv)];
      match outcome(i) {
        case LaunchFailed =>
          log := log + [Warn(CommandLaunchFailed(i))];
          continue;
        case Exited(success) =>
          if !success {
            log := log + [Warn(CommandExitFailed(i))];
            continue;
          }
      }
      log := log + [CommandDone(i)];
    }
    assert commands[..|commands|] == commands;
  }

  /** A failed command is followed by the next command's run. */
  lemma FailureDoesNotStop(commands: seq<Command>, outcome: nat -> ExecOutcome, log: seq<Event>, i: nat)
    requires RanInOrder(commands, outcome, log)
    requires i + 1 < |commands| && outcome(i) != Exited(true)
    ensures log[2 * i + 1].Warn?
    ensures log[2 * i + 2] == Exec(commands[i + 1].program, Arguments(commands[i + 1].args))
  {
  }
}
