/**
 * The tunnel application, `App` in src/app.rs: start-up (`App::new`), serving
 * and supervision (`App::run`) and teardown (`App::close`). Every outcome of
 * the outside world (configuration file, directory check, processes, the
 * session) is a parameter; what the application does is recorded in a log
 * of `Event`s.
 */
module Tunnel {

  import opened Wrappers
  import opened Config
  import opened Events
  import PreCommands
  import Miniserve
  import Monitor

  /** The command line: `--reconfigure`, `-s/--secure` and the optional directory to serve. */
  datatype Cli = Cli(reconfigure: bool, secure: bool, directory: Option<string>)

  /** What the configuration store gave: no configuration path, a failed load, or a configuration. */
  datatype Stored = NoConfigPath | LoadFailed | Loaded(config: Config)

  /** The `unwrap`s and `panic!`s that end the program. */
  datatype Panic =
    | ConfigLoadFailed
    | NoWorkingDirectory
    | ConnectFailed
    | ForwardFailed
    | SpawnFailed
    | SessionCloseFailed

  /** How `App::new` ended: `exit(code)`, a panic, or a connected application. */
  datatype Startup =
    | Exited(code: int, log: seq<Event>)
    | Panicked(reason: Panic, log: seq<Event>)
    | Ready(config: Config, directory: string, log: seq<Event>)

  /** The session builder's options: each one that is set in the configuration. */
  function SessionOptionsOf(c: Config): SessionOptions
  {
    SessionOptions(c.port, c.username, c.keyfile, c.jumpHosts)
  }

  /**
   * The configuration `App::new` settles on when loading did not fail: the
   * stored one if it was wanted and names a host, otherwise the assistant's.
   */
  function ChosenConfig(cli: Cli, stored: Stored, wizard: WizardAnswers): (c: Config)
    requires cli.reconfigure || !stored.LoadFailed?
    requires wizard.host != ""
    ensures c.host != ""
    ensures c == WizardConfig(wizard) || (!cli.reconfigure && stored.Loaded? && c == stored.config)
    ensures !cli.reconfigure && stored.Loaded? && stored.config.host != "" ==> c == stored.config
  {
    if !cli.reconfigure && stored.Loaded? && stored.config.host != "" then stored.config else WizardConfig(wizard)
  }

  /**
   * `App::new`: choose the configuration (the assistant when asked for, when
   * there is no configuration path or when the stored host is empty), check
   * the directory, run the pre-connection commands and connect. `wizard` is
   * what the assistant would be answered (the host prompt refuses an empty
   * answer); `cwd` is the working directory, if it can be read;
   * `outcome(i)` is what running the `i`-th pre-connection command gave.
   */
  method Start(cli: Cli, stored: Stored, wizard: WizardAnswers, dirExists: bool, cwd: Option<string>,
               outcome: nat -> PreCommands.ExecOutcome, connectOk: bool) returns (s: Startup)
    requires wizard.host != ""
    ensures !cli.reconfigure && stored.LoadFailed? <==> s == Panicked(ConfigLoadFailed, [])
    ensures s.Exited? <==> !(!cli.reconfigure && stored.LoadFailed?) && cli.directory.Some? && !dirExists
    ensures s.Exited? ==> s == Exited(1, [])
    ensures s.Ready? ==> s.config == ChosenConfig(cli, stored, wizard)
    ensures s == Panicked(NoWorkingDirectory, []) <==>
      (cli.reconfigure || !stored.LoadFailed?) && cli.directory.None? && cwd.None?
    ensures s.Ready? && cli.directory.Some? ==> s.directory == cli.directory.value
    ensures s.Ready? && cli.directory.None? ==> cwd == Some(s.directory)
    ensures s.Ready? || s == Panicked(ConnectFailed, s.log) ==>
      var config := ChosenConfig(cli, stored, wizard);
      var commands := Listed(config.beforeCommands);
      && |s.log| == 2 * |commands| + 1
      && PreCommands.RanInOrder(commands, outcome, s.log[..2 * |commands|])
      && s.log[2 * |commands|] == Connect(config.host, SessionOptionsOf(config))
    ensures s.Ready? <==> s.log != [] && connectOk
    ensures s.Panicked? ==> s.reason in {ConfigLoadFailed, NoWorkingDirectory, ConnectFailed}
    ensures var pastExits := (cli.reconfigure || !stored.LoadFailed?) && (cli.directory.Some? ==> dirExists)
                              && (cli.directory.None? ==> cwd.Some?);
      pastExits ==> s.Ready? || (s.Panicked? && s.reason == ConnectFailed)
    ensures s.Panicked? && s.reason == ConnectFailed <==> s.log != [] && !connectOk
  {
    var config: Config;
    if cli.reconfigure || stored.NoConfigPath? {
      config := BuildConfig(wizard);
    } else if stored.LoadFailed? {
      return Panicked(ConfigLoadFailed, []);
    } else {
      config := stored.config;
    }
    if config.host == "" {
      config := BuildConfig(wizard);
    }

    var directory: string;
    match cli.directory {
      case Some(dir) =>
        if !dirExists {
          return Exited(1, []);
        }
        directory := dir;
      case None =>
        if cwd.None? {
          return Panicked(NoWorkingDirectory, []);
        }
        directory := cwd.value;
    }

    var options := SessionOptionsOf(config);
    var log: seq<Event> := [];
    if config.beforeCommands.Some? {
      log := PreCommands.Run(config.beforeCommands.value, outcome);
    }
    log := log + [Connect(config.host, options)];
    if !connectOk {
      return Panicked(ConnectFailed, log);
    }
    s := Ready(config, directory, log);
  }

  /** How `App::run` ended: a panic, or the supervision loop's end (see `Monitor.Exit`). */
  datatype RunOutcome = RunPanicked(reason: Panic) | Served(exit: Monitor.Exit)

  /** How `App::close` ended. `reaped` is false when waiting for the server failed (a warning). */
  datatype CloseOutcome = ClosePanicked(reason: Panic) | Closed(reaped: bool)

  /**
   * Teardown: close the session first (a failure panics), then kill the
   * server (the result is ignored) and wait for it, reporting a failed wait.
   */
  function ShutdownLog(closeOk: bool, waitOk: bool): (log: seq<Event>)
    ensures |log| >= 2 && log[..2] == [Sleep, CloseSession]
    ensures !closeOk ==> |log| == 2
    ensures closeOk ==> |log| == 6 && log[2..4] == [KillServer, WaitServer] && log[5] == Sleep
    ensures closeOk ==> (log[4] == ServerReaped <==> waitOk) && (log[4] == Warn(ServerWaitFailed) <==> !waitOk)
  {
    [Sleep, CloseSession]
    + if closeOk then [KillServer, WaitServer, if waitOk then ServerReaped else Warn(ServerWaitFailed), Sleep] else []
  }

  /** The session is closed before the server is killed, and the server is only waited for after the kill. */
  lemma ShutdownOrder(closeOk: bool, waitOk: bool, i: nat, j: nat)
    requires i < |ShutdownLog(closeOk, waitOk)| && j < |ShutdownLog(closeOk, waitOk)|
    ensures ShutdownLog(closeOk, waitOk)[i] == CloseSession && ShutdownLog(closeOk, waitOk)[j] == KillServer ==> i < j
    ensures ShutdownLog(closeOk, waitOk)[i] == KillServer && ShutdownLog(closeOk, waitOk)[j] == WaitServer ==> i < j
    ensures !closeOk ==> ShutdownLog(closeOk, waitOk)[j] != KillServer
  {
  }

  class App {
    const cli: Cli
    var config: Config
    const directory: string
    /** The stop flag shared with the interrupt handler. */
    var shouldEnd: bool
    /** Everything done to the outside world so far. */
    var log: seq<Event>

    /** The application `App::new` returns once connected. */
    constructor (cli: Cli, end: bool, s: Startup)
      requires s.Ready?
      ensures this.cli == cli && config == s.config && directory == s.directory
      ensures shouldEnd == end && log == s.log
    {
      this.cli := cli;
      config := s.config;
      directory := s.directory;
      shouldEnd := end;
      log := s.log;
    }

    /**
     * `App::run`: the secure-mode user gate, the port forward, the server
     * start and the supervision loop. `added` is what the add-users prompt
     * returned and `addMore` the answer to the offer to add users; the other
     * parameters are what the forward request, the spawn and each loop
     * iteration gave.
     */
    method Run(addMore: bool, added: seq<Credential>, forwardOk: bool, spawnOk: bool, obs: seq<Monitor.Observation>)
      returns (r: RunOutcome)
      requires |added| > 0
      modifies this
      ensures config == old(config).(users := Miniserve.GateUsers(cli.secure, old(config.users), addMore, added))
      ensures var forward := [Forward(config.remotePort, config.localPort)];
        var spawn := [Spawn(Miniserve.Program, Miniserve.ServerArgs(config.localPort, cli.secure, config.users, directory))];
        && (!forwardOk ==> r == RunPanicked(ForwardFailed) && log == old(log) + forward)
        && (forwardOk && !spawnOk ==> r == RunPanicked(SpawnFailed) && log == old(log) + forward + spawn)
        && (forwardOk && spawnOk ==>
              && r == Served(Monitor.ExitOf(obs, old(shouldEnd)))
              && log == old(log) + forward + spawn + Monitor.Transcript(obs, old(shouldEnd)))
      ensures shouldEnd == (old(shouldEnd) || (r.Served? && r.exit.Returned?))
    {
      if cli.secure {
        if config.users == [] {
          config := config.(users := added);
        } else if addMore {
          config := config.(users := config.users + added);
        }
      }

      log := log + [Forward(config.remotePort, config.localPort)];
      if !forwardOk {
        return RunPanicked(ForwardFailed);
      }

      var argv := Miniserve.BuildArgs(config.localPort, cli.secure, config.users, directory);
      log := log + [Spawn(Miniserve.Program, argv)];
      if !spawnOk {
        return RunPanicked(SpawnFailed);
      }

      var exit, events, flag := Monitor.Watch(obs, shouldEnd);
      log := log + events;
      shouldEnd := flag;
      r := Served(exit);
    }

    /** `App::close`; `closeOk` and `waitOk` are what closing the session and waiting for the server gave. */
    method Close(closeOk: bool, waitOk: bool) returns (r: CloseOutcome)
      modifies this`log
      ensures log == old(log) + ShutdownLog(closeOk, waitOk)
      ensures r == if closeOk then Closed(waitOk) else ClosePanicked(SessionCloseFailed)
    {
      log := log + [Sleep];
      log := log + [CloseSession];
      if !closeOk {
        return ClosePanicked(SessionCloseFailed);
      }
      log := log + [KillServer];
      log := log + [WaitServer];
      if !waitOk {
        log := log + [Warn(ServerWaitFailed)];
      } else {
        log := log + [ServerReaped];
      }
      log := log + [Sleep];
      r := Closed(waitOk);
    }
  }
}
