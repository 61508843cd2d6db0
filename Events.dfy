/**
 * What the tunnel does to the outside world, in the order it does it: the
 * processes it runs, the session calls it makes, the sleeps, and the warnings
 * and success messages it shows. Each component's log is a sequence of these.
 */
module Events {

  import opened Wrappers
  import opened Config

  /** What the session builder is given before connecting; unset options keep the builder's defaults. */
  datatype SessionOptions = SessionOptions(
    port: Option<Port>,
    user: Option<string>,
    keyfile: Option<string>,
    jumpHosts: Option<seq<string>>)

  /** Conditions shown with the warning style; none of them stops the program. */
  datatype Warning =
    | CommandLaunchFailed(index: nat)
    | CommandExitFailed(index: nat)
    | SessionDied
    | ServerExitFailed
    | ServerPollFailed
    | ServerWaitFailed

  datatype Event =
    | Exec(program: string, argv: seq<string>)
    | CommandDone(index: nat)
    | Connect(host: string, options: SessionOptions)
    | Forward(remote: Port, local: Port)
    | Spawn(program: string, argv: seq<string>)
    | CheckSession
    | PollServer
    | Sleep
    | CloseSession
    | KillServer
    | WaitServer
    | ServerReaped
    | Warn(warning: Warning)
}
