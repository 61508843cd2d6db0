# livetunnel: a Dafny model of the tunnel application

livetunnel serves a local directory through a reverse SSH port forward. It runs
some local commands first, connects to the SSH host, and asks the host to forward
a remote port to a local port. It then starts `miniserve` on that local port and
supervises the session and the server until it is told to stop. Finally it closes
the session and ends the server.

This project models the logic inside `App` (src/app.rs):

- `App::build_config`: the part that turns the setup assistant's editor text
  into pre-connection commands, post-connection commands and jump hosts, and
  normalises empty lists to `None`.
- `App::new`: the configuration choice, the directory check, the
  pre-connection command loop and the connection.
- `App::run`: the secure-mode user gate, the `miniserve` argument vector and
  the supervision loop.
- `App::close`: the teardown sequence.

Everything the program gets from outside is a parameter of the model. That covers
prompt answers, the stored configuration, whether the directory exists, process
results, session calls and the interrupt flag. What the program does to the outside
world is recorded, in order, as a log of `Events.Event` values.

Files, one module each:

- `Wrappers.dfy`: `Option`.
- `Strings.dfy`: the Rust `str` operations the code relies on. These are
  `split_once`, `split`, `lines` and the decimal `to_string` of a port.
- `Config.dfy`: the configuration record, editor-text parsing and
  `BuildConfig`.
- `Events.dfy`: the log alphabet.
- `PreCommands.dfy`: the pre-connection command loop.
- `Miniserve.dfy`: the user gate and the server's arguments.
- `Monitor.dfy`: the supervision loop.
- `Tunnel.dfy`: `Start` (`App::new`) and the class `App` with `Run` and
  `Close`.

Some behaviours of the source worth stating plainly:

- Teardown closes the SSH session (src/app.rs:388) before it kills and waits
  for the server (src/app.rs:398-404).
- A failing session close panics (`unwrap`), so teardown is not best-effort.
- Ports are any `u16` value, including 0. There is no range check.
- `close` takes `self` by value, so it cannot run twice. The model does not
  state idempotence.
- An empty argument text is split into one empty argument, exactly as
  `args.split(' ')` does. A command line without a space therefore runs its
  program with one argument `""`.
- An unsuccessful server exit or a failing poll of the server only produces a
  warning; a successful exit produces nothing.
  Only the stop flag ends the loop, and a failed session check sets it.

## Model

| member | source | states |
|---|---|---|
| Strings.SplitOnce | src/app.rs:562 | `split_once(' ')` yields `None` exactly when there is no space; otherwise `before + " " + after` is the line and `before` holds no space |
| Strings.SplitOnceAt | src/app.rs:562 | splitting `p + [c] + q` with no `c` in `p` gives back `(p, q)` |
| Strings.Split | src/app.rs:154 | `split(' ')` yields at least one piece and no piece contains the separator |
| Strings.JoinSplit | src/app.rs:154 | joining the pieces of `split(' ')` with single spaces restores the text |
| Strings.SplitJoin | src/app.rs:154 | splitting a space-join of space-free pieces gives the pieces back |
| Strings.Lines | src/app.rs:561 | `lines()` yields no line for empty text and no line containing a newline |
| Strings.LinesOfTerminated | src/app.rs:601-603 | text of newline-terminated lines is read back as exactly those lines, empty lines included |
| Strings.LinesCrlf | src/app.rs:581 | a line ended by "\r\n" is read without its carriage return, as one ended by "\n" |
| Strings.LinesOfJoined | src/app.rs:581 | the last line needs no newline of its own unless it is empty |
| Strings.Decimal | src/app.rs:305 | `local_port.to_string()` is a non-empty string of digits without leading zeros |
| Strings.DecimalRoundTrip | src/app.rs:305 | reading the decimal rendering back gives the port number |
| Config.ParseCommandLine | src/app.rs:561-568 | a line with a space becomes the program before the first space and the arguments after it (`program + " " + args == line`, no space in `program`); a line without a space becomes `(line, "")` |
| Config.ParseCommandLineRoundTrip | src/app.rs:581-588 | a command whose program has no space is parsed back from `program + " " + args` |
| Config.ParseLines | src/app.rs:561-568 | one command per editor line, in line order |
| Config.ParseLinesAppend | src/app.rs:581-588 | parsing two runs of lines is parsing each and concatenating, so commands accumulate in line order across editors |
| Config.GatheredUnselected | src/app.rs:549-606 | a feature that is not selected contributes no lines |
| Config.GatheredSelectedOnce | src/app.rs:549-606 | a feature selected once contributes exactly the lines of its editor text, or nothing when its editor prompt failed |
| Config.NoneIfEmptyListed | src/app.rs:609-627 | normalisation loses no entry, and yields `None` exactly for the empty list |
| Config.ListedNoneIfEmpty | src/app.rs:135 | a normalised list read back with `if let Some` and normalised again is unchanged |
| Config.WizardConfig | src/app.rs:608-631 | the built configuration copies host, port, user, key file, ports and users; each list is `None` exactly when its editors gave no lines, otherwise their lines (parsed for commands) |
| Config.PushCommands | src/app.rs:561-568 | the push loop appends one parsed command per line of the editor text |
| Config.PushLines | src/app.rs:601-603 | the push loop appends every line of the editor text as a jump host |
| Config.BuildConfig | src/app.rs:545-631 | the selection loop, skipping failed editors, yields exactly `WizardConfig` |
| PreCommands.Arguments | src/app.rs:154-156 | arguments are cut at every single space: joining them with spaces restores the text, none holds a space, and empty text yields one empty argument |
| PreCommands.ArgumentsOfJoined | src/app.rs:154-156 | space-free arguments joined with spaces are cut back into the same list |
| PreCommands.Verdict | src/app.rs:158-198 | a command is reported with a warning exactly when it failed to launch or exited unsuccessfully |
| PreCommands.Run | src/app.rs:142-199 | every command is run in order with its tokenised arguments and then reported with its own outcome, whatever the earlier commands did |
| PreCommands.FailureDoesNotStop | src/app.rs:158-188 | after a failed command is warned about, the next command is still run |
| Miniserve.GateUsers | src/app.rs:230-246 | secure mode leaves at least one user; existing users are kept as a prefix and only the added ones are appended; without secure mode the users are untouched |
| Miniserve.AuthRoundTrip | src/app.rs:309 | an `-a` value `user:sha512:digest` names its user and digest again when the user name has no colon |
| Miniserve.AuthArgs | src/app.rs:307-311 | two arguments per user, `-a` then `user:sha512:digest`, in configuration order |
| Miniserve.ServerArgs | src/app.rs:305-313 | the arguments are `-H -i 127.0.0.1 -p <port>`, then in secure mode the `-a` pairs, and the directory last; without secure mode no `-a` appears before the directory |
| Miniserve.BuildArgs | src/app.rs:295-313 | the repeated `args` calls build exactly `ServerArgs` |
| Monitor.Probe | src/app.rs:330-355 | every iteration checks the session first and polls the server afterwards; a live session is followed directly by the poll, a dead one by its warning and then the poll |
| Monitor.ProbeWarnings | src/app.rs:330-355 | an iteration warns that the session died exactly when it is not alive, that the server exited unsuccessfully exactly when it did, and that polling failed exactly when the poll failed |
| Monitor.FirstEnd | src/app.rs:357-369 | the iteration the loop returns in is the first one that loads a set flag |
| Monitor.Watch | src/app.rs:329-372 | the loop returns in the first iteration whose flag load sees true, leaves the flag set, and performs exactly `Transcript` |
| Monitor.EndsAt | src/app.rs:357-368 | when iteration `i` is the first to end, the log is the earlier rounds followed by that iteration's probe |
| Monitor.RoundsSnoc | src/app.rs:329-372 | one more non-ending iteration adds its probe and one sleep |
| Monitor.RoundsAppend | src/app.rs:329-372 | the rounds of consecutive stretches of iterations concatenate |
| Monitor.TranscriptShape | src/app.rs:329-372 | the log is the non-ending iterations, each followed by a sleep, then the ending iteration in full with its server poll and no sleep |
| Monitor.ProbeCounts | src/app.rs:330-355 | an iteration's probe holds one session check, one server poll and no sleep |
| Monitor.RoundsCount | src/app.rs:371 | each non-ending iteration sleeps exactly once |
| Monitor.SleepsAndPolls | src/app.rs:329-372 | the loop sleeps once per non-ending iteration and checks the session and polls the server once per iteration run, the ending one included |
| Monitor.PollsNeverEnd | src/app.rs:338-355 | server exits and poll errors never change when the loop returns |
| Monitor.DeadSessionEndsIteration | src/app.rs:330-336 | a failed session check ends the loop in that same iteration unless an earlier one already did |
| Tunnel.ChosenConfig | src/app.rs:90-102 | the configuration used always has a non-empty host; it is the stored one only when it was loaded, not overridden and names a host |
| Tunnel.Start | src/app.rs:89-226 | load failure panics before anything runs; a missing directory exits with code 1 and an unreadable working directory panics, before anything runs; no other panic is possible except a failed connection, so once past these exits every pre-connection command runs in order and the connection is attempted afterwards regardless of their outcomes, and a failed connection panics |
| Tunnel.ShutdownLog | src/app.rs:375-418 | teardown sleeps, closes the session, and only if that succeeded kills the server, waits for it and reports the wait |
| Tunnel.ShutdownOrder | src/app.rs:388-404 | the session is closed before the server is killed, the kill precedes the wait, and nothing is killed after a failed close |
| Tunnel.App.constructor | src/app.rs:218-225 | the application holds the start-up configuration, directory, log and stop flag |
| Tunnel.App.Run | src/app.rs:228-373 | the gate updates the users in place; the forward is requested, then the server is spawned with `ServerArgs`, then the loop runs; a failed forward or spawn panics with nothing after it |
| Tunnel.App.Close | src/app.rs:375-418 | the log grows by exactly `ShutdownLog`; a failed session close panics, a failed wait is only reported |

## Left out

- The SSH session (openssh `SessionBuilder`, `connect`, `request_port_forward`, `check`, `close`) and the tokio runtime: only their success or failure is an input. `Runtime::new().unwrap()` is assumed to succeed.
- Prompts (inquire) and progress bars and messages (indicatif): answers are parameters. Only warnings and success reports that carry a decision are logged.
- Configuration persistence (confy `load`, `store`, `get_configuration_file_path`): the loaded result is the `Stored` input, and storing the built configuration is not modelled.
- SHA-512 hashing and the add-users prompt loop (`App::add_users`, and the user loop in `build_config`): digests are opaque strings. The users the prompts produce are inputs, with at least one from `add_users`.
- The key-file validator and the file-system checks: the directory's existence is an input.
- Process spawning, standard-stream redirection, `output`, `kill`, `wait` and `try_wait`: only their outcomes are inputs. The result of `kill` is ignored by the source and has no input here.
- Sleep durations and the concurrency of the `Arc<AtomicBool>` flag: the flag is `App.shouldEnd`. An observation's `interrupted` says that the interrupt handler has set it before the loop loads it.
- Monitor.Watch: the source loop runs until the flag is set. The model consumes a finite sequence of observations and reports `Exhausted` if they run out first.
- Post-connection commands: the source stores them but never runs them.
- src/main.rs: only the command-line struct, given here as `Tunnel.Cli`.
- The `Display` text of the optional features.
- The `unwrap()` panics on prompt failures (the add-users `Confirm` in `run`, src/app.rs:235-238; the assistant's prompts, src/app.rs:427-514) and on `store(...)` (src/app.rs:633): the model cannot panic at these points.
