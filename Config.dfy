/**
 * The tunnel's configuration record and the part of the setup assistant
 * (`App::build_config`, src/app.rs) that turns editor text into command lists
 * and jump hosts. Prompt answers are given as a `WizardAnswers` value.
 */
module Config {

  import opened Wrappers
  import opened Strings

  /** A TCP port: Rust's `u16`, with no further range check. */
  newtype Port = x: int | 0 <= x < 0x1_0000

  /** A local command: the program and its whole argument text. */
  datatype Command = Command(program: string, args: string)

  /** A user of the secured share and the hex digest of their password. */
  datatype Credential = Credential(user: string, digest: string)

  datatype Config = Config(
    beforeCommands: Option<seq<Command>>,
    afterCommands: Option<seq<Command>>,
    host: string,
    port: Option<Port>,
    username: Option<string>,
    keyfile: Option<string>,
    jumpHosts: Option<seq<string>>,
    localPort: Port,
    remotePort: Port,
    users: seq<Credential>)

  /** The optional features offered by the assistant's multi-select. */
  datatype Feature = CmdBefore | CmdAfter | JumpHosts

  /**
   * What the operator answered. Each selected feature comes with the text the
   * editor returned for it, or `None` when the editor prompt failed.
   */
  datatype WizardAnswers = WizardAnswers(
    selection: seq<(Feature, Option<string>)>,
    host: string,
    port: Option<Port>,
    username: Option<string>,
    keyfile: Option<string>,
    remotePort: Port,
    localPort: Port,
    users: seq<Credential>)

  /** One editor line read as a command: the program up to the first space, the arguments after it. */
  function ParseCommandLine(line: string): (c: Command)
    ensures ' ' in line ==> c.program + " " + c.args == line && ' ' !in c.program
    ensures ' ' !in line ==> c == Command(line, "")
  {
    match SplitOnce(line, ' ')
    case Some((program, args)) => Command(program, args)
    case None => Command(line, "")
  }

  /** A command whose program has no space is read back from `program + " " + args`. */
  lemma ParseCommandLineRoundTrip(c: Command)
    requires ' ' !in c.program
    ensures ParseCommandLine(c.program + " " + c.args) == c
  {
    SplitOnceAt(c.program, ' ', c.args);
  }

  /** Every line read as a command, one entry per line, in line order. */
  function ParseLines(lines: seq<string>): (cs: seq<Command>)
    ensures |cs| == |lines|
    ensures forall k :: 0 <= k < |lines| ==> cs[k] == ParseCommandLine(lines[k])
  {
    if lines == [] then [] else [ParseCommandLine(lines[0])] + ParseLines(lines[1..])
  }

  /** Parsing the lines of two texts one after the other is parsing them together. */
  lemma ParseLinesAppend(a: seq<string>, b: seq<string>)
    ensures ParseLines(a + b) == ParseLines(a) + ParseLines(b)
  {
  }

  /** The lines an editor answer contributes: none when the prompt failed. */
  function EditorLines(answer: Option<string>): seq<string>
  {
    match answer
    case Some(text) => Lines(text)
    case None => []
  }

  /** All lines the editors produced for feature `f`, in selection order. */
  function Gathered(selection: seq<(Feature, Option<string>)>, f: Feature): seq<string>
  {
    if selection == [] then
      []
    else
      var last := selection[|selection| - 1];
      Gathered(selection[..|selection| - 1], f) + (if last.0 == f then EditorLines(last.1) else [])
  }

  /** A feature that is not selected contributes nothing. */
  lemma {:induction false} GatheredUnselected(selection: seq<(Feature, Option<string>)>, f: Feature)
    requires forall j :: 0 <= j < |selection| ==> selection[j].0 != f
    ensures Gathered(selection, f) == []
  {
    if selection != [] {
      GatheredUnselected(selection[..|selection| - 1], f);
    }
  }

  /** A feature selected once contributes exactly the lines of its editor text. */
  lemma {:induction false} GatheredSelectedOnce(selection: seq<(Feature, Option<string>)>, f: Feature, k: nat)
    requires k < |selection| && selection[k].0 == f
    requires forall j :: 0 <= j < |selection| && j != k ==> selection[j].0 != f
    ensures Gathered(selection, f) == EditorLines(selection[k].1)
  {
    var n := |selection|;
    if k == n - 1 {
      GatheredUnselected(selection[..n - 1], f);
    } else {
      GatheredSelectedOnce(selection[..n - 1], f, k);
    }
  }

  /** `if list.is_empty() { None } else { Some(list) }` */
  function NoneIfEmpty<T>(list: seq<T>): Option<seq<T>>
  {
    if list == [] then None else Some(list)
  }

  /** How the configured lists are read back (`if let Some(list)`): `None` stands for no entries. */
  function Listed<T>(o: Option<seq<T>>): seq<T>
  {
    match o
    case Some(list) => list
    case None => []
  }

  /** Normalising loses nothing, and `None` appears exactly for the empty list. */
  lemma NoneIfEmptyListed<T>(list: seq<T>)
    ensures Listed(NoneIfEmpty(list)) == list
    ensures NoneIfEmpty(list).None? <==> list == []
  {
  }

  /** A normalised option (never `Some([])`) survives reading back and normalising again. */
  lemma ListedNoneIfEmpty<T>(o: Option<seq<T>>)
    requires o != Some([])
    ensures NoneIfEmpty(Listed(o)) == o
  {
  }

  /** The configuration the assistant builds from the given answers. */
  function WizardConfig(w: WizardAnswers): (c: Config)
    ensures c.host == w.host && c.port == w.port && c.username == w.username && c.keyfile == w.keyfile
    ensures c.localPort == w.localPort && c.remotePort == w.remotePort && c.users == w.users
    ensures c.beforeCommands.None? <==> Gathered(w.selection, CmdBefore) == []
    ensures c.afterCommands.None? <==> Gathered(w.selection, CmdAfter) == []
    ensures c.jumpHosts.None? <==> Gathered(w.selection, JumpHosts) == []
    ensures Listed(c.beforeCommands) == ParseLines(Gathered(w.selection, CmdBefore))
    ensures Listed(c.afterCommands) == ParseLines(Gathered(w.selection, CmdAfter))
    ensures Listed(c.jumpHosts) == Gathered(w.selection, JumpHosts)
  {
    Config(
      NoneIfEmpty(ParseLines(Gathered(w.selection, CmdBefore))),
      NoneIfEmpty(ParseLines(Gathered(w.selection, CmdAfter))),
      w.host, w.port, w.username, w.keyfile,
      NoneIfEmpty(Gathered(w.selection, JumpHosts)),
      w.localPort, w.remotePort, w.users)
  }

  /** Pushes one command per line of `text` onto `commands`. */
  method PushCommands(commands: seq<Command>, text: string) returns (r: seq<Command>)
    ensures r == commands + ParseLines(Lines(text))
  {
    var lines := Lines(text);
    r := commands;
    for i := 0 to |lines|
      invariant r == commands + ParseLines(lines[..i])
    {
      var line := lines[i];
      r := r + [ParseCommandLine(line)];
      assert lines[..i + 1] == lines[..i] + [line];
      ParseLinesAppend(lines[..i], [line]);
    }
    assert lines[..|lines|] == lines;
  }

  /** Pushes every line of `text` onto `hosts`. */
  method PushLines(hosts: seq<string>, text: string) returns (r: seq<string>)
    ensures r == hosts + Lines(text)
  {
    var lines := Lines(text);
    r := hosts;
    for i := 0 to |lines|
      invariant r == hosts + lines[..i]
    {
      assert lines[..i + 1] == lines[..i] + [lines[i]];
      r := r + [lines[i]];
    }
    assert lines[..|lines|] == lines;
  }

  /**
   * The assistant after its prompts: visit the selected features in order, skip
   * one whose editor failed, collect lines, then normalise empty lists to `None`.
   * Storing the result on disk is not modelled.
   */
  method BuildConfig(w: WizardAnswers) returns (c: Config)
    ensures c == WizardConfig(w)
  {
    var beforeCmd: seq<Command> := [];
    var afterCmd: seq<Command> := [];
    var jumpH: seq<string> := [];
    var selection := w.selection;
    for i := 0 to |selection|
      invariant beforeCmd == ParseLines(Gathered(selection[..i], CmdBefore))
      invariant afterCmd == ParseLines(Gathered(selection[..i], CmdAfter))
      invariant jumpH == Gathered(selection[..i], JumpHosts)
    {
      assert selection[..i + 1][..i] == selection[..i];
      var (entry, cmd) := selection[i];
      if cmd.None? {
        continue;
      }
      match entry {
        case CmdBefore =>
          ParseLinesAppend(Gathered(selection[..i], CmdBefore), Lines(cmd.value));
          beforeCmd := PushCommands(beforeCmd, cmd.value);
        case CmdAfter =>
          ParseLinesAppend(Gathered(selection[..i], CmdAfter), Lines(cmd.value));
          afterCmd := PushCommands(afterCmd, cmd.value);
        case JumpHosts =>
          jumpH := PushLines(jumpH, cmd.value);
      }
    }
    assert selection[..|selection|] == selection;
    c := Config(
      if beforeCmd == [] then None else Some(beforeCmd),
      if afterCmd == [] then None else Some(afterCmd),
      w.host, w.port, w.username, w.keyfile,
      if jumpH == [] then None else Some(jumpH),
      w.localPort, w.remotePort, w.users);
  }
}
