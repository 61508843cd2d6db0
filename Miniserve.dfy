/**
 * How `App::run` (src/app.rs) prepares the file server: the secure-mode user
 * gate and the argument vector handed to `miniserve`.
 */
module Miniserve {

  import opened Wrappers
  import opened Strings
  import opened Config

  const Program := "miniserve"

  /**
   * The users the secure-mode gate leaves in the configuration. `added` stands
   * for what the add-users prompt returned (at least one user, since it asks
   * before it offers to stop); `addMore` is the operator's answer to the offer
   * to add users when some exist already.
   */
  function GateUsers(secure: bool, users: seq<Credential>, addMore: bool, added: seq<Credential>): (r: seq<Credential>)
    requires |added| > 0
    ensures !secure ==> r == users
    ensures secure ==> |r| > 0
    ensures users <= r
    ensures r == users || r == users + added
    ensures secure && (users == [] || addMore) ==> r == users + added
    ensures secure && users != [] && !addMore ==> r == users
  {
    if !secure then users
    else if users == [] then added
    else if addMore then users + added
    else users
  }

  /** The value of one `-a` option: `user:sha512:digest`. */
  function AuthValue(c: Credential): string
  {
    c.user + ":sha512:" + c.digest
  }

  /** A reference reading of an `-a` value: split at its first two colons into user, algorithm and digest. */
  function ParseAuth(s: string): Option<Credential>
  {
    match SplitOnce(s, ':')
    case None => None
    case Some((user, rest)) =>
      match SplitOnce(rest, ':')
      case None => None
      case Some((algorithm, digest)) =>
        if algorithm == "sha512" then Some(Credential(user, digest)) else None
  }

  /** An `-a` value names its user and digest again, provided the user name has no colon. */
  lemma AuthRoundTrip(c: Credential)
    requires ':' !in c.user
    ensures ParseAuth(AuthValue(c)) == Some(c)
  {
    assert AuthValue(c) == c.user + [':'] + ("sha512:" + c.digest);
    SplitOnceAt(c.user, ':', "sha512:" + c.digest);
    assert "sha512:" + c.digest == "sha512" + [':'] + c.digest;
    SplitOnceAt("sha512", ':', c.digest);
  }

  /** `-a` and its value, once per user, in configuration order. */
  function AuthArgs(users: seq<Credential>): (argv: seq<string>)
    ensures |argv| == 2 * |users|
    ensures forall i :: 0 <= i < |users| ==> argv[2 * i] == "-a" && argv[2 * i + 1] == AuthValue(users[i])
  {
    if users == [] then []
    else
      var rest := AuthArgs(users[..|users| - 1]);
      assert forall i :: 0 <= i < |users| - 1 ==> users[..|users| - 1][i] == users[i];
      rest + ["-a", AuthValue(users[|users| - 1])]
  }

  /** Hidden files shown, bound to the loopback interface, on the local port. */
  function Prefix(localPort: Port): seq<string>
  {
    ["-H", "-i", "127.0.0.1", "-p", Decimal(localPort as nat)]
  }

  /**
   * The server's arguments: the fixed prefix, in secure mode one `-a` pair per
   * user, and the served directory last.
   */
  function ServerArgs(localPort: Port, secure: bool, users: seq<Credential>, directory: string): (argv: seq<string>)
    ensures |argv| == 6 + (if secure then 2 * |users| else 0)
    ensures argv[..5] == Prefix(localPort) && argv[|argv| - 1] == directory
    ensures secure ==> argv[5..|argv| - 1] == AuthArgs(users)
    ensures !secure ==> "-a" !in argv[..|argv| - 1]
  {
    var argv := Prefix(localPort) + (if secure then AuthArgs(users) else []) + [directory];
    assert argv[..5] == Prefix(localPort);
    assert argv[5..|argv| - 1] == (if secure then AuthArgs(users) else []);
    assert Decimal(localPort as nat)[0] != '-';
    argv
  }

  /** Builds the arguments the way the source does: one `args` call after another. */
  method BuildArgs(localPort: Port, secure: bool, users: seq<Credential>, directory: string) returns (argv: seq<string>)
    ensures argv == ServerArgs(localPort, secure, users, directory)
  {
    argv := ["-H", "-i", "127.0.0.1", "-p", Decimal(localPort as nat)];
    if secure {
      for i := 0 to |users|
        invariant argv == Prefix(localPort) + AuthArgs(users[..i])
      {
        assert users[..i + 1][..i] == users[..i];
        var (user, pw) := (users[i].user, users[i].digest);
        argv := argv + ["-a", user + ":sha512:" + pw];
      }
      assert users[..|users|] == users;
    }
    argv := argv + [directory];
  }
}
