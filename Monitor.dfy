/**
 * The supervision loop at the end of `App::run` (src/app.rs). Each iteration
 * checks the session, polls the server process and loads the stop flag; only
 * the flag ends the loop, and a failed session check sets it.
 */
module Monitor {

  import opened Events

  /** What `try_wait` gave: still running, exited (successfully or not), or an error. */
  datatype Poll = Running | Exited(success: bool) | PollFailed

  /**
   * What one iteration sees: whether the session check succeeded, the server
   * poll, and whether the interrupt handler has set the stop flag by the time
   * the loop loads it.
   */
  datatype Observation = Observation(sessionAlive: bool, poll: Poll, interrupted: bool)

  /** How the loop left off: it returned in the given iteration, or it was still looping when the observations ran out. */
  datatype Exit = Returned(iteration: nat) | Exhausted

  /** The value the loop loads in an iteration whose flag was `flag` at the top of it. */
  predicate Ends(o: Observation, flag: bool)
  {
    flag || !o.sessionAlive || o.interrupted
  }

  /** Messages about the server poll: only an unsuccessful exit or a poll error is reported. */
  function PollNotice(p: Poll): seq<Event>
  {
    match p
    case Running => []
    case Exited(success) => if success then [] else [Warn(ServerExitFailed)]
    case PollFailed => [Warn(ServerPollFailed)]
  }

  /** Everything an iteration does before it loads the flag. */
  function Probe(o: Observation): (events: seq<Event>)
    ensures |events| >= 2 && events[0] == CheckSession
    ensures PollServer in events
    ensures o.sessionAlive ==> events[1] == PollServer
    ensures !o.sessionAlive ==> |events| >= 3 && events[1] == Warn(SessionDied) && events[2] == PollServer
  {
    [CheckSession] + (if o.sessionAlive then [] else [Warn(SessionDied)]) + [PollServer] + PollNotice(o.poll)
  }

  /**
   * An iteration warns that the session died exactly when its check failed,
   * and about the server exactly when it exited unsuccessfully or could not
   * be polled; a successful exit goes unreported.
   */
  lemma ProbeWarnings(o: Observation)
    ensures Warn(SessionDied) in Probe(o) <==> !o.sessionAlive
    ensures Warn(ServerExitFailed) in Probe(o) <==> o.poll == Exited(false)
    ensures Warn(ServerPollFailed) in Probe(o) <==> o.poll.PollFailed?
  {
  }

  /** What the loop does over the observations, starting with the flag at `flag`. */
  function Transcript(obs: seq<Observation>, flag: bool): seq<Event>
  {
    if obs == [] then []
    else Probe(obs[0]) + (if Ends(obs[0], flag) then [] else [Sleep] + Transcript(obs[1..], flag))
  }

  /** The first iteration that loads a set flag, or `|obs|` when there is none. */
  function FirstEnd(obs: seq<Observation>, flag: bool): (k: nat)
    ensures k <= |obs|
    ensures k < |obs| ==> Ends(obs[k], flag)
    ensures forall j :: 0 <= j < k ==> !Ends(obs[j], flag)
  {
    if obs == [] then 0
    else if Ends(obs[0], flag) then 0
    else 1 + FirstEnd(obs[1..], flag)
  }

  function ExitOf(obs: seq<Observation>, flag: bool): Exit
  {
    var k := FirstEnd(obs, flag);
    if k < |obs| then Returned(k) else Exhausted
  }

  /**
   * The loop. `flag` is the stop flag on entry; `flagAfter` is its value when
   * the method gives up control.
   */
  method Watch(obs: seq<Observation>, flag: bool) returns (exit: Exit, events: seq<Event>, flagAfter: bool)
    ensures exit == ExitOf(obs, flag)
    ensures flagAfter == (flag || exit.Returned?)
    ensures events == Transcript(obs, flag)
  {
    var shouldEnd := flag;
    events := [];
    var i := 0;
    while i < |obs|
      invariant i <= |obs|
      invariant shouldEnd == flag
      invariant i <= FirstEnd(obs, flag)
      invariant events == Rounds(obs[..i])
    {
      var o := obs[i];
      var round := [CheckSession];
      if !o.sessionAlive {
        round := round + [Warn(SessionDied)];
        shouldEnd := true;
      }
      assert shouldEnd == (flag || !o.sessionAlive);
      round := round + [PollServer];
      round := round + PollNotice(o.poll);
      assert round == Probe(o);
      events := events + round;
      shouldEnd := shouldEnd || o.interrupted;
      if shouldEnd {
        EndsAt(obs, flag, i);
        return Returned(i), events, true;
      }
      events := events + [Sleep];
      RoundsSnoc(obs, i);
      i := i + 1;
    }
    assert FirstEnd(obs, flag) == |obs| && obs[..|obs|] == obs;
    TranscriptShape(obs, flag);
    exit, flagAfter := Exhausted, shouldEnd;
  }

  /** When iteration `i` is the first to load a set flag, the loop's whole transcript ends with its probe. */
  lemma EndsAt(obs: seq<Observation>, flag: bool, i: nat)
    requires i < |obs| && Ends(obs[i], flag)
    requires i <= FirstEnd(obs, flag)
    ensures FirstEnd(obs, flag) == i && ExitOf(obs, flag) == Returned(i)
    ensures Transcript(obs, flag) == Rounds(obs[..i]) + Probe(obs[i])
  {
    TranscriptShape(obs, flag);
  }

  /** The rounds up to iteration `i` extend by that iteration's probe and sleep. */
  lemma RoundsSnoc(obs: seq<Observation>, i: nat)
    requires i < |obs|
    ensures Rounds(obs[..i + 1]) == Rounds(obs[..i]) + Probe(obs[i]) + [Sleep]
  {
    assert obs[..i + 1] == obs[..i] + [obs[i]];
    RoundsAppend(obs[..i], [obs[i]]);
  }

  lemma {:induction false} RoundsAppend(a: seq<Observation>, b: seq<Observation>)
    ensures Rounds(a + b) == Rounds(a) + Rounds(b)
  {
    if a != [] {
      assert (a + b)[0] == a[0] && (a + b)[1..] == a[1..] + b;
      RoundsAppend(a[1..], b);
    } else {
      assert a + b == b;
    }
  }

  /** The iterations that did not end: each probes and then sleeps once. */
  function Rounds(obs: seq<Observation>): seq<Event>
  {
    if obs == [] then [] else Probe(obs[0]) + [Sleep] + Rounds(obs[1..])
  }

  /**
   * The transcript is the iterations before the ending one, each followed by a
   * sleep, and then the ending iteration in full (its server poll included),
   * with no sleep after it.
   */
  lemma {:induction false} TranscriptShape(obs: seq<Observation>, flag: bool)
    ensures var k := FirstEnd(obs, flag);
      Transcript(obs, flag) == Rounds(obs[..k]) + (if k < |obs| then Probe(obs[k]) else [])
  {
    var k := FirstEnd(obs, flag);
    if obs == [] {
    } else if Ends(obs[0], flag) {
      assert k == 0 && obs[..k] == [];
    } else {
      var rest := obs[1..];
      var k' := FirstEnd(rest, flag);
      assert k == k' + 1;
      var tail := if k' < |rest| then Probe(rest[k']) else [];
      assert tail == (if k < |obs| then Probe(obs[k]) else []);
      TranscriptShape(rest, flag);
      RoundsPrefix(obs, k);
      ConsAssoc(Probe(obs[0]), Rounds(rest[..k']), tail);
    }
  }

  /** The first of several non-ending iterations comes first in their rounds. */
  lemma RoundsPrefix(obs: seq<Observation>, k: nat)
    requires 0 < k <= |obs|
    ensures Rounds(obs[..k]) == Probe(obs[0]) + [Sleep] + Rounds(obs[1..][..k - 1])
  {
    assert obs[..k][0] == obs[0] && obs[..k][1..] == obs[1..][..k - 1];
  }

  /** Regrouping an iteration's probe, its sleep and the rest of the log. */
  lemma ConsAssoc(p: seq<Event>, r: seq<Event>, t: seq<Event>)
    ensures p + ([Sleep] + (r + t)) == p + [Sleep] + r + t
  {
  }

  /** One iteration checks the session once, polls the server once and does not sleep. */
  lemma ProbeCounts(o: Observation)
    ensures multiset(Probe(o))[Sleep] == 0
    ensures multiset(Probe(o))[PollServer] == 1
    ensures multiset(Probe(o))[CheckSession] == 1
  {
  }

  /** Each non-ending iteration sleeps exactly once. */
  lemma {:induction false} RoundsCount(obs: seq<Observation>)
    ensures multiset(Rounds(obs))[Sleep] == |obs|
    ensures multiset(Rounds(obs))[PollServer] == |obs|
    ensures multiset(Rounds(obs))[CheckSession] == |obs|
  {
    if obs != [] {
      ProbeCounts(obs[0]);
      RoundsCount(obs[1..]);
      assert Rounds(obs) == Probe(obs[0]) + [Sleep] + Rounds(obs[1..]);
    }
  }

  /**
   * The loop sleeps once per iteration that did not end, and checks the
   * session and polls the server once per iteration it ran, the ending one
   * included.
   */
  lemma SleepsAndPolls(obs: seq<Observation>, flag: bool)
    ensures var k := FirstEnd(obs, flag);
      && multiset(Transcript(obs, flag))[Sleep] == k
      && multiset(Transcript(obs, flag))[PollServer] == (if k < |obs| then k + 1 else k)
      && multiset(Transcript(obs, flag))[CheckSession] == (if k < |obs| then k + 1 else k)
  {
    var k := FirstEnd(obs, flag);
    TranscriptShape(obs, flag);
    RoundsCount(obs[..k]);
    if k < |obs| {
      ProbeCounts(obs[k]);
    }
  }

  /** Two runs that differ only in what the server polls gave. */
  predicate SameButPolls(a: seq<Observation>, b: seq<Observation>)
  {
    && |a| == |b|
    && forall j :: 0 <= j < |a| ==> a[j].sessionAlive == b[j].sessionAlive && a[j].interrupted == b[j].interrupted
  }

  /** The server exiting, failing or its poll erroring never changes when the loop returns. */
  lemma PollsNeverEnd(a: seq<Observation>, b: seq<Observation>, flag: bool)
    requires SameButPolls(a, b)
    ensures FirstEnd(a, flag) == FirstEnd(b, flag)
    ensures ExitOf(a, flag) == ExitOf(b, flag)
  {
  }

  /** A failed session check ends the loop in that very iteration, unless an earlier one ended it. */
  lemma DeadSessionEndsIteration(obs: seq<Observation>, flag: bool, k: nat)
    requires k < |obs| && !obs[k].sessionAlive
    ensures FirstEnd(obs, flag) <= k
    ensures FirstEnd(obs, flag) == k <==> forall j :: 0 <= j < k ==> !Ends(obs[j], flag)
  {
  }
}
