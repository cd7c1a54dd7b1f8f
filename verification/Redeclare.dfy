/** The single-flight topology redeclare: any number of reconnect barriers enter at once; one runs
    the redeclare, the others wait for it, and a recent success is taken over.
  */
module Redeclare {
  import opened Optional

  /** Ten seconds, in nanoseconds. */
  const WINDOW: nat := 10_000_000_000

  /** A caller waits for one particular run, the one whose channel it read under the lock. */
  datatype Caller =
    | AtLock
    | Waiting(run: nat)
    | Running(run: nat, since: nat)
    | Done(ok: bool, at: nat, own: bool)

  /** The run whose wait channel is set, and whose run it is. */
  datatype Flight = Flight(run: nat, owner: nat)

  /** `successes` are the times at which runs succeeded and `starts` when those runs began. */
  datatype State = State(now: nat, last: Option<nat>, inFlight: Option<Flight>, runs: nat, callers: map<nat, Caller>,
                         successes: seq<nat>, starts: seq<nat>)

  const INIT := State(0, None, None, 0, map[], [], [])

  datatype Action =
    | Tick(elapsed: nat)
    | Enter(c: nat)
    | Lock(c: nat)                  // the critical section at the top of the loop
    | Wake(c: nat)
    | GiveUp(c: nat)                // the caller's context is done
    | Finish(c: nat, ok: bool)

  function Next(s: State, a: Action): State
  {
    match a
    case Tick(elapsed) => s.(now := s.now + elapsed)
    case Enter(c) => if c in s.callers then s else s.(callers := s.callers[c := AtLock])
    case Lock(c) =>
      if c !in s.callers || s.callers[c] != AtLock then s
      else if s.last.Some? && s.now - s.last.value < WINDOW
      then s.(callers := s.callers[c := Done(true, s.now, false)])
      else if s.inFlight.Some? then s.(callers := s.callers[c := Waiting(s.inFlight.value.run)])
      else s.(inFlight := Some(Flight(s.runs, c)), runs := s.runs + 1, callers := s.callers[c := Running(s.runs, s.now)])
    case Wake(c) =>
      if c !in s.callers || !s.callers[c].Waiting?
         || (s.inFlight.Some? && s.inFlight.value.run == s.callers[c].run) then s
      else s.(callers := s.callers[c := AtLock])
    case GiveUp(c) =>
      if c !in s.callers || !s.callers[c].Waiting? then s
      else s.(callers := s.callers[c := Done(false, s.now, false)])
    case Finish(c, ok) =>
      if c !in s.callers || !s.callers[c].Running? then s
      else s.(inFlight := None,
              last := if ok then Some(s.now) else s.last,
              successes := if ok then s.successes + [s.now] else s.successes,
              starts := if ok then s.starts + [s.callers[c].since] else s.starts,
              callers := s.callers[c := Done(ok, s.now, true)])
  }

  function Run(actions: seq<Action>): State
  {
    if actions == [] then INIT else Next(Run(actions[..|actions| - 1]), actions[|actions| - 1])
  }

  /** Some run had succeeded within the window before time `at`. */
  ghost predicate RecentSuccess(s: State, at: nat)
  {
    exists i :: 0 <= i < |s.successes| && s.successes[i] <= at < s.successes[i] + WINDOW
  }

  /** A caller that runs owns the flight, and began the window after the last success. */
  predicate Runner(s: State, c: nat)
  {
    c in s.callers && s.callers[c].Running? ==>
      && s.inFlight == Some(Flight(s.callers[c].run, c))
      && s.callers[c].since <= s.now
      && (s.last.Some? ==> s.last.value + WINDOW <= s.callers[c].since)
  }

  ghost predicate Single(s: State)
  {
    forall c :: Runner(s, c)
  }

  /** Each run ends after it starts, and starts the window after every earlier end. */
  ghost predicate Chain(starts: seq<nat>, ends: seq<nat>)
  {
    && |starts| == |ends|
    && (forall i :: 0 <= i < |ends| ==> starts[i] <= ends[i])
    && (forall i, j :: 0 <= i < j < |ends| ==> ends[i] + WINDOW <= starts[j])
  }

  ghost predicate Spaced(s: State)
  {
    && Chain(s.starts, s.successes)
    && (s.last == if s.successes == [] then None else Some(s.successes[|s.successes| - 1]))
    && (s.last.Some? ==> s.last.value <= s.now)
  }

  /** A caller is told of success only by its own run or by one within the window. */
  ghost predicate Justified(s: State, d: Caller)
  {
    d.Done? && d.ok ==> (d.own && d.at in s.successes) || RecentSuccess(s, d.at)
  }

  ghost predicate Honest(s: State)
  {
    forall c | c in s.callers :: Justified(s, s.callers[c])
  }

  lemma RecentKept(s: State, r: State, at: nat)
    requires RecentSuccess(s, at) && s.successes <= r.successes
    ensures RecentSuccess(r, at)
  {
  }

  lemma JustifiedKept(s: State, a: Action, c: nat)
    requires Spaced(s) && c in Next(s, a).callers
    requires c in s.callers ==> Justified(s, s.callers[c])
    ensures Justified(Next(s, a), Next(s, a).callers[c])
  {
    var r := Next(s, a);
    var d := r.callers[c];
    if c in s.callers && s.callers[c] == d {
      if d.Done? && RecentSuccess(s, d.at) {
        RecentKept(s, r, d.at);
      }
    } else if d.Done? && d.ok && a.Lock? {
      assert r.successes[|s.successes| - 1] <= s.now < r.successes[|s.successes| - 1] + WINDOW;
    } else if d.Done? && d.ok {
      assert r.successes[|s.successes|] == s.now;
    }
  }

  lemma RunnerKept(s: State, a: Action, c: nat)
    requires Runner(s, c) && Runner(s, match a case Finish(d, _) => d case _ => c)
    ensures Runner(Next(s, a), c)
  {
  }

  lemma SpacedKept(s: State, a: Action)
    requires Spaced(s) && Runner(s, match a case Finish(d, _) => d case _ => 0)
    ensures Spaced(Next(s, a))
  {
  }

  lemma NextKeeps(s: State, a: Action)
    requires Single(s) && Spaced(s) && Honest(s)
    ensures Single(Next(s, a)) && Spaced(Next(s, a)) && Honest(Next(s, a))
  {
    SpacedKept(s, a);
    forall c ensures Runner(Next(s, a), c) { RunnerKept(s, a, c); }
    forall c | c in Next(s, a).callers ensures Justified(Next(s, a), Next(s, a).callers[c]) { JustifiedKept(s, a, c); }
  }

  lemma {:induction false} Always(actions: seq<Action>)
    ensures Single(Run(actions)) && Spaced(Run(actions)) && Honest(Run(actions))
  {
    if actions != [] {
      var s := Run(actions[..|actions| - 1]);
      Always(actions[..|actions| - 1]);
      NextKeeps(s, actions[|actions| - 1]);
    }
  }

  /** In every interleaving at most one redeclare runs, a run that succeeds began at least the
      window after the previous success, and no caller is told of success by a failed run. */
  lemma RedeclareSafe(actions: seq<Action>)
    ensures var s := Run(actions);
            && (forall c, d | c in s.callers && d in s.callers && s.callers[c].Running? && s.callers[d].Running? :: c == d)
            && Chain(s.starts, s.successes)
            && Honest(s)
  {
    Always(actions);
    var s := Run(actions);
    forall c, d | c in s.callers && d in s.callers && s.callers[c].Running? && s.callers[d].Running? ensures c == d {
      assert Runner(s, c) && Runner(s, d);
    }
  }
}
