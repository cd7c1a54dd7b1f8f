/** Callers at the reconnect barrier: any number of publishers wait at the gate that one
    supervisor opens and closes.
  */
module WaitBarrier {
  import opened Optional
  import opened Supervisor

  datatype Answer =
    | Ready
    | TopologyFailed(err: Error)
    | EndedReconnecting          // the caller's context ended
    | EndedBlocked
    | CapExceeded

  /** A caller is asleep with the deadline its last look left it, or has left the loop and is
      about to read the degraded error. */
  datatype Waiter = Asleep(deadline: Option<nat>) | Passed | Answered(answer: Answer)

  datatype Gate = Gate(conn: State, now: nat, waiters: map<nat, Waiter>)

  datatype Event =
    | Conn(action: Action)
    | Tick(elapsed: nat)
    | Enter(w: nat)
    | Wake(w: nat, ended: bool)  // any broadcast; `ended` when the caller's context is done
    | ReadErr(w: nat)

  datatype Setup = Setup(config: Config, connected: bool, cap: nat)

  /** One pass of the loop condition and the arming of the deadline. */
  function Look(u: Setup, g: Gate, deadline: Option<nat>): Waiter
  {
    if !g.conn.link.reconnecting && !g.conn.link.blocked then Passed
    else if !g.conn.link.reconnecting then Asleep(None)
    else Asleep(if deadline == None then Some(g.now + u.cap) else deadline)
  }

  /** What a caller does once woken. An unarmed deadline is the zero time, which is in the past. */
  function Woken(u: Setup, g: Gate, deadline: Option<nat>, ended: bool): Waiter
  {
    if ended then Answered(if g.conn.link.reconnecting then EndedReconnecting else EndedBlocked)
    else if g.conn.link.reconnecting && (deadline == None || deadline.value <= g.now)
    then Answered(CapExceeded)
    else Look(u, g, deadline)
  }

  function After(u: Setup, g: Gate, e: Event): Gate
  {
    match e
    case Conn(a) => g.(conn := Next(u.config, g.conn, a))
    case Tick(elapsed) => g.(now := g.now + elapsed)
    case Enter(w) => if w in g.waiters then g else g.(waiters := g.waiters[w := Look(u, g, None)])
    case Wake(w, ended) =>
      if w !in g.waiters || !g.waiters[w].Asleep? then g
      else g.(waiters := g.waiters[w := Woken(u, g, g.waiters[w].deadline, ended)])
    case ReadErr(w) =>
      if w !in g.waiters || !g.waiters[w].Passed? then g
      else
        var err := g.conn.health.err;
        g.(waiters := g.waiters[w := Answered(if err.Some? then TopologyFailed(err.value) else Ready)])
  }

  function Run(u: Setup, events: seq<Event>): Gate
  {
    if events == [] then Gate(Boot(u.connected), 0, map[])
    else After(u, Run(u, events[..|events| - 1]), events[|events| - 1])
  }

  // ------------------------------------------------------------------------------------------
  // The supervisor in every run
  // ------------------------------------------------------------------------------------------

  lemma {:induction false} Always(u: Setup, events: seq<Event>)
    ensures Inv(u.config, Run(u, events).conn)
  {
    if events != [] {
      var before := events[..|events| - 1];
      Always(u, before);
      var e := events[|events| - 1];
      if e.Conn? {
        InvKept(u.config, Run(u, before).conn, e.action);
      }
    }
  }

  /** With a live context a nil socket at the loop head is always redialled: the supervisor ends
      only on a quiet close or when dialling is exhausted, and after a barrier was cut off by its
      cap only the latter. */
  lemma SupervisorSurvives(u: Setup, events: seq<Event>)
    ensures var l := Run(u, events).conn.link;
            && (l.pc == LoopHead && !l.socket ==> l.bootDegraded || l.reconnecting)
            && (l.pc.Exited? && l.live ==> l.pc.cause == ClosedQuietly || l.pc.cause == DialExhausted)
            && (Run(u, events).conn.capped && l.live ==> l.reconnecting || l.pc == Exited(DialExhausted))
            && (Run(u, events).conn.capped && l.live && l.pc.Exited? ==> l.pc.cause == DialExhausted)
  {
    Always(u, events);
  }

  /** Whatever reopens the gate is the end of a barrier, the end of dialling, or shutdown. */
  lemma GateReopens(u: Setup, events: seq<Event>, e: Event)
    requires Run(u, events).conn.link.reconnecting && !Run(u, events + [e]).conn.link.reconnecting
    ensures Reopens(Run(u, events).conn, Run(u, events + [e]).conn)
  {
    assert (events + [e])[..|events|] == events;
    Always(u, events);
    assert e.Conn?;
    ReopenedBy(u.config, Run(u, events).conn, e.action);
  }

  /** Degraded iff the error is set; the degraded callback, when there is one, was launched once
      for every rising edge, with that edge's error. */
  lemma DegradedOncePerEdge(u: Setup, events: seq<Event>)
    ensures var h := Run(u, events).conn.health;
            && (h.degraded <==> h.err.Some?)
            && h.err == LastErr(h.decided)
            && (u.config.onDegraded ==> h.launched == RisingEdges(h.decided))
            && (!u.config.onDegraded ==> h.launched == [])
  {
    Always(u, events);
  }

  ghost predicate FailsTwice(decided: seq<Barrier>)
  {
    exists i, j :: 0 <= i && j == i + 1 < |decided| && HookErr(decided[i]).Some? && HookErr(decided[j]).Some?
  }

  lemma FailsTwiceGrows(decided: seq<Barrier>)
    requires decided != []
    ensures var n := |decided| - 1;
            FailsTwice(decided) <==>
            FailsTwice(decided[..n]) || (LastErr(decided[..n]).Some? && LastErr(decided).Some?)
  {
  }

  lemma {:induction false} FailuresAreEdgesIff(decided: seq<Barrier>)
    ensures |RisingEdges(decided)| <= Failures(decided)
    ensures Failures(decided) == |RisingEdges(decided)| <==> !FailsTwice(decided)
  {
    if decided != [] {
      FailuresAreEdgesIff(decided[..|decided| - 1]);
      FailsTwiceGrows(decided);
    }
  }

  /** The degraded metric is documented to count transitions. It does exactly as long as no
      barrier fails straight after a failed one. */
  lemma MetricCountsEdgesIff(u: Setup, events: seq<Event>)
    ensures var h := Run(u, events).conn.health;
            h.recorded == |RisingEdges(h.decided)| <==> !FailsTwice(h.decided)
  {
    Always(u, events);
    FailuresAreEdgesIff(Run(u, events).conn.health.decided);
  }

  // ------------------------------------------------------------------------------------------
  // The looks of one call
  // ------------------------------------------------------------------------------------------

  function At(u: Setup, events: seq<Event>, k: nat): Gate
    requires k <= |events|
  {
    Run(u, events[..k])
  }

  predicate Open(g: Gate)
  {
    !g.conn.link.reconnecting && !g.conn.link.blocked
  }

  predicate AsleepAt(g: Gate, w: nat)
  {
    w in g.waiters && g.waiters[w].Asleep?
  }

  /** The event is a pass of call `w` through the loop condition. */
  predicate Looks(u: Setup, g: Gate, e: Event, w: nat)
  {
    || (e == Enter(w) && w !in g.waiters)
    || (e == Wake(w, false) && AsleepAt(g, w) && !Woken(u, g, g.waiters[w].deadline, false).Answered?)
  }

  predicate LooksAt(u: Setup, events: seq<Event>, w: nat, i: nat)
  {
    i < |events| && Looks(u, At(u, events, i), events[i], w)
  }

  /** The last look of the call before `k`. */
  ghost predicate LastLook(u: Setup, events: seq<Event>, w: nat, l: nat, k: nat)
  {
    l < k && LooksAt(u, events, w, l) && forall i :: l < i < k ==> !LooksAt(u, events, w, i)
  }

  predicate SawReconnect(u: Setup, events: seq<Event>, i: nat)
  {
    i < |events| && At(u, events, i).conn.link.reconnecting
  }

  /** Moment `j` is when the call first saw the reconnect that it sees at `k`: the first of its
      looks since when none of them has missed it, or `k` itself. */
  ghost predicate FirstSight(u: Setup, events: seq<Event>, w: nat, j: nat, k: nat)
  {
    && j <= k
    && (j < k ==> LooksAt(u, events, w, j))
    && (forall i :: j <= i < k && LooksAt(u, events, w, i) ==> SawReconnect(u, events, i))
    && (forall l :: LastLook(u, events, w, l, j) ==> !SawReconnect(u, events, l))
  }

  lemma AtNext(u: Setup, events: seq<Event>, k: nat)
    requires k < |events|
    ensures At(u, events, k + 1) == After(u, At(u, events, k), events[k])
  {
    assert events[..k + 1][..k] == events[..k];
  }

  /** What an event does to one call. */
  lemma CallNext(u: Setup, g: Gate, e: Event, w: nat)
    ensures var r := After(u, g, e);
            && (w in g.waiters ==> w in r.waiters)
            && (Looks(u, g, e, w) ==>
                  w in r.waiters
                  && r.waiters[w] == Look(u, g, if AsleepAt(g, w) then g.waiters[w].deadline else None))
            && (!Looks(u, g, e, w) && w in r.waiters ==>
                  || (w in g.waiters && r.waiters[w] == g.waiters[w])
                  || r.waiters[w].Answered?)
  {
  }

  /** Only a call that has not begun has not looked. */
  lemma {:induction false} NoLookYet(u: Setup, events: seq<Event>, w: nat, k: nat, i: nat)
    requires i < k <= |events| && w !in At(u, events, k).waiters
    ensures !LooksAt(u, events, w, i)
  {
    AtNext(u, events, k - 1);
    CallNext(u, At(u, events, k - 1), events[k - 1], w);
    if i < k - 1 {
      NoLookYet(u, events, w, k - 1, i);
    }
  }

  lemma {:induction false} LastLookExists(u: Setup, events: seq<Event>, w: nat, k: nat) returns (l: nat)
    requires k <= |events| && w in At(u, events, k).waiters && !At(u, events, k).waiters[w].Answered?
    ensures LastLook(u, events, w, l, k)
    ensures At(u, events, k).waiters[w].Passed? <==> Open(At(u, events, l))
  {
    var n := k - 1;
    AtNext(u, events, n);
    CallNext(u, At(u, events, n), events[n], w);
    if LooksAt(u, events, w, n) {
      l := n;
    } else {
      l := LastLookExists(u, events, w, n);
    }
  }

  lemma SightAfterLook(u: Setup, events: seq<Event>, w: nat, n: nat, j: nat)
    requires n < |events| && LooksAt(u, events, w, n) && FirstSight(u, events, w, j, n)
    ensures FirstSight(u, events, w, if SawReconnect(u, events, n) then j else n + 1, n + 1)
  {
  }

  lemma SightAfterOther(u: Setup, events: seq<Event>, w: nat, n: nat, j: nat)
    requires n < |events| && !LooksAt(u, events, w, n) && FirstSight(u, events, w, j, n)
    ensures FirstSight(u, events, w, if j < n then j else n + 1, n + 1)
  {
  }

  /** The deadline of a call asleep is the cap after its first sight, and missing if it has none. */
  lemma {:induction false} DeadlineIsSight(u: Setup, events: seq<Event>, w: nat, k: nat) returns (j: nat)
    requires k <= |events| && AsleepAt(At(u, events, k), w)
    ensures FirstSight(u, events, w, j, k)
    ensures At(u, events, k).waiters[w].deadline == if j == k then None else Some(At(u, events, j).now + u.cap)
  {
    var n := k - 1;
    AtNext(u, events, n);
    CallNext(u, At(u, events, n), events[n], w);
    if AsleepAt(At(u, events, n), w) {
      j := DeadlineIsSight(u, events, w, n);
      if LooksAt(u, events, w, n) {
        SightAfterLook(u, events, w, n, j);
        j := if SawReconnect(u, events, n) then j else k;
      } else {
        SightAfterOther(u, events, w, n, j);
        j := if j < n then j else k;
      }
    } else {
      forall i | 0 <= i < n ensures !LooksAt(u, events, w, i) { NoLookYet(u, events, w, n, i); }
      assert FirstSight(u, events, w, n, n);
      SightAfterLook(u, events, w, n, n);
      j := if SawReconnect(u, events, n) then n else k;
    }
  }

  lemma {:induction false} LastLookBetween(u: Setup, events: seq<Event>, w: nat, j: nat, k: nat) returns (l: nat)
    requires j < k && LooksAt(u, events, w, j)
    ensures j <= l && LastLook(u, events, w, l, k)
    decreases k
  {
    if j == k - 1 || LooksAt(u, events, w, k - 1) {
      l := k - 1;
    } else {
      l := LastLookBetween(u, events, w, j, k - 1);
    }
  }

  lemma SightIsUnique(u: Setup, events: seq<Event>, w: nat, i: nat, j: nat, k: nat)
    requires i < j && FirstSight(u, events, w, i, k)
    ensures !FirstSight(u, events, w, j, k)
  {
    if FirstSight(u, events, w, j, k) {
      var l := LastLookBetween(u, events, w, i, j);
    }
  }

  // ------------------------------------------------------------------------------------------
  // What an answer means
  // ------------------------------------------------------------------------------------------

  /** Call `w` is answered by event `k`. */
  predicate AnswersAt(u: Setup, events: seq<Event>, w: nat, k: nat)
  {
    && k < |events| && w in At(u, events, k).waiters && !At(u, events, k).waiters[w].Answered?
    && w in At(u, events, k + 1).waiters && At(u, events, k + 1).waiters[w].Answered?
  }

  /** An answered call was answered once, by its read or by one of its wakes. */
  lemma {:induction false} AnsweredOnce(u: Setup, events: seq<Event>, w: nat, m: nat) returns (k: nat)
    requires m <= |events| && w in At(u, events, m).waiters && At(u, events, m).waiters[w].Answered?
    ensures k < m && AnswersAt(u, events, w, k)
    ensures At(u, events, k + 1).waiters[w] == At(u, events, m).waiters[w]
    ensures if At(u, events, k).waiters[w].Passed? then events[k] == ReadErr(w)
            else events[k].Wake? && events[k].w == w
  {
    var n := m - 1;
    AtNext(u, events, n);
    if w in At(u, events, n).waiters && At(u, events, n).waiters[w].Answered? {
      k := AnsweredOnce(u, events, w, n);
    } else {
      k := n;
    }
  }

  /** An answer read from the degraded state: the call's last look saw the gate open, and at its
      read the degraded error was what the answer says. */
  lemma ReadSaw(u: Setup, events: seq<Event>, w: nat) returns (j: nat, k: nat)
    requires w in Run(u, events).waiters && Run(u, events).waiters[w].Answered?
    requires Run(u, events).waiters[w].answer.Ready? || Run(u, events).waiters[w].answer.TopologyFailed?
    ensures k < |events| && events[k] == ReadErr(w) && AnswersAt(u, events, w, k)
    ensures LastLook(u, events, w, j, k) && Open(At(u, events, j))
    ensures var answer := Run(u, events).waiters[w].answer;
            At(u, events, k).conn.health.err == if answer.Ready? then None else Some(answer.err)
  {
    assert events[..|events|] == events;
    k := AnsweredOnce(u, events, w, |events|);
    AtNext(u, events, k);
    j := LastLookExists(u, events, w, k);
  }

  /** A wake with the context ended names the reconnect flag; it is wrong to name flow control
      exactly when the gate is open. */
  lemma EndedWrongIff(u: Setup, events: seq<Event>, w: nat, k: nat)
    requires k < |events| && events[k] == Wake(w, true) && AsleepAt(At(u, events, k), w)
    ensures AnswersAt(u, events, w, k)
    ensures var g := At(u, events, k);
            var answer := At(u, events, k + 1).waiters[w].answer;
            && (answer == EndedReconnecting <==> g.conn.link.reconnecting)
            && (answer == EndedBlocked && !g.conn.link.blocked <==> Open(g))
  {
    AtNext(u, events, k);
  }

  /** A context error comes from a wake of the call with its context ended. */
  lemma EndedSaw(u: Setup, events: seq<Event>, w: nat) returns (k: nat)
    requires w in Run(u, events).waiters && Run(u, events).waiters[w].Answered?
    requires Run(u, events).waiters[w].answer.EndedReconnecting? || Run(u, events).waiters[w].answer.EndedBlocked?
    ensures k < |events| && events[k] == Wake(w, true) && AnswersAt(u, events, w, k)
    ensures var answer := Run(u, events).waiters[w].answer;
            && (answer == EndedReconnecting <==> At(u, events, k).conn.link.reconnecting)
            && (answer == EndedBlocked && !At(u, events, k).conn.link.blocked <==> Open(At(u, events, k)))
  {
    assert events[..|events|] == events;
    k := AnsweredOnce(u, events, w, |events|);
    AtNext(u, events, k);
    EndedWrongIff(u, events, w, k);
  }

  /** A wake answers the cap error exactly when it sees a reconnect that no look of the call has
      seen, or one first seen at least the cap ago. */
  lemma CapIff(u: Setup, events: seq<Event>, w: nat, j: nat, k: nat)
    requires k < |events| && events[k] == Wake(w, false) && AsleepAt(At(u, events, k), w)
    requires FirstSight(u, events, w, j, k)
    ensures w in At(u, events, k + 1).waiters
    ensures At(u, events, k + 1).waiters[w] == Answered(CapExceeded) <==>
            SawReconnect(u, events, k) && (j == k || At(u, events, j).now + u.cap <= At(u, events, k).now)
  {
    AtNext(u, events, k);
    var i := DeadlineIsSight(u, events, w, k);
    if i < j {
      SightIsUnique(u, events, w, i, j, k);
    } else if j < i {
      SightIsUnique(u, events, w, j, i, k);
    }
  }

  /** A cap error comes sooner than the cap after the call first saw the reconnect exactly when
      the call's last look saw none. */
  lemma CapEarlyIff(u: Setup, events: seq<Event>, w: nat, j: nat, l: nat, k: nat)
    requires k < |events| && events[k] == Wake(w, false) && AsleepAt(At(u, events, k), w)
    requires w in At(u, events, k + 1).waiters && At(u, events, k + 1).waiters[w] == Answered(CapExceeded)
    requires FirstSight(u, events, w, j, k) && LastLook(u, events, w, l, k)
    ensures At(u, events, k).now < At(u, events, j).now + u.cap <==> u.cap > 0 && !SawReconnect(u, events, l)
  {
    CapIff(u, events, w, j, k);
    if j < k {
      assert j <= l;
    }
  }

  /** A cap error comes from a wake of the call that sees a reconnect; `j` is when the call first
      saw it and `l` its last look before. */
  lemma CapSaw(u: Setup, events: seq<Event>, w: nat) returns (j: nat, l: nat, k: nat)
    requires w in Run(u, events).waiters && Run(u, events).waiters[w] == Answered(CapExceeded)
    ensures k < |events| && events[k] == Wake(w, false) && AnswersAt(u, events, w, k) && SawReconnect(u, events, k)
    ensures FirstSight(u, events, w, j, k) && LastLook(u, events, w, l, k)
    ensures At(u, events, k).now < At(u, events, j).now + u.cap <==> u.cap > 0 && !SawReconnect(u, events, l)
  {
    assert events[..|events|] == events;
    k := AnsweredOnce(u, events, w, |events|);
    AtNext(u, events, k);
    l := LastLookExists(u, events, w, k);
    j := DeadlineIsSight(u, events, w, k);
    CapIff(u, events, w, j, k);
    CapEarlyIff(u, events, w, j, l, k);
  }

  /** The barrier that reopened the gate last, if any, was complete: hooks and callback. */
  ghost predicate LastFinishedRestored(c: Config, s: State)
  {
    0 < s.finished <= |s.health.decided| ==> Restored(c, s.health.decided[s.finished - 1])
  }

  /** Read without error, the degraded state says that the barrier which reopened the gate last
      was complete, except inside a barrier that is recovering from a failed one. */
  lemma CleanReadIff(c: Config, s: State)
    requires Inv(c, s) && s.health.err == None
    ensures !s.link.reconnecting ==> LastFinishedRestored(c, s)
    ensures LastFinishedRestored(c, s) <==>
            !((s.link.pc == Notifying || s.link.pc == Finishing)
              && s.finished > 0 && HookErr(s.health.decided[s.finished - 1]).Some?)
  {
  }

  /** A nil answer: the call's last look, at `j`, saw the gate open; at `k` it read no degraded
      error. Then the last barrier to decide (if any) had every snapshotted hook return nil, in
      order, and the barrier that reopened the gate last was complete exactly when the read did
      not fall inside a recovering one. */
  lemma ReadyMeans(u: Setup, events: seq<Event>, w: nat) returns (j: nat, k: nat)
    requires w in Run(u, events).waiters && Run(u, events).waiters[w] == Answered(Ready)
    ensures k < |events| && events[k] == ReadErr(w) && AnswersAt(u, events, w, k)
    ensures LastLook(u, events, w, j, k) && Open(At(u, events, j))
    ensures var s := At(u, events, k).conn;
            && (s.health.decided != [] ==> AllPassed(s.health.decided[|s.health.decided| - 1]))
            && s.finished <= |s.health.decided|
            && (!s.link.reconnecting ==> LastFinishedRestored(u.config, s))
            && (LastFinishedRestored(u.config, s) <==>
                !((s.link.pc == Notifying || s.link.pc == Finishing)
                  && s.finished > 0 && HookErr(s.health.decided[s.finished - 1]).Some?))
  {
    j, k := ReadSaw(u, events, w);
    var s := At(u, events, k).conn;
    Always(u, events[..k]);
    CleanReadIff(u.config, s);
    if s.health.decided != [] {
      var i := |s.health.decided| - 1;
      assert BarrierOk(u.config, s.hooks, s.health.decided[i], s.link.pc == Notifying && i == |s.health.decided| - 1);
      PassedOrFailed(s.health.decided[i]);
    }
  }

  // ------------------------------------------------------------------------------------------
  // Answers that say more than they should
  // ------------------------------------------------------------------------------------------

  lemma Do(u: Setup, events: seq<Event>, e: Event) returns (more: seq<Event>)
    ensures Run(u, more) == After(u, Run(u, events), e)
  {
    more := events + [e];
    assert more[..|events|] == events;
  }

  /** A caller held up by flow control is told that the cap passed, with the clock standing still:
      a reconnect begins, and the end of another caller's context wakes everyone. */
  lemma CapAtOnce(config: Config, cap: nat) returns (events: seq<Event>)
    ensures var g := Run(Setup(config, true, cap), events);
            && g.now == 0 && 0 in g.waiters && g.waiters[0] == Answered(CapExceeded)
            && 1 in g.waiters && g.waiters[1] == Answered(EndedReconnecting)
  {
    var u := Setup(config, true, cap);
    events := Do(u, [], Conn(Outside(ReadRaw)));
    events := Do(u, events, Conn(Outside(FlowControl(true))));
    events := Do(u, events, Enter(0));
    events := Do(u, events, Enter(1));
    events := Do(u, events, Conn(Outside(ForceReconnect)));
    events := Do(u, events, Conn(Outside(BeginReconnect)));
    events := Do(u, events, Wake(1, true));
    events := Do(u, events, Wake(0, false));
  }

  /** A caller whose context ended is told of flow control that is already over. */
  lemma BlockedNoMore(config: Config, cap: nat) returns (events: seq<Event>)
    ensures var g := Run(Setup(config, true, cap), events);
            0 in g.waiters && g.waiters[0] == Answered(EndedBlocked) && Open(g)
  {
    var u := Setup(config, true, cap);
    events := Do(u, [], Conn(Outside(ReadRaw)));
    events := Do(u, events, Conn(Outside(FlowControl(true))));
    events := Do(u, events, Enter(0));
    events := Do(u, events, Conn(Outside(FlowControl(false))));
    events := Do(u, events, Wake(0, true));
  }

  function Play(u: Setup, g: Gate, events: seq<Event>): Gate
    decreases |events|
  {
    if events == [] then g else Play(u, After(u, g, events[0]), events[1..])
  }

  lemma {:induction false} PlayConcat(u: Setup, g: Gate, a: seq<Event>, b: seq<Event>)
    ensures Play(u, g, a + b) == Play(u, Play(u, g, a), b)
    decreases |a|
  {
    if a == [] {
      assert a + b == b;
    } else {
      assert (a + b)[1..] == a[1..] + b;
      PlayConcat(u, After(u, g, a[0]), a[1..], b);
    }
  }

  lemma {:induction false} RunPlays(u: Setup, events: seq<Event>)
    ensures Run(u, events) == Play(u, Run(u, []), events)
  {
    if events != [] {
      var n := |events| - 1;
      RunPlays(u, events[..n]);
      assert events == events[..n] + [events[n]];
      PlayConcat(u, Run(u, []), events[..n], [events[n]]);
    }
  }

  lemma PlayOne(u: Setup, g: Gate, e: Event, rest: seq<Event>)
    ensures Play(u, g, [e] + rest) == Play(u, After(u, g, e), rest)
  {
  }

  lemma PlayFour(u: Setup, g: Gate, a: Event, b: Event, c: Event, d: Event)
    ensures Play(u, g, [a, b, c, d]) == After(u, After(u, After(u, After(u, g, a), b), c), d)
  {
    PlayOne(u, g, a, [b, c, d]);
    PlayOne(u, After(u, g, a), b, [c, d]);
    PlayOne(u, After(u, After(u, g, a), b), c, [d]);
    assert [a, b, c, d] == [a] + [b, c, d] && [b, c, d] == [b] + [c, d] && [c, d] == [c] + [d];
  }

  const REDIAL := [Conn(Outside(ReadRaw)), Conn(Outside(ForceReconnect)), Conn(Outside(BeginReconnect)),
                   Conn(Outside(Dialed(true)))]

  function Hooked(err: Option<Error>): seq<Event>
  {
    [Conn(Inside(Snapshot)), Conn(Inside(RunHook(err))), Conn(Inside(Collect)), Conn(Inside(Decide))]
  }

  /** The socket drops and is dialled again. */
  lemma Redialled(u: Setup, g: Gate)
    requires g.conn.link.pc == LoopHead && g.conn.link.live && g.conn.link.socket
    ensures Play(u, g, REDIAL) ==
            g.(conn := g.conn.(link := g.conn.link.(pc := Starting, reconnecting := true, blocked := false)))
  {
  }

  /** The barrier's one hook ends with `err`. */
  lemma BarrierRan(u: Setup, g: Gate, err: Option<Error>)
    requires g.conn.link.pc == Starting && g.conn.hooks == [0]
    ensures Play(u, g, Hooked(err)) ==
            g.(conn := g.conn.(link := g.conn.link.(pc := if err.Some? then Finishing else Notifying),
                               health := Judge(u.config, g.conn.health, Barrier([0], [HookRun(0, err)], false))))
  {
    PlayFour(u, g, Conn(Inside(Snapshot)), Conn(Inside(RunHook(err))), Conn(Inside(Collect)), Conn(Inside(Decide)));
    var b := Barrier([0], [HookRun(0, err)], false);
    assert [] + [HookRun(0, err)] == b.ran;
  }

  const FAILED := Barrier([0], [HookRun(0, Some(7))], false)

  /** A caller passes the gate that a failed barrier reopened. */
  lemma PassesAfter(u: Setup, g: Gate)
    requires g.conn.link.pc == Finishing && !g.conn.link.blocked && 0 !in g.waiters
    ensures var r := Play(u, g, [Conn(Inside(Finish)), Enter(0)]);
            && r.conn == g.conn.(link := g.conn.link.(reconnecting := false, pc := LoopHead),
                                 finished := |g.conn.health.decided|, capped := false)
            && 0 in r.waiters && r.waiters[0] == Passed
  {
  }

  lemma FirstHalf(u: Setup) returns (g: Gate)
    requires u.connected
    ensures g == Play(u, Run(u, []), [Conn(Register(0))] + REDIAL + Hooked(Some(7)) + [Conn(Inside(Finish)), Enter(0)])
    ensures g.conn.link == Link(LoopHead, true, false, true, false, false) && g.conn.hooks == [0]
    ensures g.conn.finished == 1 && g.conn.health.decided == [FAILED] && g.conn.health.recorded == 1
    ensures 0 in g.waiters && g.waiters[0] == Passed
  {
    var g0 := Run(u, []);
    var g1 := g0.(conn := g0.conn.(hooks := [0]));
    assert Play(u, g0, [Conn(Register(0))]) == g1 by { assert [] + [0] == [0]; }
    Redialled(u, g1);
    var g2 := Play(u, g1, REDIAL);
    BarrierRan(u, g2, Some(7));
    var g3 := Play(u, g2, Hooked(Some(7)));
    assert g3.conn.health.decided == [FAILED];
    PassesAfter(u, g3);
    g := Play(u, g3, [Conn(Inside(Finish)), Enter(0)]);
    PlayConcat(u, g0, [Conn(Register(0))], REDIAL);
    PlayConcat(u, g0, [Conn(Register(0))] + REDIAL, Hooked(Some(7)));
    PlayConcat(u, g0, [Conn(Register(0))] + REDIAL + Hooked(Some(7)), [Conn(Inside(Finish)), Enter(0)]);
  }

  /** A caller is answered nil while the only barrier that ever finished had failed. */
  lemma ReadyMidRecovery(config: Config, cap: nat) returns (events: seq<Event>)
    ensures var g := Run(Setup(config, true, cap), events);
            && 0 in g.waiters && g.waiters[0] == Answered(Ready)
            && g.conn.finished == 1 && |g.conn.health.decided| == 2
            && HookErr(g.conn.health.decided[0]).Some?
  {
    var u := Setup(config, true, cap);
    var g := FirstHalf(u);
    var half := [Conn(Register(0))] + REDIAL + Hooked(Some(7)) + [Conn(Inside(Finish)), Enter(0)];
    Redialled(u, g);
    BarrierRan(u, Play(u, g, REDIAL), None);
    events := half + REDIAL + Hooked(None) + [ReadErr(0)];
    RunPlays(u, events);
    PlayConcat(u, Run(u, []), half, REDIAL);
    PlayConcat(u, Run(u, []), half + REDIAL, Hooked(None));
    PlayConcat(u, Run(u, []), half + REDIAL + Hooked(None), [ReadErr(0)]);
  }

  /** Two barriers fail in a row: one transition, and the metric is at two. */
  lemma MetricOvercounts(config: Config, cap: nat) returns (events: seq<Event>)
    ensures var h := Run(Setup(config, true, cap), events).conn.health;
            h.recorded == 2 && RisingEdges(h.decided) == [7]
  {
    var u := Setup(config, true, cap);
    var g := FirstHalf(u);
    var half := [Conn(Register(0))] + REDIAL + Hooked(Some(7)) + [Conn(Inside(Finish)), Enter(0)];
    Redialled(u, g);
    BarrierRan(u, Play(u, g, REDIAL), Some(8));
    events := half + REDIAL + Hooked(Some(8));
    RunPlays(u, events);
    PlayConcat(u, Run(u, []), half, REDIAL);
    PlayConcat(u, Run(u, []), half + REDIAL, Hooked(Some(8)));
    TwoFailures([FAILED] + [Barrier([0], [HookRun(0, Some(8))], false)]);
  }

  lemma TwoFailures(decided: seq<Barrier>)
    requires |decided| == 2 && HookErr(decided[0]) == Some(7) && HookErr(decided[1]).Some?
    ensures Failures(decided) == 2 && RisingEdges(decided) == [7]
  {
    assert decided[..1] == [decided[0]] && decided[..1][..0] == [];
    assert Failures(decided[..1]) == 1 && RisingEdges(decided[..1]) == [7];
  }
}
