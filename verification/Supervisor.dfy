/** One managed connection: the supervisor goroutine, the reconnect barrier it runs after every
    dial, and the fields it shares with the callers that wait at that barrier.
  */
module Supervisor {
  import opened Optional

  type Error = nat

  /** Which of the optional callbacks are set. */
  datatype Config = Config(onReconnect: bool, onDegraded: bool)

  datatype HookRun = HookRun(hook: nat, err: Option<Error>)

  /** One barrier: the hooks it snapshotted, what running them gave, and whether the user's
      reconnect callback ran. */
  datatype Barrier = Barrier(hooks: seq<nat>, ran: seq<HookRun>, notified: bool)

  datatype ExitCause = NoSocket | Cancelled | ClosedQuietly | DialExhausted

  datatype Pc =
    | LoopHead
    | NilRaw
    | Watching(blockedSeen: bool)
    | AtReconnect
    | Dialing
    | Starting
    | RunningHooks(barrier: Barrier)
    | Deciding(barrier: Barrier)
    | Notifying
    | Finishing
    | Exited(cause: ExitCause)

  /** The degraded flag and error, with a history: the barriers that set or cleared them, the
      errors handed to the degraded callback, and how often the degraded metric was recorded. */
  datatype Health = Health(degraded: bool, err: Option<Error>, decided: seq<Barrier>, launched: seq<Error>, recorded: nat)

  /** The supervisor's program counter, whether its context is live, whether the first dial
      failed, whether the socket pointer is set, and the two flags of the gate. */
  datatype Link = Link(pc: Pc, live: bool, bootDegraded: bool, socket: bool, reconnecting: bool, blocked: bool)

  /** `finished` counts the decided barriers that also reopened the gate; `capped` says that a
      barrier was cut off by its cap since a barrier last reopened it. */
  datatype State = State(link: Link, hooks: seq<nat>, health: Health, finished: nat, capped: bool)

  /** A socket whose first dial failed starts with the gate closed. */
  function Boot(connected: bool): State
  {
    State(Link(LoopHead, true, !connected, connected, !connected, false), [], Health(false, None, [], [], 0), 0, false)
  }

  /** The supervisor outside a barrier: watching the socket and dialling. */
  datatype Move =
    | ReadRaw
    | CheckRedial
    | SeeCancel
    | FlowControl(active: bool)
    | FlowControlClosed
    | SocketClosed(ok: bool)
    | ForceReconnect
    | BeginReconnect
    | Dialed(connected: bool)

  /** The supervisor and its hook goroutine inside a barrier. */
  datatype Step =
    | Snapshot
    | RunHook(err: Option<Error>)
    | Collect
    | CancelBarrier
    | CapBarrier
    | Decide
    | Notify
    | Finish

  datatype Action = Register(hook: nat) | Shutdown | Outside(move: Move) | Inside(step: Step)

  /** The error a barrier's hooks ended with, if any. */
  function HookErr(b: Barrier): Option<Error>
  {
    if b.ran == [] then None else b.ran[|b.ran| - 1].err
  }

  /** The hook goroutine has nothing left to run. */
  predicate HooksDone(b: Barrier)
  {
    HookErr(b).Some? || |b.ran| == |b.hooks|
  }

  /** The last stretch of a barrier: the verdict, under the connection's lock. */
  function Judge(c: Config, h: Health, b: Barrier): Health
  {
    var err := HookErr(b);
    Health(err.Some?, err, h.decided + [b],
           if err.Some? && !h.degraded && c.onDegraded then h.launched + [err.value] else h.launched,
           if err.Some? then h.recorded + 1 else h.recorded)
  }

  /** The user's reconnect callback returns. */
  function Noted(c: Config, h: Health): Health
  {
    if h.decided == [] then h
    else
      var i := |h.decided| - 1;
      h.(decided := h.decided[i := h.decided[i].(notified := c.onReconnect)])
  }

  function Moved(l: Link, m: Move): Link
  {
    match m
    case ReadRaw => if l.pc != LoopHead then l else l.(pc := if l.socket then Watching(false) else NilRaw)
    case CheckRedial =>
      if l.pc != NilRaw then l
      else l.(pc := if (l.bootDegraded || l.reconnecting) && l.live then AtReconnect else Exited(NoSocket))
    case SeeCancel => if !l.pc.Watching? || l.live then l else l.(pc := Exited(Cancelled))
    case FlowControl(active) =>
      if !l.pc.Watching? then l
      else if active then l.(blocked := true, pc := Watching(true))
      else if l.pc.blockedSeen then l.(blocked := false, pc := Watching(false))
      else l
    case FlowControlClosed => if !l.pc.Watching? then l else l.(pc := AtReconnect)
    case SocketClosed(ok) =>
      if !l.pc.Watching? then l else l.(pc := if !ok || !l.live then Exited(ClosedQuietly) else AtReconnect)
    case ForceReconnect => if !l.pc.Watching? then l else l.(pc := AtReconnect)
    case BeginReconnect =>
      if l.pc != AtReconnect then l
      else if !l.live then l.(pc := Exited(Cancelled))
      else l.(blocked := false, reconnecting := true, pc := Dialing)
    case Dialed(connected) =>
      if l.pc != Dialing then l
      else if connected then l.(socket := true, pc := Starting)
      else l.(reconnecting := false, pc := Exited(DialExhausted))
  }

  function Stepped(c: Config, s: State, p: Step): State
  {
    var l := s.link;
    match p
    case Snapshot => if l.pc != Starting then s else s.(link := l.(pc := RunningHooks(Barrier(s.hooks, [], false))))
    case RunHook(err) =>
      if !l.pc.RunningHooks? || HooksDone(l.pc.barrier) || |l.pc.barrier.ran| >= |l.pc.barrier.hooks| then s
      else
        var b := l.pc.barrier;
        s.(link := l.(pc := RunningHooks(b.(ran := b.ran + [HookRun(b.hooks[|b.ran|], err)]))))
    case Collect =>
      if !l.pc.RunningHooks? || !HooksDone(l.pc.barrier) then s else s.(link := l.(pc := Deciding(l.pc.barrier)))
    case CancelBarrier =>
      if !l.pc.RunningHooks? || l.live then s else s.(link := l.(reconnecting := false, pc := LoopHead))
    case CapBarrier =>
      if !l.pc.RunningHooks? then s else s.(link := l.(socket := false, pc := LoopHead), capped := true)
    case Decide =>
      if !l.pc.Deciding? then s
      else s.(health := Judge(c, s.health, l.pc.barrier),
              link := l.(pc := if HookErr(l.pc.barrier).Some? then Finishing else Notifying))
    case Notify => if l.pc != Notifying then s else s.(health := Noted(c, s.health), link := l.(pc := Finishing))
    case Finish =>
      if l.pc != Finishing then s
      else s.(link := l.(reconnecting := false, pc := LoopHead), finished := |s.health.decided|, capped := false)
  }

  function Next(c: Config, s: State, a: Action): State
  {
    match a
    case Register(hook) => s.(hooks := s.hooks + [hook])
    case Shutdown => s.(link := s.link.(live := false))
    case Outside(m) => s.(link := Moved(s.link, m))
    case Inside(p) => Stepped(c, s, p)
  }

  // ------------------------------------------------------------------------------------------
  // Barriers
  // ------------------------------------------------------------------------------------------

  /** The hooks ran in registration order and stopped at the first error. */
  ghost predicate InOrder(b: Barrier)
  {
    && |b.ran| <= |b.hooks|
    && (forall i :: 0 <= i < |b.ran| ==> b.ran[i].hook == b.hooks[i])
    && (forall i :: 0 <= i < |b.ran| - 1 ==> b.ran[i].err == None)
  }

  /** Every snapshotted hook ran, in order, and returned nil. */
  ghost predicate AllPassed(b: Barrier)
  {
    && |b.ran| == |b.hooks|
    && (forall i :: 0 <= i < |b.ran| ==> b.ran[i].hook == b.hooks[i] && b.ran[i].err == None)
  }

  ghost predicate Restored(c: Config, b: Barrier)
  {
    AllPassed(b) && b.notified == c.onReconnect
  }

  ghost predicate Ran(b: Barrier)
  {
    InOrder(b) && HooksDone(b)
  }

  lemma PassedOrFailed(b: Barrier)
    requires Ran(b)
    ensures AllPassed(b) <==> HookErr(b) == None
  {
  }

  /** A decided barrier ran its hooks, and unless `open` is done with its callback. */
  ghost predicate BarrierOk(c: Config, hooks: seq<nat>, b: Barrier, open: bool)
  {
    Ran(b) && b.hooks <= hooks && (HookErr(b) == None && !open ==> b.notified == c.onReconnect)
  }

  /** Only the last barrier may still be about to run its callback. */
  ghost predicate BarriersOk(c: Config, hooks: seq<nat>, decided: seq<Barrier>, notifying: bool)
  {
    forall i :: 0 <= i < |decided| ==> BarrierOk(c, hooks, decided[i], notifying && i == |decided| - 1)
  }

  // ------------------------------------------------------------------------------------------
  // Degraded state
  // ------------------------------------------------------------------------------------------

  function LastErr(decided: seq<Barrier>): Option<Error>
  {
    if decided == [] then None else HookErr(decided[|decided| - 1])
  }

  /** The errors of the barriers that failed when the one before had not. */
  function RisingEdges(decided: seq<Barrier>): seq<Error>
  {
    if decided == [] then []
    else
      var before := decided[..|decided| - 1];
      var err := LastErr(decided);
      RisingEdges(before) + if err.Some? && LastErr(before) == None then [err.value] else []
  }

  function Failures(decided: seq<Barrier>): nat
  {
    if decided == [] then 0
    else Failures(decided[..|decided| - 1]) + if LastErr(decided).Some? then 1 else 0
  }

  ghost predicate DegradedOk(c: Config, h: Health)
  {
    && h.degraded == h.err.Some?
    && h.err == LastErr(h.decided)
    && h.launched == (if c.onDegraded then RisingEdges(h.decided) else [])
    && h.recorded == Failures(h.decided)
  }

  // ------------------------------------------------------------------------------------------
  // Control
  // ------------------------------------------------------------------------------------------

  predicate InBarrier(pc: Pc)
  {
    pc.RunningHooks? || pc.Deciding? || pc.Notifying? || pc.Finishing?
  }

  ghost predicate Gate(l: Link)
  {
    && (InBarrier(l.pc) || l.pc == Dialing || l.pc == Starting ==> l.reconnecting)
    && (InBarrier(l.pc) || l.pc == Starting || l.pc.Watching? ==> l.socket)
    && (l.pc == LoopHead ==> l.socket || l.bootDegraded || l.reconnecting)
    && (l.pc == NilRaw ==> l.bootDegraded || l.reconnecting)
    && (l.pc == Exited(NoSocket) || l.pc == Exited(Cancelled) ==> !l.live)
  }

  /** A barrier that hit its cap leads back to the dialler and to nowhere else. */
  ghost predicate Redials(s: State)
  {
    s.capped && s.link.live ==>
      || (s.link.reconnecting && (InBarrier(s.link.pc) || s.link.pc in {NilRaw, AtReconnect, Dialing, Starting}))
      || (s.link.reconnecting && s.link.pc == LoopHead && !s.link.socket)
      || s.link.pc == Exited(DialExhausted)
  }

  ghost predicate Counted(s: State)
  {
    && s.finished == (if s.link.pc == Notifying || s.link.pc == Finishing then |s.health.decided| - 1 else |s.health.decided|)
    && (s.link.pc == Notifying ==> LastErr(s.health.decided) == None)
  }

  /** The barrier in progress runs a snapshot of the registered hooks. */
  ghost predicate Progress(s: State)
  {
    && (s.link.pc.RunningHooks? || s.link.pc.Deciding? ==> InOrder(s.link.pc.barrier) && s.link.pc.barrier.hooks <= s.hooks)
    && (s.link.pc.Deciding? ==> HooksDone(s.link.pc.barrier))
  }

  ghost predicate Inv(c: Config, s: State)
  {
    && Gate(s.link) && Redials(s) && Counted(s) && Progress(s)
    && DegradedOk(c, s.health)
    && BarriersOk(c, s.hooks, s.health.decided, s.link.pc == Notifying)
  }

  lemma MoveKeepsGate(l: Link, m: Move)
    requires Gate(l)
    ensures Gate(Moved(l, m))
    ensures InBarrier(l.pc) || InBarrier(Moved(l, m).pc) ==> Moved(l, m) == l
  {
  }

  lemma MoveRedials(s: State, m: Move)
    requires Redials(s)
    ensures Redials(s.(link := Moved(s.link, m)))
  {
  }

  lemma StepKeepsGate(c: Config, s: State, p: Step)
    requires Gate(s.link) && Redials(s)
    ensures Gate(Stepped(c, s, p).link) && Redials(Stepped(c, s, p))
  {
  }

  lemma CountedKept(c: Config, s: State, p: Step)
    requires Counted(s)
    ensures Counted(Stepped(c, s, p))
  {
  }

  lemma ProgressKept(c: Config, s: State, p: Step)
    requires Progress(s)
    ensures Progress(Stepped(c, s, p))
  {
  }

  lemma JudgeKeeps(c: Config, h: Health, b: Barrier)
    requires DegradedOk(c, h)
    ensures DegradedOk(c, Judge(c, h, b))
  {
  }

  lemma NotedKeeps(c: Config, h: Health)
    requires DegradedOk(c, h)
    ensures DegradedOk(c, Noted(c, h))
  {
  }

  lemma HooksGrow(c: Config, hooks: seq<nat>, hook: nat, decided: seq<Barrier>, notifying: bool)
    requires BarriersOk(c, hooks, decided, notifying)
    ensures BarriersOk(c, hooks + [hook], decided, notifying)
  {
  }

  lemma BarriersGrow(c: Config, hooks: seq<nat>, decided: seq<Barrier>, b: Barrier)
    requires BarriersOk(c, hooks, decided, false) && BarrierOk(c, hooks, b, true)
    ensures BarriersOk(c, hooks, decided + [b], HookErr(b) == None)
  {
  }

  lemma BarrierNoted(c: Config, hooks: seq<nat>, h: Health)
    requires BarriersOk(c, hooks, h.decided, true)
    ensures BarriersOk(c, hooks, Noted(c, h).decided, false)
  {
  }

  lemma BarriersKept(c: Config, s: State, p: Step)
    requires Progress(s) && BarriersOk(c, s.hooks, s.health.decided, s.link.pc == Notifying)
    ensures var r := Stepped(c, s, p);
            BarriersOk(c, r.hooks, r.health.decided, r.link.pc == Notifying)
  {
    match p
    case Decide =>
      if s.link.pc.Deciding? {
        BarriersGrow(c, s.hooks, s.health.decided, s.link.pc.barrier);
      }
    case Notify =>
      if s.link.pc == Notifying {
        BarrierNoted(c, s.hooks, s.health);
      }
    case _ => assert Stepped(c, s, p).health == s.health;
  }

  lemma StepKeeps(c: Config, s: State, p: Step)
    requires Inv(c, s)
    ensures Inv(c, Stepped(c, s, p))
  {
    StepKeepsGate(c, s, p);
    CountedKept(c, s, p);
    ProgressKept(c, s, p);
    BarriersKept(c, s, p);
    NotedKeeps(c, s.health);
    if s.link.pc.Deciding? {
      JudgeKeeps(c, s.health, s.link.pc.barrier);
    }
  }

  lemma InvKept(c: Config, s: State, a: Action)
    requires Inv(c, s)
    ensures Inv(c, Next(c, s, a))
  {
    match a
    case Register(hook) => HooksGrow(c, s.hooks, hook, s.health.decided, s.link.pc == Notifying);
    case Shutdown =>
    case Outside(m) => MoveKeepsGate(s.link, m); MoveRedials(s, m);
    case Inside(p) => StepKeeps(c, s, p);
  }

  /** The gate was reopened by a barrier that ran its hooks to the end or to an error, because
      dialling was exhausted, or by shutdown. */
  ghost predicate Reopens(s: State, r: State)
  {
    || (r.finished == s.finished + 1 == |r.health.decided| && Ran(r.health.decided[s.finished]))
    || r.link.pc == Exited(DialExhausted)
    || !r.link.live
  }

  lemma MoveReopens(l: Link, m: Move)
    requires l.reconnecting && !Moved(l, m).reconnecting
    ensures Moved(l, m).pc == Exited(DialExhausted)
  {
  }

  lemma StepReopens(c: Config, s: State, p: Step)
    requires s.link.reconnecting && !Stepped(c, s, p).link.reconnecting
    ensures (p == Finish && s.link.pc == Finishing) || !Stepped(c, s, p).link.live
  {
  }

  lemma ReopenedBy(c: Config, s: State, a: Action)
    requires Counted(s) && BarriersOk(c, s.hooks, s.health.decided, s.link.pc == Notifying)
    requires s.link.reconnecting && !Next(c, s, a).link.reconnecting
    ensures Reopens(s, Next(c, s, a))
  {
    match a
    case Outside(m) => MoveReopens(s.link, m);
    case Inside(p) =>
      StepReopens(c, s, p);
      if p == Finish && s.link.pc == Finishing {
        assert BarrierOk(c, s.hooks, s.health.decided[s.finished], false);
      }
    case _ =>
  }
}
