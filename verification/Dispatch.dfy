/** One delivery from dispatch to its frame: the dispatch select, the handler, and any number of
    goroutines that call Ack or Nack on the delivery (the ConsumeRaw path).  `resolved` is
    flipped by compare-and-swap; the winner then writes its frame.
  */
module Dispatch {

  datatype Frame = Ack | Nack(requeue: bool)

  /** What a handler returned, after counter B. */
  datatype Outcome = Success | Requeue | Failure

  /** `consume`: the Consume path, where dispatch settles and the handler has no delivery to
      call Ack on.  `noAck`: the broker acks on dispatch.  `timed`: there is a handler timeout. */
  datatype Mode = Mode(consume: bool, noAck: bool, timed: bool)

  datatype Place =
    | Selecting
    | HandlerReturned(outcome: Outcome)
    | Settling(outcome: Outcome)        // AckIf: about to look at the consumer's done channel
    | Swapping(frame: Frame)            // about to compare-and-swap
    | Writing(frame: Frame)
    | Draining                          // waiting for the handler
    | Over

  /** `callers` maps each goroutine inside Ack or Nack to the frame it wants and whether it has
      won the swap.  `attempts` are the frames written, whether or not the socket took them.
      `chose` records how the select ended: with the handler's outcome or with the timeout. */
  datatype State = State(
    resolved: bool, attempts: seq<Frame>, place: Place, running: bool, callers: map<nat, (Frame, bool)>,
    channelClosed: bool, consumerClosed: bool, cancelled: bool, chose: Choice)

  datatype Choice = Undecided | Handled(outcome: Outcome) | TimedOut(requeue: bool)

  const INIT := State(false, [], Selecting, true, map[], false, false, false, Undecided)

  datatype Action =
    | HandlerReturns
    | SelectDone(outcome: Outcome)
    | SelectChannelClosed
    | SelectTimeout(requeue: bool)
    | SelectCancelled
    | LookAtChannel
    | LookAtConsumer
    | Swap
    | Write
    | Drained
    | CallerEnters(id: nat, frame: Frame)   // past the done check
    | CallerSwaps(id: nat)
    | CallerWrites(id: nat)
    | ChannelCloses
    | ConsumerCloses
    | ContextEnds

  function FrameOf(o: Outcome): Frame
  {
    match o
    case Success => Ack
    case Requeue => Nack(true)
    case Failure => Nack(false)
  }

  function DispatchStep(m: Mode, s: State, a: Action): State
  {
    match a
    case SelectDone(outcome) =>
      if s.place != Selecting || s.running then s
      else s.(place := HandlerReturned(outcome), chose := Handled(outcome))
    case SelectChannelClosed =>
      if s.place != Selecting || !m.timed || !s.channelClosed then s else s.(place := Draining)
    case SelectTimeout(requeue) =>
      if s.place != Selecting || !m.timed then s
      else if m.noAck then s.(place := Draining)
      else s.(place := Swapping(Nack(requeue)), chose := TimedOut(requeue))
    case SelectCancelled =>
      if s.place != Selecting || !m.timed || !s.cancelled then s else s.(place := Draining)
    case LookAtChannel =>
      if !s.place.HandlerReturned? then s
      else if s.channelClosed && s.place.outcome != Success then s.(place := Over)
      else if m.noAck || !m.consume then s.(place := Over)
      else s.(place := Settling(s.place.outcome))
    case LookAtConsumer =>
      if !s.place.Settling? then s
      else if s.consumerClosed then s.(place := Over)
      else s.(place := Swapping(FrameOf(s.place.outcome)))
    case Swap =>
      if !s.place.Swapping? then s
      else if s.resolved then s.(place := Draining)
      else s.(resolved := true, place := Writing(s.place.frame))
    case Write =>
      if !s.place.Writing? then s else s.(attempts := s.attempts + [s.place.frame], place := Draining)
    case Drained => if s.place != Draining || s.running then s else s.(place := Over)
    case _ => s
  }

  function OtherStep(m: Mode, s: State, a: Action): State
  {
    match a
    case HandlerReturns => s.(running := false)
    case CallerEnters(id, frame) =>
      if m.consume || s.consumerClosed || id in s.callers then s
      else s.(callers := s.callers[id := (frame, false)])
    case CallerSwaps(id) =>
      if id !in s.callers || s.callers[id].1 then s
      else if s.resolved then s.(callers := s.callers - {id})
      else s.(resolved := true, callers := s.callers[id := (s.callers[id].0, true)])
    case CallerWrites(id) =>
      if id !in s.callers || !s.callers[id].1 then s
      else s.(attempts := s.attempts + [s.callers[id].0], callers := s.callers - {id})
    case ChannelCloses => s.(channelClosed := true)
    case ConsumerCloses => s.(consumerClosed := true)
    case ContextEnds => s.(cancelled := true)
    case _ => s
  }

  function Next(m: Mode, s: State, a: Action): State
  {
    if DispatchStep(m, s, a) != s then DispatchStep(m, s, a) else OtherStep(m, s, a)
  }

  function Run(m: Mode, actions: seq<Action>): State
  {
    if actions == [] then INIT else Next(m, Run(m, actions[..|actions| - 1]), actions[|actions| - 1])
  }

  /** The goroutines that have won the swap and not yet written. */
  function Winners(s: State): set<nat>
  {
    set id | id in s.callers && s.callers[id].1
  }

  /** An ack means the handler succeeded, a requeue that it asked for one or the timeout does, a
      nack without requeue that it failed or the timeout does. */
  predicate Right(s: State, f: Frame)
  {
    match f
    case Ack => s.chose == Handled(Success)
    case Nack(true) => s.chose == Handled(Requeue) || s.chose == TimedOut(true)
    case Nack(false) => s.chose == Handled(Failure) || s.chose == TimedOut(false)
  }

  ghost predicate Once(s: State)
  {
    && |s.attempts| <= 1
    && (s.attempts != [] ==> s.resolved && !s.place.Writing? && Winners(s) == {})
    && (s.place.Writing? ==> s.resolved && Winners(s) == {})
    && (forall i, j | i in Winners(s) && j in Winners(s) :: i == j)
    && (Winners(s) != {} ==> s.resolved)
  }

  /** On the Consume path dispatch is the only one that settles, and it has done so once it is
      past its write. */
  ghost predicate Settled(m: Mode, s: State)
  {
    m.consume ==>
      && s.callers == map[]
      && (s.resolved <==> s.attempts != [] || s.place.Writing?)
      && (s.place.Swapping? || s.place.Settling? || s.place.HandlerReturned? || s.place.Selecting? ==> !s.resolved)
      && (s.place.Swapping? || s.place.Writing? ==> Right(s, s.place.frame))
      && (s.place.HandlerReturned? || s.place.Settling? ==> s.chose == Handled(s.place.outcome))
      && (forall f | f in s.attempts :: Right(s, f))
      && (m.noAck ==> s.attempts == [] && !s.place.Swapping? && !s.place.Settling? && !s.place.Writing?)
      && (!m.noAck && (s.place == Draining || s.place == Over) ==>
            s.attempts != [] || s.channelClosed || s.cancelled || s.consumerClosed)
  }

  lemma DispatchOnce(m: Mode, s: State, a: Action)
    requires Once(s)
    ensures Once(DispatchStep(m, s, a))
  {
    assert Winners(DispatchStep(m, s, a)) == Winners(s);
  }

  lemma DispatchSettles(m: Mode, s: State, a: Action)
    requires Once(s) && Settled(m, s)
    ensures Settled(m, DispatchStep(m, s, a))
  {
  }

  lemma OtherOnce(m: Mode, s: State, a: Action)
    requires Once(s)
    ensures Once(OtherStep(m, s, a))
  {
    var r := OtherStep(m, s, a);
    match a {
      case CallerEnters(id, frame) => assert r != s ==> Winners(r) == Winners(s) - {id};
      case CallerSwaps(id) => assert r != s ==> Winners(r) == if s.resolved then Winners(s) - {id} else Winners(s) + {id};
      case CallerWrites(id) =>
        if id in s.callers && s.callers[id].1 {
          assert id in Winners(s) && Winners(r) == Winners(s) - {id};
        }
      case _ => assert Winners(r) == Winners(s);
    }
  }

  lemma OtherSettles(m: Mode, s: State, a: Action)
    requires Settled(m, s)
    ensures Settled(m, OtherStep(m, s, a))
  {
  }

  lemma {:induction false} Always(m: Mode, actions: seq<Action>)
    ensures Once(Run(m, actions)) && Settled(m, Run(m, actions))
  {
    if actions != [] {
      var s, a := Run(m, actions[..|actions| - 1]), actions[|actions| - 1];
      Always(m, actions[..|actions| - 1]);
      DispatchOnce(m, s, a);
      DispatchSettles(m, s, a);
      OtherOnce(m, s, a);
      OtherSettles(m, s, a);
    }
  }

  /** In every interleaving at most one frame is written for a delivery. */
  lemma AtMostOneFrame(m: Mode, actions: seq<Action>)
    ensures |Run(m, actions).attempts| <= 1
  {
    Always(m, actions);
  }

  /** On the Consume path with manual acks a dispatch that is over has written exactly one frame,
      unless the channel closed, the consumer closed or the outer context ended, and the frame is
      the right one; with broker acks it has written none. */
  lemma ConsumeSettlesOnce(m: Mode, actions: seq<Action>)
    requires m.consume && Run(m, actions).place == Over
    ensures var s := Run(m, actions);
            && (m.noAck ==> s.attempts == [])
            && (forall f | f in s.attempts :: Right(s, f))
            && (!m.noAck && !s.channelClosed && !s.consumerClosed && !s.cancelled ==> |s.attempts| == 1)
  {
    Always(m, actions);
  }
}
