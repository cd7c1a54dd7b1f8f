/** The verdict on one batch: any number of goroutines that call Batch.Ack and Batch.Nack, before
    or after the handler returns, beside the consume loop, which gives the automatic verdict when
    the handler returns and the timeout verdict when it does not.  `acked` is tested and set under
    the batch's lock; the frame goes out after the lock is released.
  */
module BatchVerdict {
  import opened Optional

  /** A multiple=true frame. */
  datatype Frame = Frame(tag: nat, ack: bool, requeue: bool)

  datatype Loop =
    | Selecting
    | GivingVerdict                 // the handler returned: applyBatchVerdict
    | TimedOut                      // about to read `acked` the first time
    | Unacked                       // read it as false, counter B not yet applied
    | LoopEmitting(frame: Frame)
    | Draining                      // waiting for the handler to return
    | Finished

  /** `calls`: the frames of the callers that have set `acked` and not yet emitted.  `cancelled`:
      the loop left because the outer context was cancelled.  `single`: some delivery of the batch
      was settled on its own. */
  datatype State = State(tags: seq<nat>, acked: bool, returned: bool, calls: seq<Frame>, loop: Loop, frames: seq<Frame>,
                         cancelled: bool, single: bool)

  datatype Action =
    | Call(ack: bool, requeue: bool)            // Batch.Ack or Batch.Nack: test and set
    | CallEmits(i: nat)                         // the caller that is i-th in `calls`
    | SettleSingle                              // Delivery.Ack or Nack: the notify callback sets acked
    | Return
    | HandlerDone
    | Timeout
    | FirstCheck
    | SecondCheck(requeue: bool)                // after counter B has had its say
    | Auto(ack: bool, requeue: bool)
    | LoopEmits
    | OuterCancel
    | Drained

  /** The largest tag, as Batch.highest finds it. */
  method Highest(tags: seq<nat>) returns (h: Option<nat>)
    ensures h == if tags == [] then None else Some(Max(tags))
  {
    if tags == [] {
      return None;
    }
    var top := tags[0];
    for i := 1 to |tags|
      invariant top in tags && forall j :: 0 <= j < i ==> tags[j] <= top
    {
      if tags[i] > top {
        top := tags[i];
      }
    }
    MaxUnique(tags, top);
    h := Some(top);
  }

  function Max(tags: seq<nat>): (m: nat)
    requires tags != []
    ensures m in tags && forall i :: 0 <= i < |tags| ==> tags[i] <= m
  {
    if |tags| == 1 then tags[0]
    else
      var rest := Max(tags[1..]);
      assert forall i :: 1 <= i < |tags| ==> tags[i] == tags[1..][i - 1];
      if rest < tags[0] then tags[0] else rest
  }

  lemma MaxUnique(tags: seq<nat>, m: nat)
    requires tags != [] && m in tags && forall i :: 0 <= i < |tags| ==> tags[i] <= m
    ensures m == Max(tags)
  {
  }

  function Init(tags: seq<nat>): State
  {
    State(tags, false, false, [], Selecting, [], false, false)
  }

  function Multiple(s: State, ack: bool, requeue: bool): Frame
    requires s.tags != []
  {
    Frame(Max(s.tags), ack, !ack && requeue)
  }

  function CallerStep(s: State, a: Action): (r: State)
    requires s.tags != []
    ensures r.tags == s.tags
  {
    match a
    case Call(ack, requeue) =>
      if s.acked then s else s.(acked := true, calls := s.calls + [Multiple(s, ack, requeue)])
    case CallEmits(i) =>
      if i >= |s.calls| then s
      else s.(frames := s.frames + [s.calls[i]], calls := s.calls[..i] + s.calls[i + 1..])
    case SettleSingle => s.(acked := true, single := true)
    case Return => s.(returned := true)
    case _ => s
  }

  function LoopStep(s: State, a: Action): (r: State)
    requires s.tags != []
    ensures r.tags == s.tags
  {
    match a
    case HandlerDone =>
      if s.loop != Selecting || !s.returned then s else s.(loop := GivingVerdict)
    case Auto(ack, requeue) =>
      if s.loop != GivingVerdict then s
      else if s.acked then s.(loop := Finished)
      else s.(acked := true, loop := LoopEmitting(Multiple(s, ack, requeue)))
    case Timeout => if s.loop != Selecting then s else s.(loop := TimedOut)
    case FirstCheck =>
      if s.loop != TimedOut then s else if s.acked then s.(loop := Draining) else s.(loop := Unacked)
    case SecondCheck(requeue) =>
      if s.loop != Unacked then s
      else if s.acked then s.(loop := Draining)
      else s.(acked := true, loop := LoopEmitting(Multiple(s, false, requeue)))
    case LoopEmits =>
      if !s.loop.LoopEmitting? then s else s.(frames := s.frames + [s.loop.frame], loop := Draining)
    case OuterCancel => if s.loop != Selecting then s else s.(loop := Draining, cancelled := true)
    case Drained => if s.loop != Draining || !s.returned then s else s.(loop := Finished)
    case _ => s
  }

  function Next(s: State, a: Action): (r: State)
    requires s.tags != []
    ensures r.tags == s.tags
  {
    if a.Call? || a.CallEmits? || a.SettleSingle? || a.Return? then CallerStep(s, a) else LoopStep(s, a)
  }

  function Run(tags: seq<nat>, actions: seq<Action>): (s: State)
    requires tags != []
    ensures s.tags == tags
  {
    if actions == [] then Init(tags) else Next(Run(tags, actions[..|actions| - 1]), actions[|actions| - 1])
  }

  function Emitters(s: State): nat
  {
    |s.calls| + (if s.loop.LoopEmitting? then 1 else 0)
  }

  predicate OnHighest(s: State, f: Frame)
    requires s.tags != []
  {
    f.tag == Max(s.tags)
  }

  /** Whoever sets `acked` emits, and nobody else. */
  predicate Inv(s: State)
    requires s.tags != []
  {
    && |s.frames| + Emitters(s) <= (if s.acked then 1 else 0)
    && (s.acked && !s.single ==> |s.frames| + Emitters(s) == 1)
    && (s.loop.LoopEmitting? ==> OnHighest(s, s.loop.frame))
    && (forall i :: 0 <= i < |s.calls| ==> OnHighest(s, s.calls[i]))
    && (forall i :: 0 <= i < |s.frames| ==> OnHighest(s, s.frames[i]))
    && (s.loop == Draining || s.loop == Finished || s.loop.LoopEmitting? ==> s.acked || s.cancelled)
  }

  lemma CallerKeeps(s: State, a: Action)
    requires s.tags != [] && Inv(s)
    ensures Inv(CallerStep(s, a))
  {
  }

  lemma LoopKeeps(s: State, a: Action)
    requires s.tags != [] && Inv(s)
    ensures Inv(LoopStep(s, a))
  {
  }

  lemma {:induction false} Always(tags: seq<nat>, actions: seq<Action>)
    requires tags != []
    ensures Inv(Run(tags, actions))
  {
    if actions != [] {
      Always(tags, actions[..|actions| - 1]);
      CallerKeeps(Run(tags, actions[..|actions| - 1]), actions[|actions| - 1]);
      LoopKeeps(Run(tags, actions[..|actions| - 1]), actions[|actions| - 1]);
    }
  }

  /** In every interleaving a batch gets at most one batch-level frame, and the frame's tag
      bounds every tag of the batch and is one of them. */
  lemma AtMostOneFrame(tags: seq<nat>, actions: seq<Action>)
    requires tags != []
    ensures var s := Run(tags, actions);
            && |s.frames| <= 1
            && (forall f | f in s.frames :: f.tag in tags && forall t | t in tags :: t <= f.tag)
  {
    Always(tags, actions);
  }

  /** A flush that has ended has emitted exactly one frame, or a caller the handler left behind is
      about to, unless the outer context was cancelled or a delivery was settled on its own. */
  lemma FlushEmitsOneFrame(tags: seq<nat>, actions: seq<Action>)
    requires tags != [] && Run(tags, actions).loop == Finished
    ensures var s := Run(tags, actions); !s.cancelled && !s.single ==> |s.frames| + |s.calls| == 1
  {
    Always(tags, actions);
  }
}
