/** The path of a basic.return and of the confirm that follows it, from the broker to the
    waiter: the wire, the driver's one reader, the two notify channels and the one demux
    goroutine, running beside the publisher that owns the channel.

    `returnCap` is the capacity of the return notify channel; the code makes it 0.  With
    capacity 0 the reader hands a return over only when the demux goroutine is at its select.
    The channels are first-in first-out, so each is a cursor into the frames the broker sent.
    The tracker is the plain map of ConfirmSpec, which ConfirmTracker refines.
  */
module ConfirmDemux {
  import opened ConfirmSpec
  import opened Optional

  /** `about` is the tag the broker returned; the client does not see it. */
  datatype Frame =
    | Return(msgId: string, code: nat, about: nat)
    | Confirm(tag: nat, ack: bool)

  /** Where the demux goroutine is; `at` is the place of the return it works on. */
  datatype Demux =
    | AtSelect
    | Correlating(at: nat)
    | CallingBack(at: nat, tag: nat)
    | Marking(at: nat, tag: nat)
    | Exited

  datatype Publish = Publish(msgId: string, mandatory: bool, waiter: nat, mapped: bool)

  /** The reader has dispatched sent[..read]; of these the demux goroutine has taken the
      returns in sent[..takenReturns] (when returns are buffered) and the confirms in
      sent[..takenConfirms].  The last three fields only record history: where in `sent` a
      tag's identified return and its confirm are, and the OnReturn calls made. */
  datatype State = State(
    tracker: Spec, returnTags: map<string, nat>, pubs: map<nat, Publish>, nextTag: nat,
    sent: seq<Frame>, read: nat, takenReturns: nat, takenConfirms: nat, down: bool, demux: Demux,
    returnAt: map<nat, nat>, confirmAt: map<nat, nat>, callbacks: set<(nat, nat)>)

  const INIT := State(EMPTY, map[], map[], 1, [], 0, 0, 0, false, AtSelect, map[], map[], {})

  datatype Action =
    | Send(msgId: string, mandatory: bool)  // store the return tag, register, write
    | EndWait(tag: nat)                     // Wait deletes its entry
    | Unmap(tag: nat)                       // the publisher deletes its return tag
    | BrokerReturns(tag: nat, code: nat, echoesId: bool)
    | BrokerConfirms(tag: nat, ack: bool)
    | Read                                  // the reader dispatches the next frame
    | TakeReturn                            // from the buffer, when there is one
    | Correlate
    | CallBack
    | Mark
    | TakeConfirm
    | Shutdown
    | Exit

  function Count(frames: seq<Frame>, ofReturns: bool): nat
  {
    if frames == [] then 0
    else (if frames[0].Return? == ofReturns then 1 else 0) + Count(frames[1..], ofReturns)
  }

  predicate Ordered(s: State)
  {
    && s.takenConfirms <= s.read <= |s.sent|
    && s.takenReturns <= s.read
    && (s.demux.Correlating? || s.demux.CallingBack? || s.demux.Marking? ==>
          s.demux.at < s.read && s.sent[s.demux.at].Return?)
  }

  predicate Handled(s: State, t: nat)
  {
    t in s.confirmAt && s.confirmAt[t] < s.takenConfirms
  }

  /** No earlier publish of this message id can still meet a frame or the return map. */
  predicate IdFree(s: State, msgId: string)
  {
    forall t | t in s.pubs && s.pubs[t].msgId == msgId :: Handled(s, t) && !s.pubs[t].mapped
  }

  function Publishing(s: State, a: Action): (r: State)
    requires WellFormed(s.tracker) && Ordered(s)
    ensures WellFormed(r.tracker) && Ordered(r)
  {
    match a
    case Send(m, mandatory) =>
      if m == "" || !IdFree(s, m) || s.tracker.closed then s
      else s.(tracker := Step(s.tracker, Register(s.nextTag)),
              returnTags := if mandatory then s.returnTags[m := s.nextTag] else s.returnTags,
              pubs := s.pubs[s.nextTag := Publish(m, mandatory, |s.tracker.slots|, mandatory)],
              nextTag := s.nextTag + 1)
    case EndWait(t) => s.(tracker := Step(s.tracker, Forget(t)))
    case Unmap(t) =>
      if t !in s.pubs || t in s.tracker.pending || !s.pubs[t].mapped then s
      else s.(returnTags := s.returnTags - {s.pubs[t].msgId}, pubs := s.pubs[t := s.pubs[t].(mapped := false)])
    case _ => s
  }

  /** The broker returns only mandatory publishes, and a return comes before the confirm. */
  function Broker(s: State, a: Action): (r: State)
    requires Ordered(s)
    ensures Ordered(r)
  {
    match a
    case BrokerReturns(t, code, echoesId) =>
      if t !in s.pubs || !s.pubs[t].mandatory || t in s.confirmAt || t in s.returnAt then s
      else if echoesId
      then s.(sent := s.sent + [Return(s.pubs[t].msgId, code, t)], returnAt := s.returnAt[t := |s.sent|])
      else s.(sent := s.sent + [Return("", code, t)])
    case BrokerConfirms(t, ack) =>
      if t !in s.pubs || t in s.confirmAt then s
      else s.(sent := s.sent + [Confirm(t, ack)], confirmAt := s.confirmAt[t := |s.sent|])
    case _ => s
  }

  function Reader(returnCap: nat, confirmCap: nat, s: State, a: Action): (r: State)
    requires Ordered(s)
    ensures Ordered(r)
  {
    match a
    case Read =>
      if s.down || s.read >= |s.sent| then s
      else if s.sent[s.read].Confirm? then
        if Count(s.sent[s.takenConfirms..s.read], false) < confirmCap then s.(read := s.read + 1) else s
      else if returnCap > 0 then
        if Count(s.sent[s.takenReturns..s.read], true) < returnCap then s.(read := s.read + 1) else s
      else
        if s.demux.AtSelect? then s.(read := s.read + 1, demux := Correlating(s.read)) else s
    case Shutdown => s.(down := true)
    case _ => s
  }

  function Correlation(returnCap: nat, s: State, a: Action): (r: State)
    requires Ordered(s)
    ensures Ordered(r)
  {
    match a
    case TakeReturn =>
      if !s.demux.AtSelect? || returnCap == 0 || s.takenReturns >= s.read then s
      else if s.sent[s.takenReturns].Return?
      then s.(takenReturns := s.takenReturns + 1, demux := Correlating(s.takenReturns))
      else s.(takenReturns := s.takenReturns + 1)
    case Correlate =>
      if !s.demux.Correlating? then s
      else
        var m := s.sent[s.demux.at].msgId;
        if m == "" || m !in s.returnTags then s.(demux := AtSelect)
        else s.(demux := CallingBack(s.demux.at, s.returnTags[m]), returnTags := s.returnTags - {m})
    case CallBack =>
      if !s.demux.CallingBack? then s
      else s.(demux := Marking(s.demux.at, s.demux.tag),
              callbacks := s.callbacks + {(s.demux.tag, s.sent[s.demux.at].code)})
    case _ => s
  }

  /** Taking a frame of the other kind only moves the cursor past it. */
  function Recording(s: State, a: Action): (r: State)
    requires WellFormed(s.tracker) && Ordered(s)
    ensures WellFormed(r.tracker) && Ordered(r)
  {
    match a
    case Mark =>
      if !s.demux.Marking? then s
      else s.(demux := AtSelect,
              tracker := Step(s.tracker, MarkReturned(s.demux.tag, s.sent[s.demux.at].code)))
    case TakeConfirm =>
      if !s.demux.AtSelect? || s.takenConfirms >= s.read then s
      else
        var f := s.sent[s.takenConfirms];
        s.(takenConfirms := s.takenConfirms + 1,
           tracker := if f.Confirm? then Step(s.tracker, Settle(f.tag, false, f.ack)) else s.tracker)
    case Exit =>
      if !s.demux.AtSelect? || !s.down || s.takenConfirms < s.read then s
      else s.(demux := Exited, tracker := Step(s.tracker, CloseAll))
    case _ => s
  }

  /** One step of the machine; an action that cannot happen changes nothing. */
  function Next(returnCap: nat, confirmCap: nat, s: State, a: Action): (r: State)
    requires WellFormed(s.tracker) && Ordered(s)
    ensures WellFormed(r.tracker) && Ordered(r)
  {
    match a
    case Send(_, _) | EndWait(_) | Unmap(_) => Publishing(s, a)
    case BrokerReturns(_, _, _) | BrokerConfirms(_, _) => Broker(s, a)
    case Read | Shutdown => Reader(returnCap, confirmCap, s, a)
    case TakeReturn | Correlate | CallBack => Correlation(returnCap, s, a)
    case Mark | TakeConfirm | Exit => Recording(s, a)
  }

  function Run(returnCap: nat, confirmCap: nat, actions: seq<Action>): (r: State)
    ensures WellFormed(r.tracker) && Ordered(r)
  {
    if actions == [] then INIT
    else Next(returnCap, confirmCap, Run(returnCap, confirmCap, actions[..|actions| - 1]), actions[|actions| - 1])
  }

  /** Where a tag's frames are recorded to be, such frames are. */
  predicate Recorded(s: State, t: nat)
  {
    && (t in s.returnAt ==> s.returnAt[t] < |s.sent| && s.sent[s.returnAt[t]].Return?)
    && (t in s.confirmAt ==> s.confirmAt[t] < |s.sent| && s.sent[s.confirmAt[t]].Confirm?)
  }

  /** What the frames the broker sent say about tag `t`. */
  function WireVerdict(s: State, t: nat): Verdict
    requires Recorded(s, t) && t in s.confirmAt
  {
    if !s.sent[s.confirmAt[t]].ack then Nacked
    else if t in s.returnAt then Unroutable(s.sent[s.returnAt[t]].code)
    else Confirmed
  }

  /** A waiter still in the map whose confirm was taken has the verdict the wire says; so has any
      waiter with a verdict, unless the demux goroutine went away before it took the confirm; and
      OnReturn has run for an unroutable message before its waiter can learn of it. */
  predicate FaithfulTo(s: State, t: nat)
    requires t in s.pubs
  {
    && Recorded(s, t)
    && s.pubs[t].waiter < |s.tracker.slots|
    && var first := s.tracker.slots[s.pubs[t].waiter].first;
       && (Handled(s, t) && t in s.tracker.pending ==> first == Some(WireVerdict(s, t)))
       && (first == Some(ChannelClosed) ==> s.demux.Exited? && !Handled(s, t) && t !in s.tracker.pending)
       && (first.Some? && first.value != ChannelClosed ==>
             && t in s.confirmAt
             && first.value == WireVerdict(s, t)
             && (first.value.Unroutable? ==> (t, first.value.code) in s.callbacks))
  }

  ghost predicate Faithful(s: State)
  {
    forall t | t in s.pubs :: FaithfulTo(s, t)
  }
}
