/** The RPC replier: handlers answer requests concurrently, publish their replies on one shared
    confirm channel that is reopened when it closes, and settle each request by the outcome.

    The lock is held from the choice of the channel until the reply is written. A channel's driver
    gives a write the next sequence number, whoever writes.
  */
module Replier {
  import opened ConfirmSpec
  import opened Optional

  /** `written` says whose reply each tag carries and `confirmed` how the broker answered it. */
  datatype Chan = Chan(tracker: Spec, nextSeq: nat, gone: bool, written: map<nat, nat>, confirmed: map<nat, bool>)

  const FRESH := Chan(EMPTY, 1, false, map[], map[])

  /** Where the handling of a request is. */
  datatype Pc =
    | Handling
    | AtLock
    | Choosing
    | Opening
    | Tagging(chan: nat)
    | Registering(chan: nat, tag: nat)
    | Writing(chan: nat, tag: nat)
    | Cancelling(chan: nat, tag: nat)
    | Looking(chan: nat, tag: nat)
    | Waiting(chan: nat, tag: nat, waiter: nat)
    | Leaving(chan: nat, tag: nat, ok: bool)
    | Acking(chan: nat, tag: nat)
    | Dropping
    | Acked(chan: nat, tag: nat)
    | Dropped(requeue: bool)

  datatype State = State(lock: Option<nat>, current: Option<nat>, chans: seq<Chan>, reqs: map<nat, Pc>)

  const INIT := State(None, None, [], map[])

  datatype HandlerOutcome = Answered | HandlerFailed | NoReplyTo | NotEncodable

  /** A step of the goroutine that handles a request. */
  datatype Move =
    | Return(outcome: HandlerOutcome)
    | Acquire
    | Choose
    | Open(ok: bool)
    | TakeTag
    | RegisterTag
    | Write(written: bool)
    | CancelTag
    | LookUp
    | ReceiveVerdict
    | GiveUp
    | Leave
    | Finish

  datatype Action =
    | Deliver(q: nat)
    | Go(q: nat, move: Move)
    | BrokerConfirms(chan: nat, tag: nat, ack: bool)
    | ChannelGone(chan: nat)
    | TrackerClosed(chan: nat)
    | Shutdown

  function At(s: State, q: nat, pc: Pc): State
  {
    s.(reqs := s.reqs[q := pc])
  }

  function Unlocked(s: State, q: nat, pc: Pc): State
  {
    s.(lock := None, reqs := s.reqs[q := pc])
  }

  function WithChan(s: State, c: nat, ch: Chan): State
    requires c < |s.chans|
  {
    s.(chans := s.chans[c := ch])
  }

  /** The tracker call of one step. */
  function Called(ch: Chan, op: Op): Chan
    requires WellFormed(ch.tracker)
  {
    ch.(tracker := Step(ch.tracker, op))
  }

  predicate Trackers(chans: seq<Chan>)
  {
    forall c :: 0 <= c < |chans| ==> WellFormed(chans[c].tracker)
  }

  /** The locked section of a publish, up to the tag. */
  function Picking(s: State, q: nat, m: Move): State
    requires q in s.reqs
  {
    match (s.reqs[q], m)
    case (AtLock, Acquire) => if s.lock.Some? then s else s.(lock := Some(q), reqs := s.reqs[q := Choosing])
    case (Choosing, Choose) =>
      if s.current.Some? && s.current.value < |s.chans| && !s.chans[s.current.value].gone
      then At(s, q, Tagging(s.current.value))
      else At(s.(current := None), q, Opening)
    case (Opening, Open(ok)) =>
      if ok then At(s.(chans := s.chans + [FRESH], current := Some(|s.chans|)), q, Tagging(|s.chans|))
      else Unlocked(s, q, Dropping)
    case (Tagging(c), TakeTag) =>
      if c >= |s.chans| then s else At(s, q, Registering(c, s.chans[c].nextSeq))
    case _ => s
  }

  /** The rest of the locked section. */
  function Sending(s: State, q: nat, m: Move): State
    requires Trackers(s.chans) && q in s.reqs
  {
    match (s.reqs[q], m)
    case (Registering(c, tag), RegisterTag) =>
      if c >= |s.chans| then s
      else if s.chans[c].tracker.closed then Unlocked(s, q, Dropping)
      else At(WithChan(s, c, Called(s.chans[c], Register(tag))), q, Writing(c, tag))
    case (Writing(c, tag), Write(written)) =>
      if c >= |s.chans| then s
      else if !written then At(s, q, Cancelling(c, tag))
      else
        var ch := s.chans[c];
        Unlocked(WithChan(s, c, ch.(written := ch.written[ch.nextSeq := q], nextSeq := ch.nextSeq + 1)), q, Looking(c, tag))
    case (Cancelling(c, tag), CancelTag) =>
      if c >= |s.chans| then s else Unlocked(WithChan(s, c, Called(s.chans[c], Cancel(tag))), q, Dropping)
    case _ => s
  }

  /** The handler before, and the verdict after. */
  function Settling(s: State, q: nat, m: Move): State
    requires q in s.reqs
  {
    match (s.reqs[q], m)
    case (Handling, Return(outcome)) => At(s, q, if outcome.Answered? then AtLock else Dropping)
    case (Looking(c, tag), LookUp) =>
      if c < |s.chans| && tag in s.chans[c].tracker.pending
      then At(s, q, Waiting(c, tag, s.chans[c].tracker.pending[tag])) else At(s, q, Dropping)
    case (Waiting(c, tag, waiter), GiveUp) => At(s, q, Leaving(c, tag, false))
    case (Acking(c, tag), Finish) => At(s, q, Acked(c, tag))
    case (Dropping, Finish) => At(s, q, Dropped(false))
    case _ => s
  }

  /** The end of the wait. */
  function Ending(s: State, q: nat, m: Move): State
    requires Trackers(s.chans) && q in s.reqs
  {
    match (s.reqs[q], m)
    case (Waiting(c, tag, waiter), ReceiveVerdict) =>
      if c >= |s.chans| || !Ready(s.chans[c].tracker, waiter) then s
      else
        var v := s.chans[c].tracker.slots[waiter].first.value;
        At(WithChan(s, c, Called(s.chans[c], Receive(waiter))), q, Leaving(c, tag, v.Confirmed?))
    case (Leaving(c, tag, ok), Leave) =>
      if c >= |s.chans| then s
      else At(WithChan(s, c, Called(s.chans[c], Forget(tag))), q, if ok then Acking(c, tag) else Dropping)
    case _ => s
  }

  predicate Ready(t: Spec, waiter: nat)
  {
    waiter < |t.slots| && t.slots[waiter].first.Some? && waiter !in t.taken
  }

  /** The broker confirms what was written, once; channels come and go. */
  function Elsewhere(s: State, a: Action): State
    requires Trackers(s.chans)
  {
    match a
    case BrokerConfirms(c, tag, ack) =>
      if c >= |s.chans| || tag !in s.chans[c].written || tag in s.chans[c].confirmed then s
      else
        var ch := Called(s.chans[c], Settle(tag, false, ack));
        WithChan(s, c, ch.(confirmed := ch.confirmed[tag := ack]))
    case ChannelGone(c) => if c >= |s.chans| then s else WithChan(s, c, s.chans[c].(gone := true))
    case TrackerClosed(c) => if c >= |s.chans| then s else WithChan(s, c, Called(s.chans[c], CloseAll))
    case Shutdown => if s.lock.Some? then s else s.(current := None)
    case _ => s
  }

  function Moved(s: State, q: nat, m: Move): State
    requires Trackers(s.chans) && q in s.reqs
  {
    match m
    case RegisterTag => Sending(s, q, m)
    case Write(_) => Sending(s, q, m)
    case CancelTag => Sending(s, q, m)
    case ReceiveVerdict => Ending(s, q, m)
    case Leave => Ending(s, q, m)
    case _ => if m.Acquire? || m.Choose? || m.Open? || m.TakeTag? then Picking(s, q, m) else Settling(s, q, m)
  }

  function Next(s: State, a: Action): State
    requires Trackers(s.chans)
  {
    match a
    case Deliver(q) => if q in s.reqs then s else At(s, q, Handling)
    case Go(q, m) => if q in s.reqs then Moved(s, q, m) else s
    case _ => Elsewhere(s, a)
  }

  // ------------------------------------------------------------------------------------------
  // Invariant
  // ------------------------------------------------------------------------------------------

  /** A positive verdict was given to a tag the broker positively confirmed; tags written are
      behind the sequence number. */
  ghost predicate ChanOk(ch: Chan)
  {
    && WellFormed(ch.tracker)
    && (forall i :: 0 <= i < |ch.tracker.slots| && ch.tracker.slots[i].first == Some(Confirmed) ==>
          ConfirmedTag(ch, ch.tracker.slots[i].tag))
    && (forall t :: t in ch.written ==> t < ch.nextSeq)
  }

  predicate ConfirmedTag(ch: Chan, tag: nat)
  {
    tag in ch.confirmed && ch.confirmed[tag]
  }

  predicate TookConfirm(ch: Chan, i: nat)
  {
    i < |ch.tracker.slots| && i in ch.tracker.taken && ch.tracker.slots[i].first == Some(Confirmed)
  }

  /** On its way to acking the request, or there. */
  predicate Won(pc: Pc)
  {
    (pc.Leaving? && pc.ok) || pc.Acking? || pc.Acked?
  }

  predicate Owns(ch: Chan, q: nat, tag: nat)
  {
    tag in ch.written && ch.written[tag] == q
  }

  predicate HoldsLock(pc: Pc)
  {
    pc.Choosing? || pc.Opening? || pc.Tagging? || pc.Registering? || pc.Writing? || pc.Cancelling?
  }

  /** What a request's place says about the channel it uses. */
  ghost predicate PcOk(s: State, pc: Pc, q: nat)
  {
    && (HoldsLock(pc) ==> s.lock == Some(q))
    && (pc.Tagging? ==> pc.chan < |s.chans|)
    && (pc.Registering? || pc.Writing? || pc.Cancelling? ==> pc.chan < |s.chans| && pc.tag == s.chans[pc.chan].nextSeq)
    && (pc.Looking? || pc.Waiting? || pc.Leaving? || pc.Acking? || pc.Acked? ==>
          pc.chan < |s.chans| && Owns(s.chans[pc.chan], q, pc.tag))
    && (pc.Waiting? ==> pc.waiter < |s.chans[pc.chan].tracker.slots|
                        && s.chans[pc.chan].tracker.slots[pc.waiter].tag == pc.tag)
    && (Won(pc) ==> ConfirmedTag(s.chans[pc.chan], pc.tag))
    && (pc.Dropped? ==> !pc.requeue)
  }

  ghost predicate ReqOk(s: State, q: nat)
  {
    q in s.reqs ==> PcOk(s, s.reqs[q], q)
  }

  ghost predicate ChansOk(chans: seq<Chan>)
  {
    forall c :: 0 <= c < |chans| ==> ChanOk(chans[c])
  }

  /** A waiter that took a positive verdict is that of a request on its way to the ack. */
  ghost predicate TakenOk(s: State, c: nat, i: nat)
  {
    c < |s.chans| && TookConfirm(s.chans[c], i) ==>
      var tag := s.chans[c].tracker.slots[i].tag;
      && tag in s.chans[c].written && s.chans[c].written[tag] in s.reqs
      && Won(s.reqs[s.chans[c].written[tag]])
      && s.reqs[s.chans[c].written[tag]].chan == c && s.reqs[s.chans[c].written[tag]].tag == tag
  }

  ghost predicate ReqsOk(s: State)
  {
    forall q :: ReqOk(s, q)
  }

  ghost predicate Inv(s: State)
  {
    ChansOk(s.chans) && ReqsOk(s) && forall c, i :: TakenOk(s, c, i)
  }

  ghost predicate ChanGrows(a: Chan, b: Chan)
  {
    && |a.tracker.slots| <= |b.tracker.slots|
    && (forall i :: 0 <= i < |a.tracker.slots| ==> b.tracker.slots[i].tag == a.tracker.slots[i].tag)
    && (forall t :: t in a.written ==> t in b.written && b.written[t] == a.written[t])
    && (forall t :: t in a.confirmed ==> t in b.confirmed && b.confirmed[t] == a.confirmed[t])
  }

  /** No waiter is newly known to have taken a positive verdict. */
  ghost predicate ChanQuiet(a: Chan, b: Chan)
  {
    forall i :: 0 <= i < |b.tracker.slots| && TookConfirm(b, i) ==> i < |a.tracker.slots| && TookConfirm(a, i)
  }

  ghost predicate ChansQuiet(was: seq<Chan>, now: seq<Chan>)
  {
    forall c :: 0 <= c < |now| ==> ChanQuiet(if c < |was| then was[c] else FRESH, now[c])
  }

  ghost predicate ChansGrow(was: seq<Chan>, now: seq<Chan>)
  {
    |was| <= |now| && forall c :: 0 <= c < |was| ==> ChanGrows(was[c], now[c])
  }

  /** A step of anyone but the holder of the lock leaves the lock and the sequence numbers. */
  ghost predicate LockKept(s: State, r: State)
  {
    && |s.chans| <= |r.chans|
    && r.lock == s.lock
    && (forall c :: 0 <= c < |s.chans| ==> r.chans[c].nextSeq == s.chans[c].nextSeq)
  }

  lemma Replaced(chans: seq<Chan>, c: nat, ch: Chan)
    requires ChansOk(chans) && c < |chans| && ChanOk(ch) && ChanGrows(chans[c], ch)
    ensures ChansOk(chans[c := ch]) && ChansGrow(chans, chans[c := ch])
    ensures ChanQuiet(chans[c], ch) ==> ChansQuiet(chans, chans[c := ch])
  {
  }

  lemma CallGrows(ch: Chan, op: Op)
    requires ChanOk(ch)
    requires op.Settle? ==> !op.multiple && (op.ack ==> ConfirmedTag(ch, op.tag))
    ensures ChanOk(Called(ch, op)) && ChanGrows(ch, Called(ch, op))
    ensures !op.Receive? ==> ChanQuiet(ch, Called(ch, op))
  {
  }

  predicate KeepsWin(s: State, r: State, q: nat)
  {
    q in s.reqs && Won(s.reqs[q]) ==>
      q in r.reqs && Won(r.reqs[q]) && r.reqs[q].chan == s.reqs[q].chan && r.reqs[q].tag == s.reqs[q].tag
  }

  lemma CalledGood(chans: seq<Chan>, c: nat, op: Op)
    requires ChansOk(chans) && c < |chans| && !op.Settle?
    ensures var now := chans[c := Called(chans[c], op)];
            ChansOk(now) && ChansGrow(chans, now) && (!op.Receive? ==> Kept(chans, now))
  {
    CallGrows(chans[c], op);
    Replaced(chans, c, Called(chans[c], op));
  }

  /** A step of request `q` that keeps the channels in order and touches nobody else. */
  ghost predicate Good(s: State, r: State, q: nat, quiet: bool)
  {
    && (quiet ==> ChansQuiet(s.chans, r.chans))
    && KeepsWin(s, r, q)
    && ChansOk(r.chans) && ChansGrow(s.chans, r.chans)
    && ReqOk(r, q) && r.reqs - {q} == s.reqs - {q}
    && (s.lock.Some? && s.lock != Some(q) ==> LockKept(s, r))
  }

  lemma Opened(chans: seq<Chan>, now: seq<Chan>)
    requires ChansOk(chans) && (now == chans || now == chans + [FRESH])
    ensures ChansOk(now) && ChansGrow(chans, now) && ChansQuiet(chans, now)
  {
  }

  lemma PickingOk(s: State, q: nat, m: Move)
    requires q in s.reqs && PcOk(s, s.reqs[q], q)
    ensures var r := Picking(s, q, m);
            && ReqOk(r, q) && KeepsWin(s, r, q) && r.reqs - {q} == s.reqs - {q}
            && (r.chans == s.chans || r.chans == s.chans + [FRESH])
            && (s.lock.Some? && s.lock != Some(q) ==> r == s)
  {
  }

  lemma PickingGood(s: State, q: nat, m: Move)
    requires ChansOk(s.chans) && q in s.reqs && PcOk(s, s.reqs[q], q)
    ensures Good(s, Picking(s, q, m), q, true)
  {
    PickingOk(s, q, m);
    Opened(s.chans, Picking(s, q, m).chans);
  }

  lemma SettlingOk(s: State, q: nat, m: Move)
    requires Trackers(s.chans) && q in s.reqs && PcOk(s, s.reqs[q], q)
    ensures var r := Settling(s, q, m);
            ReqOk(r, q) && KeepsWin(s, r, q) && r.reqs - {q} == s.reqs - {q} && r.chans == s.chans && r.lock == s.lock
  {
  }

  lemma SettlingGood(s: State, q: nat, m: Move)
    requires ChansOk(s.chans) && q in s.reqs && PcOk(s, s.reqs[q], q)
    ensures Good(s, Settling(s, q, m), q, true)
  {
    SettlingOk(s, q, m);
    Opened(s.chans, s.chans);
  }

  lemma SendingOk(s: State, q: nat, m: Move)
    requires Trackers(s.chans) && q in s.reqs && PcOk(s, s.reqs[q], q)
    ensures var r := Sending(s, q, m);
            ReqOk(r, q) && KeepsWin(s, r, q) && r.reqs - {q} == s.reqs - {q} && (s.lock != Some(q) ==> r == s)
  {
  }

  ghost predicate Kept(was: seq<Chan>, now: seq<Chan>)
  {
    ChansOk(now) && ChansGrow(was, now) && ChansQuiet(was, now)
  }

  lemma RegisterKept(s: State, q: nat)
    requires ChansOk(s.chans) && q in s.reqs && s.reqs[q].Registering?
    ensures Kept(s.chans, Sending(s, q, RegisterTag).chans)
  {
    Opened(s.chans, s.chans);
    if s.reqs[q].chan < |s.chans| {
      CalledGood(s.chans, s.reqs[q].chan, Register(s.reqs[q].tag));
    }
  }

  lemma WriteKept(s: State, q: nat, written: bool)
    requires ChansOk(s.chans) && q in s.reqs && s.reqs[q].Writing?
    ensures Kept(s.chans, Sending(s, q, Write(written)).chans)
  {
  }

  lemma CancelKept(s: State, q: nat)
    requires ChansOk(s.chans) && q in s.reqs && s.reqs[q].Cancelling?
    ensures Kept(s.chans, Sending(s, q, CancelTag).chans)
  {
    Opened(s.chans, s.chans);
    if s.reqs[q].chan < |s.chans| {
      CalledGood(s.chans, s.reqs[q].chan, Cancel(s.reqs[q].tag));
    }
  }

  lemma SendingChans(s: State, q: nat, m: Move)
    requires ChansOk(s.chans) && q in s.reqs
    ensures Kept(s.chans, Sending(s, q, m).chans)
  {
    if s.reqs[q].Registering? && m.RegisterTag? {
      RegisterKept(s, q);
    } else if s.reqs[q].Writing? && m.Write? {
      WriteKept(s, q, m.written);
    } else if s.reqs[q].Cancelling? && m.CancelTag? {
      CancelKept(s, q);
    } else {
      assert Sending(s, q, m) == s;
      Opened(s.chans, s.chans);
    }
  }

  lemma SendingGood(s: State, q: nat, m: Move)
    requires ChansOk(s.chans) && q in s.reqs && PcOk(s, s.reqs[q], q)
    ensures Good(s, Sending(s, q, m), q, true)
  {
    SendingOk(s, q, m);
    SendingChans(s, q, m);
  }

  lemma EndingOk(s: State, q: nat, m: Move)
    requires ChansOk(s.chans) && q in s.reqs && PcOk(s, s.reqs[q], q)
    ensures var r := Ending(s, q, m);
            ReqOk(r, q) && KeepsWin(s, r, q) && r.reqs - {q} == s.reqs - {q} && LockKept(s, r)
  {
    if s.reqs[q].Waiting? {
      assert ChanOk(s.chans[s.reqs[q].chan]);
    }
  }

  lemma EndingGood(s: State, q: nat, m: Move)
    requires ChansOk(s.chans) && q in s.reqs && PcOk(s, s.reqs[q], q)
    ensures Good(s, Ending(s, q, m), q, !m.ReceiveVerdict?)
  {
    EndingOk(s, q, m);
    Opened(s.chans, s.chans);
    match (s.reqs[q], m)
    case (Waiting(c, tag, waiter), ReceiveVerdict) =>
      CalledGood(s.chans, c, Receive(waiter));
    case (Leaving(c, tag, ok), Leave) =>
      CalledGood(s.chans, c, Forget(tag));
    case _ =>
  }

  lemma MovedGood(s: State, q: nat, m: Move)
    requires ChansOk(s.chans) && q in s.reqs && PcOk(s, s.reqs[q], q)
    ensures Good(s, Moved(s, q, m), q, !m.ReceiveVerdict?)
  {
    PickingGood(s, q, m);
    SendingGood(s, q, m);
    SettlingGood(s, q, m);
    EndingGood(s, q, m);
  }

  lemma ConfirmGood(s: State, c: nat, tag: nat, ack: bool)
    requires ChansOk(s.chans) && c < |s.chans| && tag !in s.chans[c].confirmed
    ensures var ch := Called(s.chans[c], Settle(tag, false, ack));
            var now := s.chans[c := ch.(confirmed := ch.confirmed[tag := ack])];
            Kept(s.chans, now)
  {
    var ch := s.chans[c].(confirmed := s.chans[c].confirmed[tag := ack]);
    CallGrows(ch, Settle(tag, false, ack));
    Replaced(s.chans, c, Called(ch, Settle(tag, false, ack)));
  }

  lemma ElsewhereGood(s: State, a: Action)
    requires ChansOk(s.chans)
    ensures Kept(s.chans, Elsewhere(s, a).chans)
  {
    Opened(s.chans, s.chans);
    match a
    case BrokerConfirms(c, tag, ack) =>
      if c < |s.chans| && tag !in s.chans[c].confirmed {
        ConfirmGood(s, c, tag, ack);
      }
    case TrackerClosed(c) => if c < |s.chans| { CalledGood(s.chans, c, CloseAll); }
    case ChannelGone(c) => if c < |s.chans| { Replaced(s.chans, c, s.chans[c].(gone := true)); }
    case _ =>
  }

  lemma ElsewhereStays(s: State, a: Action)
    requires Trackers(s.chans)
    ensures LockKept(s, Elsewhere(s, a)) && Elsewhere(s, a).reqs == s.reqs
  {
  }

  /** Nobody else's step disturbs a request. */
  lemma OthersKept(s: State, r: State, q: nat)
    requires ReqOk(s, q) && ChansGrow(s.chans, r.chans) && (s.lock == Some(q) ==> LockKept(s, r))
    requires q in r.reqs ==> q in s.reqs && r.reqs[q] == s.reqs[q]
    ensures ReqOk(r, q)
  {
  }

  lemma ReqsKept(s: State, r: State, actor: nat)
    requires ReqsOk(s) && Good(s, r, actor, false)
    ensures ReqsOk(r)
  {
    forall q ensures ReqOk(r, q) {
      assert ReqOk(s, q);
      if q != actor {
        assert q in r.reqs ==> q in r.reqs - {actor};
        assert q in s.reqs - {actor} ==> (s.reqs - {actor})[q] == s.reqs[q];
        OthersKept(s, r, q);
      }
    }
  }

  lemma WinKept(s: State, r: State, actor: nat, q: nat)
    requires KeepsWin(s, r, actor) && r.reqs - {actor} == s.reqs - {actor}
    ensures KeepsWin(s, r, q)
  {
    assert q != actor && q in s.reqs ==> q in s.reqs - {actor};
    assert q in r.reqs - {actor} ==> (r.reqs - {actor})[q] == r.reqs[q];
  }

  lemma TakenKept(s: State, r: State, c: nat, i: nat)
    requires TakenOk(s, c, i) && ChansGrow(s.chans, r.chans) && ChansQuiet(s.chans, r.chans)
    requires forall q :: KeepsWin(s, r, q)
    ensures TakenOk(r, c, i)
  {
    if c < |r.chans| && TookConfirm(r.chans[c], i) {
      assert ChanQuiet(if c < |s.chans| then s.chans[c] else FRESH, r.chans[c]);
      assert ChanGrows(s.chans[c], r.chans[c]);
      var tag := s.chans[c].tracker.slots[i].tag;
      assert KeepsWin(s, r, s.chans[c].written[tag]);
    }
  }

  lemma ReceiveTaken(s: State, q: nat, c: nat, i: nat)
    requires Inv(s) && q in s.reqs
    ensures TakenOk(Ending(s, q, ReceiveVerdict), c, i)
  {
    assert ReqOk(s, q) && TakenOk(s, c, i);
    if s.reqs[q].Waiting? && c < |s.chans| && TookConfirm(s.chans[c], i) {
      assert ChanOk(s.chans[s.reqs[q].chan]);
    }
  }

  lemma NextKeeps(s: State, a: Action)
    requires Inv(s)
    ensures Inv(Next(s, a))
  {
    var r := Next(s, a);
    match a
    case Deliver(q) =>
      Opened(s.chans, s.chans);
      ReqsKept(s, r, q);
      forall c, i ensures TakenOk(r, c, i) { assert TakenOk(s, c, i); }
    case Go(q, m) =>
      if q in s.reqs {
        assert ReqOk(s, q);
        MovedGood(s, q, m);
        ReqsKept(s, r, q);
        if m.ReceiveVerdict? {
          forall c, i ensures TakenOk(r, c, i) { ReceiveTaken(s, q, c, i); }
        } else {
          forall p ensures KeepsWin(s, r, p) { WinKept(s, r, q, p); }
          forall c, i ensures TakenOk(r, c, i) { assert TakenOk(s, c, i); TakenKept(s, r, c, i); }
        }
      }
    case _ =>
      ElsewhereGood(s, a);
      ElsewhereStays(s, a);
      forall q ensures ReqOk(r, q) { assert ReqOk(s, q); OthersKept(s, r, q); }
      forall c, i ensures TakenOk(r, c, i) { assert TakenOk(s, c, i); TakenKept(s, r, c, i); }
  }

  function Run(actions: seq<Action>): (s: State)
    ensures Inv(s)
  {
    if actions == [] then INIT
    else
      var s := Run(actions[..|actions| - 1]);
      NextKeeps(s, actions[|actions| - 1]);
      Next(s, actions[|actions| - 1])
  }

  /** In every run, a request that is acked or about to be is one whose own reply was written
      under a tag that the broker positively confirmed; every other request that is done was
      nacked without requeue. */
  lemma AckedOnlyIfConfirmed(actions: seq<Action>, q: nat)
    requires q in Run(actions).reqs
    ensures var s := Run(actions);
            var pc := s.reqs[q];
            && (pc.Acking? || pc.Acked? ==>
                  pc.chan < |s.chans| && Owns(s.chans[pc.chan], q, pc.tag) && ConfirmedTag(s.chans[pc.chan], pc.tag))
            && (pc.Dropped? ==> !pc.requeue)
  {
    assert ReqOk(Run(actions), q);
  }

  /** No request whose own wait took a positive confirm is dropped, and no two requests own the
      same tag of a channel. */
  lemma ConfirmedIsNotDropped(actions: seq<Action>, c: nat, i: nat)
    requires c < |Run(actions).chans| && TookConfirm(Run(actions).chans[c], i)
    ensures var s := Run(actions);
            exists q :: q in s.reqs && Owns(s.chans[c], q, s.chans[c].tracker.slots[i].tag) && Won(s.reqs[q])
                        && forall p :: Owns(s.chans[c], p, s.chans[c].tracker.slots[i].tag) ==> p == q
  {
    var s := Run(actions);
    assert TakenOk(s, c, i);
    var q := s.chans[c].written[s.chans[c].tracker.slots[i].tag];
    assert q in s.reqs && Owns(s.chans[c], q, s.chans[c].tracker.slots[i].tag);
  }
}
