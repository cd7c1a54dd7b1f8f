/** With an unbuffered return channel every verdict is the one the wire says; with a
    buffered one some schedule loses the return.  The invariant is stated tag by tag. */
module ConfirmDemuxProof {
  import opened ConfirmSpec
  import opened ConfirmDemux
  import opened Optional

  /** The demux goroutine is busy with a return. */
  predicate Busy(s: State)
  {
    s.demux.Correlating? || s.demux.CallingBack? || s.demux.Marking?
  }

  /** The identified return of `t` has been sent and not yet recorded in the tracker. */
  predicate InFlight(s: State, t: nat)
  {
    t in s.returnAt && (s.read <= s.returnAt[t] || (Busy(s) && s.demux.at == s.returnAt[t]))
  }

  /** The identified return of `t` has been looked up in the return map. */
  predicate Correlated(s: State, t: nat)
  {
    t in s.returnAt && s.returnAt[t] < s.read && !(s.demux.Correlating? && s.demux.at == s.returnAt[t])
  }

  predicate DemuxInv(s: State)
  {
    && Ordered(s)
    && WellFormed(s.tracker)
    && (s.demux.CallingBack? || s.demux.Marking? ==>
          s.sent[s.demux.at].msgId != "" && s.demux.tag == s.sent[s.demux.at].about)
    && (s.demux.Marking? ==> (s.demux.tag, s.sent[s.demux.at].code) in s.callbacks)
  }

  /** Frame `i` is the one recorded for its tag. */
  predicate FrameInv(s: State, i: nat)
  {
    i < |s.sent| ==>
      match s.sent[i]
      case Return(m, _, t) => m != "" ==> t in s.returnAt && s.returnAt[t] == i
      case Confirm(t, _) => t in s.confirmAt && s.confirmAt[t] == i
  }

  predicate TagInv(s: State, t: nat)
  {
    && Recorded(s, t)
    && (t in s.tracker.pending || t in s.returnAt || t in s.confirmAt ==> t in s.pubs)
    && (t in s.pubs ==> PublishInv(s, t, s.pubs[t]))
  }

  predicate PublishInv(s: State, t: nat, p: Publish)
    requires Recorded(s, t)
  {
    && t < s.nextTag && p.waiter < |s.tracker.slots| && s.tracker.slots[p.waiter].tag == t
    && (p.mapped ==> p.mandatory) && p.msgId != ""
    && (t in s.tracker.pending ==> s.tracker.pending[t] == p.waiter)
    && (t in s.returnAt ==>
          p.mandatory && s.sent[s.returnAt[t]].about == t && s.sent[s.returnAt[t]].msgId == p.msgId)
    && (t in s.confirmAt ==> s.sent[s.confirmAt[t]].tag == t)
    && (t in s.returnAt && t in s.confirmAt ==> s.returnAt[t] < s.confirmAt[t])
    && (InFlight(s, t) ==> !Handled(s, t))
    && (t in s.tracker.pending && p.mandatory && !Correlated(s, t) ==>
          p.msgId in s.returnTags && s.returnTags[p.msgId] == t)
    && SlotInv(s, t, s.tracker.slots[p.waiter])
  }

  predicate SlotInv(s: State, t: nat, slot: Slot)
    requires Recorded(s, t)
  {
    && (slot.returned ==>
          t in s.returnAt && slot.returnCode == s.sent[s.returnAt[t]].code && (t, slot.returnCode) in s.callbacks)
    && (Handled(s, t) && t in s.tracker.pending ==> slot.first.Some?)
    && (slot.first == Some(ChannelClosed) ==> s.demux.Exited? && !Handled(s, t) && t !in s.tracker.pending)
    && (!Handled(s, t) ==> slot.first.None? || slot.first.value == ChannelClosed)
    && (t in s.returnAt && !slot.returned && !InFlight(s, t) ==>
          t !in s.tracker.pending && (slot.first.None? || slot.first.value == ChannelClosed))
    && (slot.first.Some? && slot.first.value != ChannelClosed ==>
          t in s.confirmAt && slot.first.value == WireVerdict(s, t))
  }

  /** Of two publishes with one message id the earlier is over. */
  predicate PairInv(s: State, t: nat, u: nat)
  {
    t in s.pubs && u in s.pubs && t < u && s.pubs[t].msgId == s.pubs[u].msgId ==>
      Handled(s, t) && !s.pubs[t].mapped
  }

  predicate MapInv(s: State, m: string)
  {
    m in s.returnTags ==>
      s.returnTags[m] in s.pubs && s.pubs[s.returnTags[m]].msgId == m && s.pubs[s.returnTags[m]].mapped
  }

  ghost predicate Inv(s: State)
  {
    && DemuxInv(s)
    && (forall i :: FrameInv(s, i))
    && (forall t :: TagInv(s, t))
    && (forall t, u :: PairInv(s, t, u))
    && (forall m :: MapInv(s, m))
  }

  lemma InvIsFaithful(s: State)
    requires Inv(s)
    ensures Faithful(s)
  {
    forall t | t in s.pubs ensures FaithfulTo(s, t) {
      assert TagInv(s, t);
    }
  }

  lemma SendsTag(s: State, t: nat, m: string, mandatory: bool)
    requires DemuxInv(s) && TagInv(s, t) && MapInv(s, m)
    ensures TagInv(Publishing(s, Send(m, mandatory)), t)
  {
  }

  lemma SendsRest(s: State, t: nat, u: nat, i: nat, m0: string, m: string, mandatory: bool)
    requires Inv(s)
    ensures DemuxInv(Publishing(s, Send(m, mandatory))) && FrameInv(Publishing(s, Send(m, mandatory)), i)
    ensures PairInv(Publishing(s, Send(m, mandatory)), t, u)
    ensures MapInv(Publishing(s, Send(m, mandatory)), m0)
  {
    assert FrameInv(s, i) && TagInv(s, s.nextTag);
    assert PairInv(s, t, u) by { assert TagInv(s, t) && TagInv(s, u); }
    assert TagInv(s, t) && TagInv(s, u) && MapInv(s, m0);
  }

  lemma EndsWaitTag(s: State, t: nat, t0: nat)
    requires Inv(s)
    ensures TagInv(Publishing(s, EndWait(t0)), t)
  {
    assert TagInv(s, t);
  }

  lemma EndsWaitRest(s: State, t: nat, u: nat, i: nat, m0: string, t0: nat)
    requires Inv(s)
    ensures DemuxInv(Publishing(s, EndWait(t0))) && FrameInv(Publishing(s, EndWait(t0)), i)
    ensures PairInv(Publishing(s, EndWait(t0)), t, u)
    ensures MapInv(Publishing(s, EndWait(t0)), m0)
  {
    assert FrameInv(s, i) && TagInv(s, t) && TagInv(s, u) && PairInv(s, t, u) && MapInv(s, m0);
  }

  lemma UnmapsTag(s: State, t: nat, t0: nat)
    requires Inv(s)
    ensures TagInv(Publishing(s, Unmap(t0)), t)
  {
    assert TagInv(s, t);
    assert TagInv(s, t0) && PairInv(s, t0, t) && PairInv(s, t, t0);
    if t0 in s.pubs {
      assert MapInv(s, s.pubs[t0].msgId);
    }
  }

  lemma UnmapsRest(s: State, t: nat, u: nat, i: nat, m0: string, t0: nat)
    requires Inv(s)
    ensures DemuxInv(Publishing(s, Unmap(t0))) && FrameInv(Publishing(s, Unmap(t0)), i)
    ensures PairInv(Publishing(s, Unmap(t0)), t, u)
    ensures MapInv(Publishing(s, Unmap(t0)), m0)
  {
    assert FrameInv(s, i) && TagInv(s, t) && TagInv(s, u) && PairInv(s, t, u) && MapInv(s, m0);
  }

  lemma ReturnsTag(s: State, t: nat, t0: nat, code: nat, echoes: bool)
    requires Inv(s)
    ensures TagInv(Broker(s, BrokerReturns(t0, code, echoes)), t)
  {
    assert TagInv(s, t);
  }

  lemma ReturnsRest(s: State, t: nat, u: nat, i: nat, m0: string, t0: nat, code: nat, echoes: bool)
    requires Inv(s)
    ensures DemuxInv(Broker(s, BrokerReturns(t0, code, echoes))) && FrameInv(Broker(s, BrokerReturns(t0, code, echoes)), i)
    ensures PairInv(Broker(s, BrokerReturns(t0, code, echoes)), t, u)
    ensures MapInv(Broker(s, BrokerReturns(t0, code, echoes)), m0)
  {
    assert FrameInv(s, i) && TagInv(s, t) && TagInv(s, u) && PairInv(s, t, u) && MapInv(s, m0);
  }

  lemma ConfirmsTag(s: State, t: nat, t0: nat, ack: bool)
    requires Inv(s)
    ensures TagInv(Broker(s, BrokerConfirms(t0, ack)), t)
  {
    assert TagInv(s, t);
  }

  lemma ConfirmsRest(s: State, t: nat, u: nat, i: nat, m0: string, t0: nat, ack: bool)
    requires Inv(s)
    ensures DemuxInv(Broker(s, BrokerConfirms(t0, ack))) && FrameInv(Broker(s, BrokerConfirms(t0, ack)), i)
    ensures PairInv(Broker(s, BrokerConfirms(t0, ack)), t, u)
    ensures MapInv(Broker(s, BrokerConfirms(t0, ack)), m0)
  {
    assert FrameInv(s, i) && TagInv(s, t) && TagInv(s, u) && PairInv(s, t, u) && MapInv(s, m0);
  }

  lemma ReadsTag(s: State, t: nat, confirmCap: nat)
    requires DemuxInv(s) && TagInv(s, t)
    ensures TagInv(Reader(0, confirmCap, s, Read), t)
  {
    if s.read < |s.sent| && s.sent[s.read].Return? {
      assert t in s.confirmAt ==> t in s.pubs;
    }
  }

  lemma ReadsRest(s: State, t: nat, u: nat, i: nat, m0: string, confirmCap: nat)
    requires Inv(s)
    ensures DemuxInv(Reader(0, confirmCap, s, Read)) && FrameInv(Reader(0, confirmCap, s, Read), i)
    ensures PairInv(Reader(0, confirmCap, s, Read), t, u)
    ensures MapInv(Reader(0, confirmCap, s, Read), m0)
  {
    assert FrameInv(s, i) && TagInv(s, t) && TagInv(s, u) && PairInv(s, t, u) && MapInv(s, m0);
  }

  lemma ShutsDownTag(s: State, t: nat, confirmCap: nat)
    requires Inv(s)
    ensures TagInv(Reader(0, confirmCap, s, Shutdown), t)
  {
    assert TagInv(s, t);
  }

  lemma ShutsDownRest(s: State, t: nat, u: nat, i: nat, m0: string, confirmCap: nat)
    requires Inv(s)
    ensures DemuxInv(Reader(0, confirmCap, s, Shutdown)) && FrameInv(Reader(0, confirmCap, s, Shutdown), i)
    ensures PairInv(Reader(0, confirmCap, s, Shutdown), t, u)
    ensures MapInv(Reader(0, confirmCap, s, Shutdown), m0)
  {
    assert FrameInv(s, i) && TagInv(s, t) && TagInv(s, u) && PairInv(s, t, u) && MapInv(s, m0);
  }

  /** The tag found in the return map is the tag the return is about. */
  lemma CorrelateFinds(s: State)
    requires Inv(s) && s.demux.Correlating?
    requires s.sent[s.demux.at].msgId in s.returnTags && s.sent[s.demux.at].msgId != ""
    ensures s.returnTags[s.sent[s.demux.at].msgId] == s.sent[s.demux.at].about
  {
    var f := s.sent[s.demux.at];
    var t, u := f.about, s.returnTags[f.msgId];
    assert FrameInv(s, s.demux.at) && TagInv(s, t) && MapInv(s, f.msgId);
    assert PairInv(s, t, u) && PairInv(s, u, t);
  }

  lemma CorrelatesTag(s: State, t: nat)
    requires Inv(s)
    ensures TagInv(Correlation(0, s, Correlate), t)
  {
    assert TagInv(s, t);
    if s.demux.Correlating? {
      assert FrameInv(s, s.demux.at);
      if s.sent[s.demux.at].msgId in s.returnTags && s.sent[s.demux.at].msgId != "" {
        CorrelateFinds(s);
      }
    }
  }

  lemma CorrelatesRest(s: State, t: nat, u: nat, i: nat, m0: string)
    requires Inv(s)
    ensures DemuxInv(Correlation(0, s, Correlate)) && FrameInv(Correlation(0, s, Correlate), i)
    ensures PairInv(Correlation(0, s, Correlate), t, u)
    ensures MapInv(Correlation(0, s, Correlate), m0)
  {
    assert FrameInv(s, i) && TagInv(s, t) && TagInv(s, u) && PairInv(s, t, u) && MapInv(s, m0);
    if s.demux.Correlating? {
      assert FrameInv(s, s.demux.at);
      if s.sent[s.demux.at].msgId in s.returnTags && s.sent[s.demux.at].msgId != "" {
        CorrelateFinds(s);
      }
    }
  }

  lemma CallsBackTag(s: State, t: nat)
    requires Inv(s)
    ensures TagInv(Correlation(0, s, CallBack), t)
  {
    assert TagInv(s, t);
  }

  lemma CallsBackRest(s: State, t: nat, u: nat, i: nat, m0: string)
    requires Inv(s)
    ensures DemuxInv(Correlation(0, s, CallBack)) && FrameInv(Correlation(0, s, CallBack), i)
    ensures PairInv(Correlation(0, s, CallBack), t, u)
    ensures MapInv(Correlation(0, s, CallBack), m0)
  {
    assert FrameInv(s, i) && TagInv(s, t) && TagInv(s, u) && PairInv(s, t, u) && MapInv(s, m0);
  }

  lemma MarksTag(s: State, t: nat)
    requires DemuxInv(s) && TagInv(s, t) && s.demux.Marking?
    requires TagInv(s, s.demux.tag) && FrameInv(s, s.demux.at)
    ensures TagInv(Recording(s, Mark), t)
  {
  }

  lemma MarksRest(s: State, t: nat, u: nat, i: nat, m0: string)
    requires Inv(s)
    ensures DemuxInv(Recording(s, Mark)) && FrameInv(Recording(s, Mark), i)
    ensures PairInv(Recording(s, Mark), t, u)
    ensures MapInv(Recording(s, Mark), m0)
  {
    assert FrameInv(s, i) && TagInv(s, t) && TagInv(s, u) && PairInv(s, t, u) && MapInv(s, m0);
  }

  predicate AtConfirmOf(s: State, t: nat)
    requires Ordered(s)
  {
    s.takenConfirms < s.read && s.sent[s.takenConfirms].Confirm? && s.sent[s.takenConfirms].tag == t
  }

  /** The confirm about to be taken gives its own waiter the verdict the wire says. */
  lemma TakesOwnConfirm(s: State, t: nat)
    requires DemuxInv(s) && FrameInv(s, s.takenConfirms) && TagInv(s, t) && AtConfirmOf(s, t)
    ensures TagInv(Recording(s, TakeConfirm), t)
  {
  }

  lemma TakesOtherConfirm(s: State, t: nat)
    requires DemuxInv(s) && FrameInv(s, s.takenConfirms) && TagInv(s, t) && !AtConfirmOf(s, t)
    requires s.takenConfirms < s.read && s.sent[s.takenConfirms].Confirm? ==> TagInv(s, s.sent[s.takenConfirms].tag)
    ensures TagInv(Recording(s, TakeConfirm), t)
  {
  }

  lemma TakesConfirmTag(s: State, t: nat)
    requires Inv(s)
    ensures TagInv(Recording(s, TakeConfirm), t)
  {
    assert TagInv(s, t);
    assert FrameInv(s, s.takenConfirms);
    if AtConfirmOf(s, t) {
      TakesOwnConfirm(s, t);
    } else {
      TakesOtherConfirm(s, t);
    }
  }

  lemma TakesConfirmRest(s: State, t: nat, u: nat, i: nat, m0: string)
    requires Inv(s)
    ensures DemuxInv(Recording(s, TakeConfirm)) && FrameInv(Recording(s, TakeConfirm), i)
    ensures PairInv(Recording(s, TakeConfirm), t, u)
    ensures MapInv(Recording(s, TakeConfirm), m0)
  {
    assert FrameInv(s, i) && TagInv(s, t) && TagInv(s, u) && PairInv(s, t, u) && MapInv(s, m0);
  }

  lemma ExitsTag(s: State, t: nat)
    requires Inv(s)
    ensures TagInv(Recording(s, Exit), t)
  {
    assert TagInv(s, t);
  }

  lemma ExitsRest(s: State, t: nat, u: nat, i: nat, m0: string)
    requires Inv(s)
    ensures DemuxInv(Recording(s, Exit)) && FrameInv(Recording(s, Exit), i)
    ensures PairInv(Recording(s, Exit), t, u)
    ensures MapInv(Recording(s, Exit), m0)
  {
    assert FrameInv(s, i) && TagInv(s, t) && TagInv(s, u) && PairInv(s, t, u) && MapInv(s, m0);
  }

  lemma TagKept(confirmCap: nat, s: State, a: Action, t: nat)
    requires Inv(s)
    ensures TagInv(Next(0, confirmCap, s, a), t)
  {
    assert TagInv(s, t);
    match a {
      case Send(m, mandatory) =>
        assert MapInv(s, m);
        SendsTag(s, t, m, mandatory);
      case EndWait(t0) => EndsWaitTag(s, t, t0);
      case Unmap(t0) => UnmapsTag(s, t, t0);
      case BrokerReturns(t0, code, echoes) => ReturnsTag(s, t, t0, code, echoes);
      case BrokerConfirms(t0, ack) => ConfirmsTag(s, t, t0, ack);
      case Read => ReadsTag(s, t, confirmCap);
      case Shutdown => ShutsDownTag(s, t, confirmCap);
      case TakeReturn =>
      case Correlate => CorrelatesTag(s, t);
      case CallBack => CallsBackTag(s, t);
      case Mark =>
        if s.demux.Marking? {
          assert TagInv(s, s.demux.tag) && FrameInv(s, s.demux.at);
          MarksTag(s, t);
        }
      case TakeConfirm => TakesConfirmTag(s, t);
      case Exit => ExitsTag(s, t);
    }
  }

  lemma RestKept(confirmCap: nat, s: State, a: Action, t: nat, u: nat, i: nat, m0: string)
    requires Inv(s)
    ensures DemuxInv(Next(0, confirmCap, s, a)) && FrameInv(Next(0, confirmCap, s, a), i)
    ensures PairInv(Next(0, confirmCap, s, a), t, u) && MapInv(Next(0, confirmCap, s, a), m0)
  {
    assert FrameInv(s, i) && PairInv(s, t, u) && MapInv(s, m0);
    match a {
      case Send(m, mandatory) => SendsRest(s, t, u, i, m0, m, mandatory);
      case EndWait(t0) => EndsWaitRest(s, t, u, i, m0, t0);
      case Unmap(t0) => UnmapsRest(s, t, u, i, m0, t0);
      case BrokerReturns(t0, code, echoes) => ReturnsRest(s, t, u, i, m0, t0, code, echoes);
      case BrokerConfirms(t0, ack) => ConfirmsRest(s, t, u, i, m0, t0, ack);
      case Read => ReadsRest(s, t, u, i, m0, confirmCap);
      case Shutdown => ShutsDownRest(s, t, u, i, m0, confirmCap);
      case TakeReturn =>
      case Correlate => CorrelatesRest(s, t, u, i, m0);
      case CallBack => CallsBackRest(s, t, u, i, m0);
      case Mark => MarksRest(s, t, u, i, m0);
      case TakeConfirm => TakesConfirmRest(s, t, u, i, m0);
      case Exit => ExitsRest(s, t, u, i, m0);
    }
  }

  lemma NextKeeps(confirmCap: nat, s: State, a: Action)
    requires Inv(s)
    ensures Inv(Next(0, confirmCap, s, a))
  {
    var r := Next(0, confirmCap, s, a);
    forall t ensures TagInv(r, t) { TagKept(confirmCap, s, a, t); }
    forall i ensures FrameInv(r, i) { RestKept(confirmCap, s, a, 0, 0, i, ""); }
    forall t, u ensures PairInv(r, t, u) { RestKept(confirmCap, s, a, t, u, 0, ""); }
    forall m ensures MapInv(r, m) { RestKept(confirmCap, s, a, 0, 0, 0, m); }
    RestKept(confirmCap, s, a, 0, 0, 0, "");
  }

  lemma {:induction false} Always(confirmCap: nat, actions: seq<Action>)
    ensures Inv(Run(0, confirmCap, actions))
  {
    if actions != [] {
      Always(confirmCap, actions[..|actions| - 1]);
      NextKeeps(confirmCap, Run(0, confirmCap, actions[..|actions| - 1]), actions[|actions| - 1]);
    }
  }

  /** The schedule that loses a return once returns are buffered: the reader dispatches the
      return and the confirm, and the demux goroutine takes the confirm first. */
  const LOSING: seq<Action> :=
    [Send("m", true), BrokerReturns(1, 312, true), BrokerConfirms(1, true), Read, Read, TakeConfirm, TakeConfirm]

  /** The state after the broker has sent both frames. */
  function LosingStart(returnCap: nat, confirmCap: nat): (s: State)
    ensures WellFormed(s.tracker) && Ordered(s)
    ensures s.sent == [Return("m", 312, 1), Confirm(1, true)] && s.read == s.takenReturns == s.takenConfirms == 0
    ensures !s.down && s.demux == AtSelect && 1 in s.returnAt
    ensures 1 in s.pubs && 1 in s.tracker.pending && s.tracker.pending[1] == s.pubs[1].waiter
    ensures s.tracker.slots[s.pubs[1].waiter] == Slot(1, None, false, 0)
  {
    var s1 := Next(returnCap, confirmCap, INIT, LOSING[0]);
    var s2 := Next(returnCap, confirmCap, s1, LOSING[1]);
    Next(returnCap, confirmCap, s2, LOSING[2])
  }

  lemma BothRead(returnCap: nat, confirmCap: nat, s: State, r: Frame, c: Frame)
    requires returnCap > 0 && confirmCap > 0 && WellFormed(s.tracker) && Ordered(s) && !s.down
    requires s.sent == [r, c] && r.Return? && c.Confirm? && s.read == s.takenReturns == s.takenConfirms == 0
    ensures Next(returnCap, confirmCap, Next(returnCap, confirmCap, s, Read), Read) == s.(read := 2)
  {
    assert s.sent[0..0] == [];
    assert Next(returnCap, confirmCap, s, Read) == s.(read := 1);
    assert s.sent[0..1] == [r] && [r][1..] == [];
    assert Count([r], false) == Count([], false) == 0;
  }

  lemma ConfirmTaken(returnCap: nat, confirmCap: nat, s: State, r: Frame, c: Frame)
    requires WellFormed(s.tracker) && Ordered(s) && s.demux == AtSelect
    requires s.sent == [r, c] && r.Return? && c.Confirm? && s.read == 2 && s.takenConfirms == 0
    ensures Next(returnCap, confirmCap, Next(returnCap, confirmCap, s, TakeConfirm), TakeConfirm)
         == s.(takenConfirms := 2, tracker := Step(s.tracker, Settle(c.tag, false, c.ack)))
  {
    assert Next(returnCap, confirmCap, s, TakeConfirm) == s.(takenConfirms := 1);
  }

  lemma LosingNext(returnCap: nat, confirmCap: nat, k: nat)
    requires k < |LOSING|
    ensures Run(returnCap, confirmCap, LOSING[..k + 1])
         == Next(returnCap, confirmCap, Run(returnCap, confirmCap, LOSING[..k]), LOSING[k])
  {
    assert LOSING[..k + 1][..k] == LOSING[..k];
  }

  lemma LosingRuns(returnCap: nat, confirmCap: nat)
    ensures var s4 := Next(returnCap, confirmCap, LosingStart(returnCap, confirmCap), Read);
            var s6 := Next(returnCap, confirmCap, Next(returnCap, confirmCap, s4, Read), TakeConfirm);
            Run(returnCap, confirmCap, LOSING) == Next(returnCap, confirmCap, s6, TakeConfirm)
  {
    LosingNext(returnCap, confirmCap, 0);
    LosingNext(returnCap, confirmCap, 1);
    LosingNext(returnCap, confirmCap, 2);
    LosingNext(returnCap, confirmCap, 3);
    LosingNext(returnCap, confirmCap, 4);
    LosingNext(returnCap, confirmCap, 5);
    LosingNext(returnCap, confirmCap, 6);
    assert LOSING[..7] == LOSING;
  }

  lemma BufferedLosesReturn(returnCap: nat, confirmCap: nat)
    requires returnCap > 0 && confirmCap > 0
    ensures var s := Run(returnCap, confirmCap, LOSING);
            && 1 in s.pubs && 1 in s.returnAt
            && s.pubs[1].waiter < |s.tracker.slots|
            && s.tracker.slots[s.pubs[1].waiter].first == Some(Confirmed)
  {
    var s3 := LosingStart(returnCap, confirmCap);
    BothRead(returnCap, confirmCap, s3, s3.sent[0], s3.sent[1]);
    ConfirmTaken(returnCap, confirmCap, s3.(read := 2), s3.sent[0], s3.sent[1]);
    LosingRuns(returnCap, confirmCap);
  }

  /** The demultiplexer tells every waiter what the wire said, under every schedule, exactly
      when the return channel is unbuffered. */
  lemma FaithfulIffUnbuffered(returnCap: nat, confirmCap: nat)
    requires confirmCap > 0
    ensures (forall actions :: Faithful(Run(returnCap, confirmCap, actions))) <==> returnCap == 0
  {
    if returnCap == 0 {
      forall actions ensures Faithful(Run(returnCap, confirmCap, actions)) {
        Always(confirmCap, actions);
        InvIsFaithful(Run(0, confirmCap, actions));
      }
    } else {
      BufferedLosesReturn(returnCap, confirmCap);
      var s := Run(returnCap, confirmCap, LOSING);
      assert !FaithfulTo(s, 1);
      assert !Faithful(s);
    }
  }
}
