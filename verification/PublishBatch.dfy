/** PublishBatch: all messages of a batch pipelined on one confirm channel, with the demux
    goroutine handling frames between any two steps of the publisher.

    What the publisher cannot see ahead of time comes in a `Turn` per message: whether it
    encodes, whether its write fails, whether its wait is cut short, and the frames the demux
    goroutine handles at each point where the tracker's lock is free.
  */
module PublishBatch {
  import opened ConfirmSpec
  import opened ConfirmTracker
  import opened ConfirmWire
  import opened Optional

  datatype Error =
    | ErrEncode(detail: nat)
    | ErrWrite(detail: nat)
    | ErrChannelClosed
    | ErrNacked
    | ErrUnroutable(code: nat)
    | ErrConfirmTimeout
    | ErrContext

  /** `given` is the caller's MessageID and `stamp` the one generated if there is none. */
  datatype Turn = Turn(
    given: string, stamp: string, encodeErr: Option<nat>, writeErr: Option<nat>, impatient: bool, timedOut: bool,
    beforeRegister: seq<Frame>, beforeWrite: seq<Frame>, afterWrite: seq<Frame>,
    beforeWait: seq<Frame>, whileWaiting: seq<Frame>, beforeForget: seq<Frame>)

  /** What became of a message: where it stopped, or what it was registered as. */
  datatype Fate = Unencoded | Unregistered | Unwritten | Written(msg: Msg)

  /** The MessageID a message leaves with. */
  function Id(turn: Turn): string
  {
    if turn.given == "" then turn.stamp else turn.given
  }

  datatype Sent = Sent(tag: nat, idx: nat)

  /** The public error for a confirm verdict. */
  function MapVerdict(v: Verdict): (r: Option<Error>)
    ensures r.None? <==> v.Confirmed?
  {
    match v
    case Confirmed => None
    case Unroutable(code) => Some(ErrUnroutable(code))
    case Nacked => Some(ErrNacked)
    case ChannelClosed => Some(ErrChannelClosed)
  }

  /** What a wait that is cut short reports. */
  function GaveUp(turn: Turn): Error
  {
    if turn.timedOut then ErrConfirmTimeout else ErrContext
  }

  // ------------------------------------------------------------------------------------------
  // What the frames make of a batch
  // ------------------------------------------------------------------------------------------

  /** The frames handled while a message is registered and written. */
  function WriteFrames(turn: Turn, fate: Fate): seq<Frame>
  {
    match fate
    case Unencoded => []
    case Unregistered => turn.beforeRegister
    case Unwritten => turn.beforeRegister + turn.beforeWrite
    case Written(_) => turn.beforeRegister + turn.beforeWrite + turn.afterWrite
  }

  /** The frames handled once the messages up to `fates` have had their turn. */
  function WriteLog(start: seq<Frame>, turns: seq<Turn>, fates: seq<Fate>): seq<Frame>
    requires |fates| <= |turns|
  {
    if fates == [] then start
    else
      var n := |fates| - 1;
      WriteLog(start, turns, fates[..n]) + WriteFrames(turns[n], fates[n])
  }

  function Writes(fates: seq<Fate>): nat
  {
    if fates == [] then 0
    else Writes(fates[..|fates| - 1]) + if fates[|fates| - 1].Written? then 1 else 0
  }

  /** The IDs that stay in the return map although their message was not written. */
  ghost function Strays(mandatory: bool, turns: seq<Turn>, fates: seq<Fate>): set<string>
    requires |fates| <= |turns|
  {
    set i | 0 <= i < |fates| && mandatory && fates[i].Unwritten? :: Id(turns[i])
  }

  /** The names a message is registered under: its own ID, if returns are asked for and none has
      used it up, and possibly strays. */
  ghost predicate Named(names: set<string>, mandatory: bool, turn: Turn, strays: set<string>)
  {
    && names - {Id(turn)} <= strays
    && (Id(turn) in names <==> mandatory && !Returned(turn.beforeRegister, Id(turn)))
  }

  /** Why a message got as far as it did: `log` are the frames handled before its turn and `tag`
      the next sequence number. */
  ghost predicate Told(log: seq<Frame>, tag: nat, mandatory: bool, own: bool, strays: set<string>, turn: Turn, fate: Fate)
  {
    var log := log + turn.beforeRegister;
    match fate
    case Unencoded => turn.encodeErr.Some?
    case Unregistered => turn.encodeErr.None? && Closed in log
    case Unwritten => turn.encodeErr.None? && Closed !in log && turn.writeErr.Some?
    case Written(m) =>
      && turn.encodeErr.None? && Closed !in log && turn.writeErr.None?
      && m.tag == tag && m.since == |log| && m.own == own && Named(m.names, mandatory, turn, strays)
  }

  ghost predicate ToldAt(start: seq<Frame>, first: nat, mandatory: bool, turns: seq<Turn>, fates: seq<Fate>, i: nat)
    requires i < |fates| <= |turns|
  {
    Told(WriteLog(start, turns, fates[..i]), first + Writes(fates[..i]), mandatory, Apart(mandatory, turns),
         Strays(mandatory, turns, fates[..i]), turns[i], fates[i])
  }

  ghost predicate AllTold(start: seq<Frame>, first: nat, mandatory: bool, turns: seq<Turn>, fates: seq<Fate>)
    requires |fates| <= |turns|
  {
    forall i :: 0 <= i < |fates| ==> ToldAt(start, first, mandatory, turns, fates, i)
  }

  /** What a message that was not written reports. */
  function NotWritten(turn: Turn, fate: Fate): Option<Error>
  {
    match fate
    case Unencoded => Some(ErrEncode(turn.encodeErr.GetOr(0)))
    case Unregistered => Some(ErrChannelClosed)
    case Unwritten => Some(ErrWrite(turn.writeErr.GetOr(0)))
    case Written(_) => None
  }

  /** A Wait that finds its entry gone: the channel closed before the message had its verdict. */
  predicate Gone(log: seq<Frame>, m: Msg)
  {
    m.since <= |log| && Heard(m, log).first == Some(ChannelClosed)
  }

  /** The frames handled once a Wait that starts at `log` is over. */
  function WaitedLog(log: seq<Frame>, turn: Turn, m: Msg): seq<Frame>
  {
    var looked := log + turn.beforeWait;
    if Gone(looked, m) then looked else looked + turn.whileWaiting + turn.beforeForget
  }

  /** What such a Wait reports. */
  function Report(log: seq<Frame>, turn: Turn, m: Msg): Option<Error>
    requires m.since <= |log|
  {
    var looked := log + turn.beforeWait;
    var v := Heard(m, looked + turn.whileWaiting).first;
    if Gone(looked, m) then Some(ErrChannelClosed)
    else if !turn.impatient && v.Some? then MapVerdict(v.value)
    else Some(GaveUp(turn))
  }

  predicate Positive(r: Option<Error>)
  {
    r.None? || r.value.ErrUnroutable?
  }

  /** The same, up to what a return makes of an ack unless `exact`. */
  predicate Near(r: Option<Error>, report: Option<Error>, exact: bool)
  {
    r == report || (!exact && Positive(r) && Positive(report))
  }

  /** The frames handled once the first `n` messages have been waited for. */
  function WaitLog(log: seq<Frame>, turns: seq<Turn>, fates: seq<Fate>, n: nat): seq<Frame>
    requires n <= |fates| <= |turns|
  {
    if n == 0 then log
    else
      var before := WaitLog(log, turns, fates, n - 1);
      if fates[n - 1].Written? then WaitedLog(before, turns[n - 1], fates[n - 1].msg) else before
  }

  /** The slot of message `i`, when `log` are the frames handled before the first wait. */
  ghost predicate Slotted(log: seq<Frame>, turns: seq<Turn>, fates: seq<Fate>, i: nat, result: Option<Error>)
    requires i < |fates| <= |turns|
  {
    var before := WaitLog(log, turns, fates, i);
    if fates[i].Written?
    then fates[i].msg.since <= |before| && Near(result, Report(before, turns[i], fates[i].msg), fates[i].msg.own)
    else result == NotWritten(turns[i], fates[i])
  }

  ghost predicate AllSlotted(log: seq<Frame>, turns: seq<Turn>, fates: seq<Fate>, results: seq<Option<Error>>)
    requires |fates| == |turns| == |results|
  {
    forall i :: 0 <= i < |turns| ==> Slotted(log, turns, fates, i, results[i])
  }

  /** The outcome of a batch as the frames and the failures make it: `start` are the frames handled
      before, `end` those handled after it. */
  ghost predicate Answered(start: seq<Frame>, first: nat, mandatory: bool, turns: seq<Turn>, fates: seq<Fate>,
                           end: seq<Frame>, results: seq<Option<Error>>)
  {
    && |fates| == |turns| == |results|
    && AllTold(start, first, mandatory, turns, fates)
    && var log := WriteLog(start, turns, fates);
    && end == WaitLog(log, turns, fates, |turns|) && AllSlotted(log, turns, fates, results)
  }

  /** The frames handled from a message's registration to the end of its wait, which starts at `log`. */
  function Span(log: seq<Frame>, turn: Turn, m: Msg): seq<Frame>
    requires m.since <= |log|
  {
    (log + turn.beforeWait + turn.whileWaiting)[m.since..]
  }

  /** The message was written, its wait was not cut short, and among the frames of its span the
      first that settles its tag confirms it, with no return of it before. */
  ghost predicate Delivered(log: seq<Frame>, turn: Turn, fate: Fate)
  {
    && fate.Written? && fate.msg.since <= |log| && !turn.impatient
    && exists p: nat :: ConfirmedAt(fate.msg.names, fate.msg.tag, Span(log, turn, fate.msg), p)
  }

  /** The same, whatever was returned. */
  ghost predicate Acknowledged(log: seq<Frame>, turn: Turn, fate: Fate)
  {
    && fate.Written? && fate.msg.since <= |log| && !turn.impatient
    && exists p: nat :: AckedAt(fate.msg.tag, Span(log, turn, fate.msg), p)
  }

  ghost predicate AcknowledgedAt(start: seq<Frame>, turns: seq<Turn>, fates: seq<Fate>, i: nat)
    requires i < |fates| <= |turns|
  {
    Acknowledged(WaitLog(WriteLog(start, turns, fates), turns, fates, i), turns[i], fates[i])
  }

  ghost predicate DeliveredAt(start: seq<Frame>, turns: seq<Turn>, fates: seq<Fate>, i: nat)
    requires i < |fates| <= |turns|
  {
    Delivered(WaitLog(WriteLog(start, turns, fates), turns, fates, i), turns[i], fates[i])
  }

  /** What the slot of message `i` says about the frames, of which `end` are all: it is nil or unroutable
      exactly when the message was written and its own tag was confirmed in time, and the confirm has
      then been handled. If no message takes over the return tag of another, it is nil exactly when
      the message was not returned before that. */
  ghost predicate Judged(start: seq<Frame>, mandatory: bool, turns: seq<Turn>, fates: seq<Fate>, end: seq<Frame>,
                         i: nat, result: Option<Error>)
    requires i < |fates| <= |turns|
  {
    && (Positive(result) <==> AcknowledgedAt(start, turns, fates, i))
    && (Positive(result) ==> fates[i].Written? && Confirm(fates[i].msg.tag, true) in end)
    && (Apart(mandatory, turns) ==> (result.None? <==> DeliveredAt(start, turns, fates, i)))
  }

  ghost predicate AllJudged(start: seq<Frame>, mandatory: bool, turns: seq<Turn>, fates: seq<Fate>, end: seq<Frame>,
                            results: seq<Option<Error>>)
    requires |fates| == |turns| == |results|
  {
    forall i :: 0 <= i < |turns| ==> Judged(start, mandatory, turns, fates, end, i, results[i])
  }

  /** Once gone, always gone. */
  lemma GoneStays(log: seq<Frame>, m: Msg, more: seq<Frame>)
    requires Gone(log, m)
    ensures Heard(m, log + more).first == Some(ChannelClosed)
  {
    assert (log + more)[m.since..] == log[m.since..] + more;
    WireLatched(m.names, m.tag, log[m.since..], more);
  }

  lemma ReportsNilIff(log: seq<Frame>, turn: Turn, m: Msg)
    requires m.since <= |log|
    ensures Report(log, turn, m).None? <==> Delivered(log, turn, Written(m))
  {
    var looked := log + turn.beforeWait;
    ConfirmedIff(m.names, m.tag, Span(log, turn, m));
    if Gone(looked, m) {
      GoneStays(looked, m, turn.whileWaiting);
    }
  }

  lemma ReportsPositiveIff(log: seq<Frame>, turn: Turn, m: Msg)
    requires m.since <= |log|
    ensures Positive(Report(log, turn, m)) <==> Acknowledged(log, turn, Written(m))
  {
    var looked := log + turn.beforeWait;
    AckedIff(m.names, m.tag, Span(log, turn, m));
    if Gone(looked, m) {
      GoneStays(looked, m, turn.whileWaiting);
    }
  }

  /** The confirm of an acknowledged message is among the frames its wait leaves handled. */
  lemma ConfirmHandled(log: seq<Frame>, turn: Turn, m: Msg)
    requires Acknowledged(log, turn, Written(m))
    ensures Confirm(m.tag, true) in WaitedLog(log, turn, m)
  {
    var looked := log + turn.beforeWait;
    var p: nat :| AckedAt(m.tag, Span(log, turn, m), p);
    AckedIff(m.names, m.tag, Span(log, turn, m));
    if Gone(looked, m) {
      GoneStays(looked, m, turn.whileWaiting);
    }
    assert (looked + turn.whileWaiting)[m.since + p] == Confirm(m.tag, true);
  }

  lemma {:induction false} WaitLogGrows(log: seq<Frame>, turns: seq<Turn>, fates: seq<Fate>, i: nat, k: nat)
    requires i <= k <= |fates| <= |turns|
    ensures WaitLog(log, turns, fates, i) <= WaitLog(log, turns, fates, k)
  {
    if i < k {
      WaitLogGrows(log, turns, fates, i, k - 1);
    }
  }

  lemma ConfirmInEnd(log: seq<Frame>, turns: seq<Turn>, fates: seq<Fate>, i: nat)
    requires i < |fates| <= |turns| && Acknowledged(WaitLog(log, turns, fates, i), turns[i], fates[i])
    ensures Confirm(fates[i].msg.tag, true) in WaitLog(log, turns, fates, |fates|)
  {
    ConfirmHandled(WaitLog(log, turns, fates, i), turns[i], fates[i].msg);
    WaitLogGrows(log, turns, fates, i + 1, |fates|);
  }

  /** Unroutable is reported exactly for an ack that follows a return of the message itself, as
      long as no return names a message that was not written. */
  lemma ReportsUnroutableIff(log: seq<Frame>, turn: Turn, m: Msg, code: nat)
    requires m.since <= |log| && Id(turn) in m.names
    requires forall f :: f in Span(log, turn, m) && Names(m.names, f) ==> f.msgId == Id(turn)
    ensures Report(log, turn, m) == Some(ErrUnroutable(code)) <==>
            !turn.impatient && exists r: nat, p: nat :: ReturnedAt(Id(turn), m.tag, Span(log, turn, m), code, r, p)
  {
    var looked := log + turn.beforeWait;
    UnusedNames(m.names, {Id(turn)}, m.tag, Span(log, turn, m));
    UnroutableIff(Id(turn), m.tag, Span(log, turn, m), code);
    if Gone(looked, m) {
      GoneStays(looked, m, turn.whileWaiting);
    }
  }

  /** The MessageIDs a mandatory batch puts in the return map. */
  ghost function Ids(turns: seq<Turn>): set<string>
  {
    set t | t in turns && t.encodeErr.None? :: Id(t)
  }

  ghost predicate DistinctIds(turns: seq<Turn>)
  {
    forall i, j :: 0 <= i < j < |turns| ==> Id(turns[i]) != Id(turns[j])
  }

  /** No message takes over the return tag of another. */
  ghost predicate Apart(mandatory: bool, turns: seq<Turn>)
  {
    mandatory ==> DistinctIds(turns)
  }

  /** A return of a written message names no other message of the batch. */
  lemma ReturnsAreOwn(start: seq<Frame>, first: nat, mandatory: bool, turns: seq<Turn>, fates: seq<Fate>, i: nat, k: nat)
    requires i < |fates| <= |turns| && k < |turns| && k != i && DistinctIds(turns)
    requires ToldAt(start, first, mandatory, turns, fates, i) && fates[i].Written?
    requires k < |fates| ==> !fates[k].Unwritten?
    ensures Id(turns[k]) !in fates[i].msg.names
  {
    forall j | 0 <= j < i && fates[j].Unwritten? ensures Id(turns[j]) != Id(turns[k]) {}
    assert Id(turns[k]) !in Strays(mandatory, turns, fates[..i]);
  }

  /** The broker returns no message before it was written: neither this one, nor one whose write failed. */
  ghost predicate ReturnsWritten(log: seq<Frame>, turns: seq<Turn>, fates: seq<Fate>, i: nat)
    requires i < |fates| <= |turns| && fates[i].Written? && fates[i].msg.since <= |log|
  {
    && !Returned(turns[i].beforeRegister, Id(turns[i]))
    && forall k :: 0 <= k < |fates| && fates[k].Unwritten? ==> !Returned(Span(log, turns[i], fates[i].msg), Id(turns[k]))
  }

  /** In a mandatory batch with distinct IDs the slot of a written message is unroutable exactly when its wait took an
      ack that followed a return of this very message. */
  lemma UnroutableIsOwn(start: seq<Frame>, first: nat, turns: seq<Turn>, fates: seq<Fate>, end: seq<Frame>,
                        results: seq<Option<Error>>, i: nat, code: nat)
    requires Answered(start, first, true, turns, fates, end, results) && DistinctIds(turns) && i < |turns| && fates[i].Written?
    requires var log := WaitLog(WriteLog(start, turns, fates), turns, fates, i);
             fates[i].msg.since <= |log| && ReturnsWritten(log, turns, fates, i)
    ensures var log := WaitLog(WriteLog(start, turns, fates), turns, fates, i);
            results[i] == Some(ErrUnroutable(code)) <==>
              !turns[i].impatient && exists r: nat, p: nat ::
                ReturnedAt(Id(turns[i]), fates[i].msg.tag, Span(log, turns[i], fates[i].msg), code, r, p)
  {
    var m, log := fates[i].msg, WaitLog(WriteLog(start, turns, fates), turns, fates, i);
    assert ToldAt(start, first, true, turns, fates, i) && Slotted(WriteLog(start, turns, fates), turns, fates, i, results[i]);
    var span := Span(log, turns[i], m);
    forall f | f in span && Names(m.names, f) ensures f.msgId == Id(turns[i]) {
      NamesItself(start, first, turns, fates, i, span, f);
    }
    ReportsUnroutableIff(log, turns[i], m, code);
  }

  lemma NamesItself(start: seq<Frame>, first: nat, turns: seq<Turn>, fates: seq<Fate>, i: nat, span: seq<Frame>, f: Frame)
    requires i < |fates| <= |turns| && ToldAt(start, first, true, turns, fates, i) && fates[i].Written?
    requires forall k :: 0 <= k < |fates| && fates[k].Unwritten? ==> !Returned(span, Id(turns[k]))
    requires f in span && Names(fates[i].msg.names, f)
    ensures f.msgId == Id(turns[i])
  {
    var q :| 0 <= q < |span| && span[q] == f;
    assert Names({f.msgId}, span[q]);
    assert Returned(span, f.msgId);
    assert f.msgId !in Strays(true, turns, fates[..i]);
  }

  lemma SlotMeans(log: seq<Frame>, turns: seq<Turn>, fates: seq<Fate>, i: nat, result: Option<Error>)
    requires i < |fates| <= |turns| && Slotted(log, turns, fates, i, result)
    ensures Positive(result) <==> Acknowledged(WaitLog(log, turns, fates, i), turns[i], fates[i])
    ensures fates[i].Written? && fates[i].msg.own ==>
              (result.None? <==> Delivered(WaitLog(log, turns, fates, i), turns[i], fates[i]))
  {
    if fates[i].Written? {
      ReportsPositiveIff(WaitLog(log, turns, fates, i), turns[i], fates[i].msg);
      ReportsNilIff(WaitLog(log, turns, fates, i), turns[i], fates[i].msg);
    }
  }

  lemma {:induction false} NothingWritten(start: seq<Frame>, turns: seq<Turn>, fates: seq<Fate>)
    requires |fates| <= |turns| && forall i :: 0 <= i < |fates| ==> fates[i].Unencoded?
    ensures WriteLog(start, turns, fates) == start
  {
    if fates != [] {
      NothingWritten(start, turns, fates[..|fates| - 1]);
      assert start + [] == start;
    }
  }

  /** A batch none of whose messages encodes. */
  lemma NothingSent(start: seq<Frame>, first: nat, mandatory: bool, turns: seq<Turn>, fates: seq<Fate>,
                    results: seq<Option<Error>>)
    requires |fates| == |turns| == |results|
    requires forall i :: 0 <= i < |turns| ==>
               fates[i].Unencoded? && turns[i].encodeErr.Some? && results[i] == Some(ErrEncode(turns[i].encodeErr.value))
    ensures Answered(start, first, mandatory, turns, fates, start, results)
    ensures AllJudged(start, mandatory, turns, fates, start, results) && Ids(turns) == {}
  {
    NothingWritten(start, turns, fates);
    NoWaitBetween(start, turns, fates, 0, |fates|);
  }

  lemma ToldMore(start: seq<Frame>, first: nat, mandatory: bool, turns: seq<Turn>, fates: seq<Fate>, fate: Fate)
    requires |fates| < |turns|
    requires AllTold(start, first, mandatory, turns, fates)
    requires Told(WriteLog(start, turns, fates), first + Writes(fates), mandatory, Apart(mandatory, turns),
                  Strays(mandatory, turns, fates), turns[|fates|], fate)
    ensures AllTold(start, first, mandatory, turns, fates + [fate])
    ensures WriteLog(start, turns, fates + [fate]) == WriteLog(start, turns, fates) + WriteFrames(turns[|fates|], fate)
    ensures Writes(fates + [fate]) == Writes(fates) + if fate.Written? then 1 else 0
  {
    var all := fates + [fate];
    assert all[..|fates|] == fates;
    forall i | 0 <= i < |fates| ensures ToldAt(start, first, mandatory, turns, all, i) {
      assert all[..i] == fates[..i];
      assert ToldAt(start, first, mandatory, turns, fates, i);
    }
  }

  lemma StraysMore(mandatory: bool, turns: seq<Turn>, fates: seq<Fate>, fate: Fate)
    requires |fates| < |turns|
    ensures Strays(mandatory, turns, fates + [fate]) ==
            Strays(mandatory, turns, fates) + if mandatory && fate.Unwritten? then {Id(turns[|fates|])} else {}
  {
    var all, was := Strays(mandatory, turns, fates + [fate]), Strays(mandatory, turns, fates);
    forall id | id in was ensures id in all {
      var i :| 0 <= i < |fates| && fates[i].Unwritten? && Id(turns[i]) == id;
      assert (fates + [fate])[i].Unwritten?;
    }
    if mandatory && fate.Unwritten? {
      assert (fates + [fate])[|fates|].Unwritten?;
    }
  }

  // ------------------------------------------------------------------------------------------
  // The written messages
  // ------------------------------------------------------------------------------------------

  predicate SentAt(fates: seq<Fate>, sent: Sent, tag: nat)
  {
    sent.tag == tag && sent.idx < |fates| && fates[sent.idx].Written? && fates[sent.idx].msg.tag == tag
  }

  predicate ListedAt(published: seq<Sent>, first: nat, fate: Fate, idx: nat)
  {
    fate.Written? ==> first <= fate.msg.tag < first + |published| && published[fate.msg.tag - first].idx == idx
  }

  /** The written messages have consecutive tags, in input order. */
  ghost predicate Lined(fates: seq<Fate>, published: seq<Sent>, first: nat)
  {
    && (forall j :: 0 <= j < |published| ==> SentAt(fates, published[j], first + j))
    && (forall i :: 0 <= i < |fates| ==> ListedAt(published, first, fates[i], i))
    && (forall i, k :: 0 <= i < k < |fates| && fates[i].Written? && fates[k].Written? ==> fates[i].msg.tag < fates[k].msg.tag)
  }

  function Appended(published: seq<Sent>, fate: Fate, idx: nat): seq<Sent>
  {
    if fate.Written? then published + [Sent(fate.msg.tag, idx)] else published
  }

  lemma LinedMore(fates: seq<Fate>, published: seq<Sent>, first: nat, fate: Fate)
    requires Lined(fates, published, first)
    requires fate.Written? ==> fate.msg.tag == first + |published|
    ensures Lined(fates + [fate], Appended(published, fate, |fates|), first)
  {
  }

  /** Every written message with a tag from `waited` on is still to be waited for. */
  ghost predicate AllTied(b: Book, fates: seq<Fate>, waited: nat)
  {
    forall i :: 0 <= i < |fates| && fates[i].Written? && waited <= fates[i].msg.tag ==> Tied(b, fates[i].msg)
  }

  lemma TiedMore(b: Book, c: Book, start: seq<Frame>, first: nat, mandatory: bool, turns: seq<Turn>, fates: seq<Fate>,
                 published: seq<Sent>, fate: Fate)
    requires |fates| < |turns|
    requires AllTold(start, first, mandatory, turns, fates)
    requires AllTied(b, fates, first) && Lined(fates, published, first)
    requires Keeps(b, c, first + |published|, if mandatory then {Id(turns[|fates|])} else {})
    requires fate.Written? ==> Tied(c, fate.msg)
    ensures AllTied(c, fates + [fate], first)
  {
    forall i | 0 <= i < |fates| && fates[i].Written? && first <= fates[i].msg.tag ensures Tied(c, fates[i].msg) {
      assert ListedAt(published, first, fates[i], i);
      assert Tied(b, fates[i].msg) && ToldAt(start, first, mandatory, turns, fates, i);
      if mandatory && DistinctIds(turns) {
        ReturnsAreOwn(start, first, mandatory, turns, fates, i, |fates|);
      }
    }
  }

  /** Where the `m`th wait finds its message. */
  function Turning(published: seq<Sent>, fates: seq<Fate>, m: nat): nat
    requires m <= |published|
  {
    if m < |published| then published[m].idx else |fates|
  }

  lemma {:induction false} NoWaitBetween(log: seq<Frame>, turns: seq<Turn>, fates: seq<Fate>, i: nat, k: nat)
    requires i <= k <= |fates| <= |turns| && forall j :: i <= j < k ==> !fates[j].Written?
    ensures WaitLog(log, turns, fates, i) == WaitLog(log, turns, fates, k)
  {
    if i < k {
      NoWaitBetween(log, turns, fates, i, k - 1);
    }
  }

  /** Between two waits that follow each other no message was written. */
  lemma NextTurning(log: seq<Frame>, turns: seq<Turn>, fates: seq<Fate>, published: seq<Sent>, first: nat, m: nat)
    requires |fates| <= |turns| && Lined(fates, published, first) && m < |published|
    ensures published[m].idx < Turning(published, fates, m + 1) <= |fates|
    ensures WaitLog(log, turns, fates, published[m].idx + 1) == WaitLog(log, turns, fates, Turning(published, fates, m + 1))
  {
    var i, k := published[m].idx, Turning(published, fates, m + 1);
    assert SentAt(fates, published[m], first + m);
    if m + 1 < |published| {
      assert SentAt(fates, published[m + 1], first + m + 1);
    }
    forall j | i < j < k ensures !fates[j].Written? {
      assert ListedAt(published, first, fates[j], j);
    }
    NoWaitBetween(log, turns, fates, i + 1, k);
  }

  lemma FirstTurning(log: seq<Frame>, turns: seq<Turn>, fates: seq<Fate>, published: seq<Sent>, first: nat)
    requires |fates| <= |turns| && Lined(fates, published, first)
    ensures Turning(published, fates, 0) <= |fates|
    ensures log == WaitLog(log, turns, fates, Turning(published, fates, 0))
  {
    var k := Turning(published, fates, 0);
    if 0 < |published| {
      assert SentAt(fates, published[0], first);
    }
    forall j | 0 <= j < k ensures !fates[j].Written? {
      assert ListedAt(published, first, fates[j], j);
    }
    NoWaitBetween(log, turns, fates, 0, k);
  }

  /** The slots once the tags below `waited` have been waited for. */
  ghost predicate SlotsTo(log: seq<Frame>, turns: seq<Turn>, fates: seq<Fate>, results: seq<Option<Error>>, waited: nat)
  {
    && |fates| == |turns| == |results|
    && forall i :: 0 <= i < |fates| ==>
         if fates[i].Written? && waited <= fates[i].msg.tag then results[i] == None
         else Slotted(log, turns, fates, i, results[i])
  }

  lemma SlotsMore(log: seq<Frame>, turns: seq<Turn>, fates: seq<Fate>, results: seq<Option<Error>>, published: seq<Sent>,
                  first: nat, m: nat, err: Option<Error>)
    requires SlotsTo(log, turns, fates, results, first + m) && Lined(fates, published, first)
    requires m < |published| && SentAt(fates, published[m], first + m)
    requires Slotted(log, turns, fates, published[m].idx, err)
    ensures SlotsTo(log, turns, fates, results[published[m].idx := err], first + m + 1)
  {
    forall i | 0 <= i < |fates| && fates[i].Written? && fates[i].msg.tag == first + m ensures i == published[m].idx {
      assert ListedAt(published, first, fates[i], i);
    }
  }

  /** A message's entry is gone exactly if the frames say that the channel closed first. */
  lemma TiedGone(b: Book, m: Msg)
    requires Tied(b, m)
    ensures m.tag !in b.spec.pending <==> Gone(b.log, m)
    ensures m.tag in b.spec.pending ==> b.spec.pending[m.tag] == m.waiter && m.waiter !in b.spec.taken
  {
  }

  // ------------------------------------------------------------------------------------------
  // The channel
  // ------------------------------------------------------------------------------------------

  /** Entries of the return map only go. */
  ghost predicate Fewer(was: map<string, nat>, now: map<string, nat>)
  {
    forall m :: m in now ==> m in was && now[m] == was[m]
  }

  /** The same, but for the entries of `ids`, which lead to `tag`. */
  ghost predicate Stores(was: map<string, nat>, now: map<string, nat>, ids: set<string>, tag: nat)
  {
    forall m :: m in now ==> (m in ids && now[m] == tag) || (m in was && now[m] == was[m])
  }

  /** Entries of the return map only go, but for those of `ids`. */
  ghost predicate FewerBut(was: map<string, nat>, now: map<string, nat>, ids: set<string>)
  {
    forall m :: m in now && m !in ids ==> m in was && now[m] == was[m]
  }

  /** No entry of the return map leads to a tag to come, but for strays. */
  ghost predicate Bounded(tags: map<string, nat>, next: nat, strays: set<string>)
  {
    forall id :: id in tags ==> tags[id] < next || (tags[id] == next && id in strays)
  }

  lemma NamedOnce(was: map<string, nat>, now: map<string, nat>, mandatory: bool, turn: Turn, tag: nat, strays: set<string>)
    requires Bounded(was, tag, strays) && (!mandatory ==> strays == {})
    requires UsedUp(if mandatory then was[Id(turn) := tag] else was, turn.beforeRegister, now)
    ensures Named(LeadingTo(now, tag), mandatory, turn, strays)
    ensures Bounded(now, tag, strays + if mandatory then {Id(turn)} else {})
    ensures mandatory ==> Bounded(now - {Id(turn)}, tag, strays)
  {
  }

  /** Step 3 after the turns of `fates`: the channel is at `b`, and `next` is its next sequence number. */
  ghost predicate Progress(b: Book, next: nat, start: seq<Frame>, first: nat, mandatory: bool, turns: seq<Turn>,
                           fates: seq<Fate>, published: seq<Sent>)
  {
    && |fates| <= |turns| && next == first + |published| && |published| == Writes(fates)
    && Lined(fates, published, first) && AllTold(start, first, mandatory, turns, fates)
    && b.log == WriteLog(start, turns, fates) && AllTied(b, fates, first)
    && Bounded(b.tags, next, Strays(mandatory, turns, fates))
  }

  lemma ProgressStart(b: Book, next: nat, mandatory: bool, turns: seq<Turn>)
    requires Bounded(b.tags, next, {})
    ensures Progress(b, next, b.log, next, mandatory, turns, [], [])
  {
  }

  lemma ProgressMore(b: Book, next: nat, c: Book, start: seq<Frame>, first: nat, mandatory: bool, turns: seq<Turn>,
                     fates: seq<Fate>, published: seq<Sent>, fate: Fate)
    requires Progress(b, next, start, first, mandatory, turns, fates, published) && |fates| < |turns|
    requires var turn, strays := turns[|fates|], Strays(mandatory, turns, fates);
             && Keeps(b, c, next, if mandatory then {Id(turn)} else {})
             && Told(b.log, next, mandatory, Apart(mandatory, turns), strays, turn, fate)
             && c.log == b.log + WriteFrames(turn, fate) && (fate.Written? ==> Tied(c, fate.msg))
             && Bounded(c.tags, next + if fate.Written? then 1 else 0,
                        strays + if mandatory && fate.Unwritten? then {Id(turn)} else {})
    ensures Progress(c, next + if fate.Written? then 1 else 0, start, first, mandatory, turns, fates + [fate],
                     Appended(published, fate, |fates|))
  {
    StraysMore(mandatory, turns, fates, fate);
    ToldMore(start, first, mandatory, turns, fates, fate);
    TiedMore(b, c, start, first, mandatory, turns, fates, published, fate);
    LinedMore(fates, published, first, fate);
  }

  /** The slots once the messages of `fates` have had their turn. */
  ghost predicate NotWrittenTo(turns: seq<Turn>, fates: seq<Fate>, encoded: seq<Option<Error>>, results: seq<Option<Error>>)
  {
    && |fates| <= |turns| == |encoded| == |results|
    && (forall i :: 0 <= i < |fates| ==> results[i] == NotWritten(turns[i], fates[i]))
    && (forall i :: |fates| <= i < |turns| ==> results[i] == encoded[i])
  }

  lemma NotWrittenMore(turns: seq<Turn>, fates: seq<Fate>, encoded: seq<Option<Error>>, results: seq<Option<Error>>, fate: Fate)
    requires NotWrittenTo(turns, fates, encoded, results) && |fates| < |turns|
    ensures NotWrittenTo(turns, fates + [fate], encoded, results[|fates| := NotWritten(turns[|fates|], fate)])
  {
  }

  /** Step 4 after `m` waits. */
  ghost predicate Waited(b: Book, log: seq<Frame>, turns: seq<Turn>, fates: seq<Fate>, published: seq<Sent>,
                         first: nat, m: nat, results: seq<Option<Error>>)
  {
    && |fates| == |turns| == |results| && m <= |published| && Lined(fates, published, first)
    && AllTied(b, fates, first + m) && Turning(published, fates, m) <= |fates|
    && (forall t :: t in b.spec.pending ==> t < first || first + m <= t)
    && b.log == WaitLog(log, turns, fates, Turning(published, fates, m)) && SlotsTo(log, turns, fates, results, first + m)
  }

  lemma WaitedStart(b: Book, turns: seq<Turn>, fates: seq<Fate>, published: seq<Sent>, first: nat, results: seq<Option<Error>>)
    requires |fates| == |turns| == |results| && AllTied(b, fates, first) && Lined(fates, published, first)
    requires forall i :: 0 <= i < |turns| ==> results[i] == NotWritten(turns[i], fates[i])
    ensures Waited(b, b.log, turns, fates, published, first, 0, results)
  {
    FirstTurning(b.log, turns, fates, published, first);
    forall i | 0 <= i < |fates| ensures ListedAt(published, first, fates[i], i) {}
  }

  lemma WaitsFor(b: Book, log: seq<Frame>, turns: seq<Turn>, fates: seq<Fate>, published: seq<Sent>,
                 first: nat, m: nat, results: seq<Option<Error>>)
    requires Waited(b, log, turns, fates, published, first, m, results) && m < |published|
    ensures SentAt(fates, published[m], first + m) && Tied(b, fates[published[m].idx].msg)
  {
  }

  lemma WaitedMore(b: Book, c: Book, log: seq<Frame>, turns: seq<Turn>, fates: seq<Fate>, published: seq<Sent>,
                   first: nat, m: nat, results: seq<Option<Error>>, err: Option<Error>)
    requires Waited(b, log, turns, fates, published, first, m, results) && m < |published|
    requires SentAt(fates, published[m], first + m) && Tied(b, fates[published[m].idx].msg)
    requires Keeps(b, c, first + m, {}) && first + m !in c.spec.pending
    requires var turn, msg := turns[published[m].idx], fates[published[m].idx].msg;
             c.log == WaitedLog(b.log, turn, msg) && Near(err, Report(b.log, turn, msg), msg.own)
    ensures Waited(c, log, turns, fates, published, first, m + 1, results[published[m].idx := err])
  {
    NextTurning(log, turns, fates, published, first, m);
    SlotsMore(log, turns, fates, results, published, first, m, err);
  }

  /** After both steps. */
  lemma BothSteps(b: Book, next: nat, c: Book, start: seq<Frame>, first: nat, mandatory: bool, turns: seq<Turn>,
                  fates: seq<Fate>, published: seq<Sent>, results: seq<Option<Error>>)
    requires Progress(b, next, start, first, mandatory, turns, fates, published)
    requires Waited(c, b.log, turns, fates, published, first, |published|, results)
    ensures Answered(start, first, mandatory, turns, fates, c.log, results)
    ensures AllJudged(start, mandatory, turns, fates, c.log, results)
  {
    forall i | 0 <= i < |fates|
      ensures Slotted(b.log, turns, fates, i, results[i]) && Judged(start, mandatory, turns, fates, c.log, i, results[i])
    {
      SlotAtLast(b, next, c, start, first, mandatory, turns, fates, published, results, i);
    }
  }

  lemma SlotAtLast(b: Book, next: nat, c: Book, start: seq<Frame>, first: nat, mandatory: bool, turns: seq<Turn>,
                   fates: seq<Fate>, published: seq<Sent>, results: seq<Option<Error>>, i: nat)
    requires Progress(b, next, start, first, mandatory, turns, fates, published)
    requires Waited(c, b.log, turns, fates, published, first, |published|, results) && i < |fates|
    ensures Slotted(b.log, turns, fates, i, results[i]) && Judged(start, mandatory, turns, fates, c.log, i, results[i])
  {
    assert ListedAt(published, first, fates[i], i);
    assert ToldAt(start, first, mandatory, turns, fates, i);
    SlotMeans(b.log, turns, fates, i, results[i]);
    if Positive(results[i]) {
      ConfirmInEnd(b.log, turns, fates, i);
    }
  }

  /** A pooled confirm channel: its tracker, the map from MessageID to tag that returns are
      looked up in, the driver's next publish sequence number, and the frames handled so far. */
  class Channel {
    const tracker: Tracker
    var returnTags: map<string, nat>
    var nextSeq: nat
    ghost var log: seq<Frame>

    ghost function View(): Book
      reads this, tracker
    {
      Book(tracker.spec, returnTags, log)
    }

    /** The tracker is closed exactly if the demux goroutine closed it. */
    ghost predicate Ready()
      reads this, tracker
    {
      tracker.Valid() && (tracker.spec.closed <==> Closed in log)
    }

    ghost predicate Valid()
      reads this, tracker
    {
      Ready() && forall t :: t in tracker.spec.pending ==> t < nextSeq
    }

    /** Between two calls. */
    ghost predicate Idle()
      reads this, tracker
    {
      Valid() && Bounded(returnTags, nextSeq, {})
    }

    constructor ()
      ensures Idle() && fresh(tracker) && tracker.spec == EMPTY && returnTags == map[] && nextSeq == 1 && log == []
    {
      tracker := new Tracker();
      returnTags, nextSeq, log := map[], 1, [];
    }

    /** One turn of the demux goroutine. */
    method Handle(f: Frame)
      requires Ready()
      modifies this`returnTags, this`log, tracker
      ensures Ready() && View() == Next(old(View()), f)
    {
      match f {
        case Return(msgId, code) =>
          if msgId != "" && msgId in returnTags {
            var tag := returnTags[msgId];
            returnTags := returnTags - {msgId};
            tracker.MarkReturned(tag, code);
          }
        case Confirm(tag, ack) => tracker.Settle(tag, false, ack);
        case Closed => tracker.CloseAll();
      }
      log := log + [f];
    }

    /** The demux goroutine at work while the publisher, which started at `start`, is busy
        with `tag`. */
    method Demux(frames: seq<Frame>, ghost start: Book, ghost tag: nat, ghost ids: set<string>)
      requires Ready() && Keeps(start, View(), tag, ids)
      modifies this`returnTags, this`log, tracker
      ensures Ready() && Drifts(old(View()), frames, View()) && Keeps(start, View(), tag, ids)
    {
      assert old(log) + [] == old(log);
      for n := 0 to |frames|
        invariant Ready() && Drifts(old(View()), frames[..n], View())
      {
        DriftNext(old(View()), frames[..n], View(), frames[n]);
        Handle(frames[n]);
        assert frames[..n + 1] == frames[..n] + [frames[n]];
      }
      assert frames[..|frames|] == frames;
      DriftKeeps(start, old(View()), frames, View(), tag, ids);
    }

    /** Stores the return tag and registers the next tag. */
    method Enlist(mandatory: bool, turn: Turn, ghost own: bool, ghost strays: set<string>)
      returns (ok: bool, ghost msg: Msg)
      requires Valid() && Bounded(returnTags, nextSeq, strays) && (!mandatory ==> strays == {})
      modifies this`returnTags, this`log, tracker
      ensures Ready() && Keeps(old(View()), View(), nextSeq, if mandatory then {Id(turn)} else {})
      ensures log == old(log) + turn.beforeRegister && (ok <==> Closed !in log)
      ensures ok ==> Tied(View(), msg) && Named(msg.names, mandatory, turn, strays)
      ensures ok ==> msg.tag == nextSeq && msg.since == |log| && msg.own == own
      ensures !ok ==> nextSeq !in tracker.spec.pending && Bounded(returnTags, nextSeq, strays)
      ensures Bounded(returnTags, nextSeq, strays + if mandatory then {Id(turn)} else {})
      ensures Stores(old(returnTags), returnTags, if mandatory then {Id(turn)} else {}, old(nextSeq))
    {
      ghost var start, ids: set<string> := View(), if mandatory then {Id(turn)} else {};
      if mandatory {
        returnTags := returnTags[Id(turn) := nextSeq];
        StoreKeeps(start, nextSeq, Id(turn));
      }
      Demux(turn.beforeRegister, start, nextSeq, ids);
      NamedOnce(start.tags, returnTags, mandatory, turn, nextSeq, strays);
      ok, msg := Sign(start, ids, own);
      if !ok && mandatory {
        UnstoreKeeps(start, View(), nextSeq, Id(turn));
        returnTags := returnTags - {Id(turn)};
      }
    }

    /** Registers the next tag. */
    method Sign(ghost start: Book, ghost ids: set<string>, ghost own: bool) returns (ok: bool, ghost msg: Msg)
      requires Ready() && Keeps(start, View(), nextSeq, ids)
      modifies tracker
      ensures Ready() && Keeps(start, View(), nextSeq, ids)
      ensures ok <==> Closed !in log
      ensures ok ==> Tied(View(), msg) && msg.names == LeadingTo(returnTags, nextSeq)
      ensures ok ==> msg.tag == nextSeq && msg.since == |log| && msg.own == own
      ensures !ok ==> tracker.spec == old(tracker.spec)
    {
      ghost var b := View();
      msg := Msg(nextSeq, |b.spec.slots|, |log|, LeadingTo(returnTags, nextSeq), own);
      StepKeeps(start, b, Register(nextSeq), nextSeq, ids);
      if !b.spec.closed {
        RegisterTies(b, nextSeq, own);
      }
      ok := tracker.Register(nextSeq);
    }

    /** Writes the message registered as `msg`. */
    method Write(turn: Turn, ghost start: Book, ghost ids: set<string>, ghost msg: Msg) returns (err: Option<Error>)
      requires Ready() && Keeps(start, View(), nextSeq, ids) && Tied(View(), msg)
      requires forall t :: t in tracker.spec.pending ==> t <= nextSeq
      modifies this, tracker
      ensures Valid() && Keeps(start, View(), old(nextSeq), ids) && Fewer(old(returnTags), returnTags)
      ensures err == if turn.writeErr.Some? then Some(ErrWrite(turn.writeErr.value)) else None
      ensures nextSeq == old(nextSeq) + if err.None? then 1 else 0
      ensures log == old(log) + turn.beforeWrite + if err.None? then turn.afterWrite else []
      ensures err.None? ==> Tied(View(), msg)
    {
      var tag := nextSeq;
      Demux(turn.beforeWrite, start, tag, ids);
      if turn.writeErr.Some? {
        Withdraw(tag, start, ids);
        return Some(ErrWrite(turn.writeErr.value));
      }
      nextSeq := nextSeq + 1;
      Demux(turn.afterWrite, start, tag, ids);
      return None;
    }

    /** The write failed. */
    method Withdraw(tag: nat, ghost start: Book, ghost ids: set<string>)
      requires Ready() && Keeps(start, View(), tag, ids)
      modifies tracker
      ensures Ready() && Keeps(start, View(), tag, ids) && tracker.spec.pending == old(tracker.spec).pending - {tag}
    {
      StepKeeps(start, View(), Cancel(tag), tag, ids);
      tracker.Cancel(tag);
    }

    /** Registers and writes one message. */
    method PublishOne(mandatory: bool, turn: Turn, ghost own: bool, ghost strays: set<string>)
      returns (sent: bool, err: Option<Error>, ghost fate: Fate)
      requires Valid() && Bounded(returnTags, nextSeq, strays) && (!mandatory ==> strays == {}) && turn.encodeErr.None?
      modifies this, tracker
      ensures Valid() && Keeps(old(View()), View(), old(nextSeq), if mandatory then {Id(turn)} else {})
      ensures Told(old(log), old(nextSeq), mandatory, own, strays, turn, fate) && log == old(log) + WriteFrames(turn, fate)
      ensures sent == fate.Written? && (sent ==> Tied(View(), fate.msg)) && err == NotWritten(turn, fate)
      ensures nextSeq == old(nextSeq) + if sent then 1 else 0
      ensures Bounded(returnTags, nextSeq, strays + if mandatory && fate.Unwritten? then {Id(turn)} else {})
      ensures Stores(old(returnTags), returnTags, if mandatory then {Id(turn)} else {}, old(nextSeq))
    {
      ghost var start, ids: set<string> := View(), if mandatory then {Id(turn)} else {};
      ghost var msg;
      sent, msg := Enlist(mandatory, turn, own, strays);
      if !sent {
        return false, Some(ErrChannelClosed), Unregistered;
      }
      err := Write(turn, start, ids, msg);
      sent, fate := err.None?, if err.None? then Written(msg) else Unwritten;
    }

    /** The part of Wait that holds the waiter: the verdict, unless the wait is cut short. */
    method Await(waiter: nat, turn: Turn, ghost start: Book, ghost msg: Msg) returns (err: Option<Error>)
      requires Ready() && Tied(View(), msg) && msg.waiter == waiter && Keeps(start, View(), msg.tag, {})
      modifies this`returnTags, this`log, tracker
      ensures Ready() && Keeps(start, View(), msg.tag, {}) && Fewer(old(returnTags), returnTags)
      ensures log == old(log) + turn.whileWaiting
      ensures var v := Heard(msg, log).first;
              Near(err, if !turn.impatient && v.Some? then MapVerdict(v.value) else Some(GaveUp(turn)), msg.own)
      ensures forall t :: t in tracker.spec.pending ==> t in old(tracker.spec).pending
    {
      Demux(turn.whileWaiting, start, msg.tag, {});
      err := Some(GaveUp(turn));
      if !turn.impatient {
        StepKeeps(start, View(), Receive(waiter), msg.tag, {});
        var v := tracker.Receive(waiter);
        if v.Some? {
          err := MapVerdict(v.value);
        }
      }
    }

    /** The end of Wait: the entry is deleted. */
    method Leave(tag: nat, turn: Turn, ghost start: Book)
      requires Ready() && Keeps(start, View(), tag, {})
      modifies this`returnTags, this`log, tracker
      ensures Ready() && Keeps(start, View(), tag, {}) && Fewer(old(returnTags), returnTags)
      ensures log == old(log) + turn.beforeForget && tag !in tracker.spec.pending
      ensures forall t :: t in tracker.spec.pending ==> t in old(tracker.spec).pending
    {
      Demux(turn.beforeForget, start, tag, {});
      StepKeeps(start, View(), Forget(tag), tag, {});
      tracker.Forget(tag);
    }

    /** Wait for one tag, and what it reports. */
    method WaitOne(tag: nat, turn: Turn, ghost msg: Msg) returns (err: Option<Error>)
      requires Valid() && Tied(View(), msg) && msg.tag == tag
      modifies this`returnTags, this`log, tracker
      ensures Valid() && Keeps(old(View()), View(), tag, {}) && Fewer(old(returnTags), returnTags)
      ensures tag !in tracker.spec.pending
      ensures log == WaitedLog(old(log), turn, msg) && Near(err, Report(old(log), turn, msg), msg.own)
    {
      ghost var start := View();
      Demux(turn.beforeWait, start, tag, {});
      TiedGone(View(), msg);
      var id := tracker.Lookup(tag);
      if id.None? {
        return Some(ErrChannelClosed);
      }
      err := Hold(tag, id.value, turn, start, msg);
    }

    /** The rest of Wait, once it has found its entry. */
    method Hold(tag: nat, waiter: nat, turn: Turn, ghost start: Book, ghost msg: Msg) returns (err: Option<Error>)
      requires Ready() && Tied(View(), msg) && msg.waiter == waiter && msg.tag == tag && Keeps(start, View(), tag, {})
      modifies this`returnTags, this`log, tracker
      ensures Ready() && Keeps(start, View(), tag, {}) && Fewer(old(returnTags), returnTags)
      ensures log == old(log) + turn.whileWaiting + turn.beforeForget && tag !in tracker.spec.pending
      ensures var v := Heard(msg, old(log) + turn.whileWaiting).first;
              Near(err, if !turn.impatient && v.Some? then MapVerdict(v.value) else Some(GaveUp(turn)), msg.own)
      ensures forall t :: t in tracker.spec.pending ==> t in old(tracker.spec).pending
    {
      err := Await(waiter, turn, start, msg);
      Leave(tag, turn, start);
    }

    /** One round of step 3; a message that did not encode is passed over. */
    method TakeTurn(mandatory: bool, turn: Turn, encoded: Option<Error>, ghost own: bool, ghost strays: set<string>)
      returns (result: Option<Error>, sent: bool, ghost fate: Fate)
      requires Valid() && Bounded(returnTags, nextSeq, strays) && (!mandatory ==> strays == {})
      requires encoded == if turn.encodeErr.Some? then Some(ErrEncode(turn.encodeErr.value)) else None
      modifies this, tracker
      ensures Valid() && Keeps(old(View()), View(), old(nextSeq), if mandatory then {Id(turn)} else {})
      ensures Told(old(log), old(nextSeq), mandatory, own, strays, turn, fate) && log == old(log) + WriteFrames(turn, fate)
      ensures sent == fate.Written? && (sent ==> Tied(View(), fate.msg)) && result == NotWritten(turn, fate)
      ensures nextSeq == old(nextSeq) + if sent then 1 else 0
      ensures Bounded(returnTags, nextSeq, strays + if mandatory && fate.Unwritten? then {Id(turn)} else {})
      ensures Stores(old(returnTags), returnTags, if mandatory && encoded.None? then {Id(turn)} else {}, old(nextSeq))
    {
      if encoded.Some? {
        assert log + [] == log;
        return encoded, false, Unencoded;
      }
      sent, result, fate := PublishOne(mandatory, turn, own, strays);
    }

    /** A single publish, without retry. */
    method PublishOnce(mandatory: bool, turn: Turn) returns (err: Option<Error>, ghost fate: Fate)
      requires Idle() && turn.encodeErr.None?
      modifies this, tracker
      ensures Idle() && Told(old(log), old(nextSeq), mandatory, true, {}, turn, fate)
      ensures var written := old(log) + WriteFrames(turn, fate);
              if fate.Written? then err == Report(written, turn, fate.msg) && log == WaitedLog(written, turn, fate.msg)
              else err == NotWritten(turn, fate) && log == written
      ensures err.None? <==> Delivered(old(log) + WriteFrames(turn, fate), turn, fate)
      ensures err.None? ==> Confirm(fate.msg.tag, true) in log
      ensures forall t :: t in tracker.spec.pending ==> t < old(nextSeq)
      ensures Fewer(old(returnTags), returnTags) && (mandatory ==> Id(turn) !in returnTags)
    {
      var tag, sent := nextSeq, false;
      sent, err, fate := PublishOne(mandatory, turn, true, {});
      if sent {
        ReportsNilIff(log, turn, fate.msg);
        ReportsPositiveIff(log, turn, fate.msg);
        if Report(log, turn, fate.msg).None? {
          ConfirmHandled(log, turn, fate.msg);
        }
        err := WaitOne(tag, turn, fate.msg);
      }
      if mandatory {
        returnTags := returnTags - {Id(turn)};
      }
    }

    /** Step 3: every encoded message is registered and written, in input order. */
    method PublishAll(mandatory: bool, turns: seq<Turn>, encoded: seq<Option<Error>>)
      returns (results: seq<Option<Error>>, published: seq<Sent>, ghost fates: seq<Fate>)
      requires Idle() && |encoded| == |turns|
      requires forall i :: 0 <= i < |turns| ==>
                 encoded[i] == if turns[i].encodeErr.Some? then Some(ErrEncode(turns[i].encodeErr.value)) else None
      modifies this, tracker
      ensures Valid() && |results| == |turns| == |fates|
      ensures Progress(View(), nextSeq, old(log), old(nextSeq), mandatory, turns, fates, published)
      ensures forall i :: 0 <= i < |turns| ==> results[i] == NotWritten(turns[i], fates[i])
      ensures FewerBut(old(returnTags), returnTags, if mandatory then Ids(turns) else {})
    {
      results, published, fates := encoded, [], [];
      ProgressStart(View(), nextSeq, mandatory, turns);
      for n := 0 to |turns|
        invariant Valid() && |fates| == n
        invariant Progress(View(), nextSeq, old(log), old(nextSeq), mandatory, turns, fates, published)
        invariant NotWrittenTo(turns, fates, encoded, results)
        invariant FewerBut(old(returnTags), returnTags, if mandatory then Ids(turns) else {})
      {
        results, published, fates := NextTurn(mandatory, turns, n, encoded, results, published, old(log), old(nextSeq), fates);
      }
    }

    /** One round of that loop. */
    method NextTurn(mandatory: bool, turns: seq<Turn>, n: nat, encoded: seq<Option<Error>>, results0: seq<Option<Error>>,
                    published0: seq<Sent>, ghost start: seq<Frame>, ghost first: nat, ghost fates0: seq<Fate>)
      returns (results: seq<Option<Error>>, published: seq<Sent>, ghost fates: seq<Fate>)
      requires Valid() && |fates0| == n < |turns| && NotWrittenTo(turns, fates0, encoded, results0)
      requires Progress(View(), nextSeq, start, first, mandatory, turns, fates0, published0)
      requires encoded[n] == if turns[n].encodeErr.Some? then Some(ErrEncode(turns[n].encodeErr.value)) else None
      modifies this, tracker
      ensures Valid() && |fates| == n + 1 && NotWrittenTo(turns, fates, encoded, results)
      ensures Progress(View(), nextSeq, start, first, mandatory, turns, fates, published)
      ensures FewerBut(old(returnTags), returnTags, if mandatory then Ids(turns) else {})
    {
      var tag := nextSeq;
      var result, sent, fate := Proceed(mandatory, turns, n, results0[n], start, first, fates0, published0);
      NotWrittenMore(turns, fates0, encoded, results0, fate);
      results, fates := results0[n := result], fates0 + [fate];
      published := if sent then published0 + [Sent(tag, n)] else published0;
    }

    /** The same, without the lists it keeps. */
    method Proceed(mandatory: bool, turns: seq<Turn>, n: nat, encoded: Option<Error>, ghost start: seq<Frame>, ghost first: nat,
                   ghost fates: seq<Fate>, ghost published: seq<Sent>)
      returns (result: Option<Error>, sent: bool, ghost fate: Fate)
      requires Valid() && Progress(View(), nextSeq, start, first, mandatory, turns, fates, published) && |fates| == n < |turns|
      requires encoded == if turns[n].encodeErr.Some? then Some(ErrEncode(turns[n].encodeErr.value)) else None
      modifies this, tracker
      ensures Valid() && sent == fate.Written? && result == NotWritten(turns[n], fate) && (sent ==> fate.msg.tag == old(nextSeq))
      ensures Progress(View(), nextSeq, start, first, mandatory, turns, fates + [fate], Appended(published, fate, n))
      ensures FewerBut(old(returnTags), returnTags, if mandatory then Ids(turns) else {})
    {
      ghost var b := View();
      result, sent, fate := TakeTurn(mandatory, turns[n], encoded, Apart(mandatory, turns), Strays(mandatory, turns, fates));
      ProgressMore(b, old(nextSeq), View(), start, first, mandatory, turns, fates, published, fate);
    }

    /** Step 4: every written message is waited for, in order. */
    method WaitAll(turns: seq<Turn>, before: seq<Option<Error>>, published: seq<Sent>, ghost fates: seq<Fate>, ghost first: nat)
      returns (results: seq<Option<Error>>)
      requires Valid() && nextSeq == first + |published| && |before| == |turns| == |fates|
      requires AllTied(View(), fates, first) && Lined(fates, published, first)
      requires forall i :: 0 <= i < |turns| ==> before[i] == NotWritten(turns[i], fates[i])
      modifies this`returnTags, this`log, tracker
      ensures Valid() && Waited(View(), old(log), turns, fates, published, first, |published|, results)
      ensures Fewer(old(returnTags), returnTags)
    {
      results := before;
      ghost var start := log;
      WaitedStart(View(), turns, fates, published, first, results);
      for m := 0 to |published|
        invariant Valid() && Waited(View(), start, turns, fates, published, first, m, results)
        invariant Fewer(old(returnTags), returnTags)
      {
        results := NextWait(turns, results, published, m, start, fates, first);
      }
    }

    /** One round of that loop. */
    method NextWait(turns: seq<Turn>, before: seq<Option<Error>>, published: seq<Sent>, m: nat,
                    ghost start: seq<Frame>, ghost fates: seq<Fate>, ghost first: nat)
      returns (results: seq<Option<Error>>)
      requires Valid() && Waited(View(), start, turns, fates, published, first, m, before) && m < |published|
      modifies this`returnTags, this`log, tracker
      ensures Valid() && Waited(View(), start, turns, fates, published, first, m + 1, results)
      ensures Fewer(old(returnTags), returnTags)
    {
      ghost var b := View();
      WaitsFor(b, start, turns, fates, published, first, m, before);
      var idx := published[m].idx;
      var err := WaitOne(published[m].tag, turns[idx], fates[idx].msg);
      WaitedMore(b, View(), start, turns, fates, published, first, m, before, err);
      results := before[idx := err];
    }

    /** Step 4.5: the batch's MessageIDs leave the return map. */
    method Unmap(turns: seq<Turn>)
      modifies this`returnTags
      ensures returnTags == old(returnTags) - Ids(turns)
    {
      for n := 0 to |turns|
        invariant returnTags == old(returnTags) - Ids(turns[..n])
      {
        assert turns[..n + 1] == turns[..n] + [turns[n]];
        assert Ids(turns[..n + 1]) == Ids(turns[..n]) + if turns[n].encodeErr.None? then {Id(turns[n])} else {};
        if turns[n].encodeErr.None? {
          returnTags := returnTags - {Id(turns[n])};
        }
      }
      assert turns[..|turns|] == turns;
    }
  }

  // ------------------------------------------------------------------------------------------
  // The call
  // ------------------------------------------------------------------------------------------

  datatype Options = Options(mandatory: bool, maxSize: int, closed: bool)

  datatype BatchError = ErrBatchTooLarge | ErrInvalidMessage | ErrAlreadyClosed | ErrPartialBatch | ErrNoChannel(detail: nat)

  function MaxSize(o: Options): int
  {
    if o.maxSize <= 0 then 1024 else o.maxSize
  }

  ghost predicate Repeats(turns: seq<Turn>)
  {
    exists i, j :: 0 <= i < j < |turns| && turns[i].given == turns[j].given && turns[i].given != ""
  }

  /** Generated IDs are like no other in the batch. */
  ghost predicate Stamped(turns: seq<Turn>)
  {
    forall i, j :: 0 <= i < |turns| && 0 <= j < |turns| && i != j && turns[i].given == "" ==> turns[i].stamp != Id(turns[j])
  }

  lemma NoRepeatIsDistinct(turns: seq<Turn>)
    requires Stamped(turns) && !Repeats(turns)
    ensures DistinctIds(turns)
  {
    forall i, j | 0 <= i < j < |turns| ensures Id(turns[i]) != Id(turns[j]) {
      assert turns[i].given == "" ==> turns[i].stamp != Id(turns[j]);
      assert turns[j].given == "" ==> turns[j].stamp != Id(turns[i]);
    }
  }

  method HasRepeat(turns: seq<Turn>) returns (dup: bool)
    ensures dup <==> Repeats(turns)
  {
    var seen: set<string> := {};
    for n := 0 to |turns|
      invariant forall id :: id in seen <==> id != "" && exists i :: 0 <= i < n && turns[i].given == id
      invariant forall i, j :: 0 <= i < j < n && turns[i].given == turns[j].given ==> turns[i].given == ""
    {
      var id := turns[n].given;
      if id != "" {
        if id in seen {
          return true;
        }
        seen := seen + {id};
      }
    }
    return false;
  }

  method Encode(turns: seq<Turn>) returns (results: seq<Option<Error>>, allFailed: bool)
    ensures |results| == |turns|
    ensures forall i :: 0 <= i < |turns| ==>
              results[i] == if turns[i].encodeErr.Some? then Some(ErrEncode(turns[i].encodeErr.value)) else None
    ensures allFailed <==> forall i :: 0 <= i < |turns| ==> results[i].Some?
  {
    results, allFailed := [], true;
    for n := 0 to |turns|
      invariant |results| == n
      invariant forall i :: 0 <= i < n ==>
                  results[i] == if turns[i].encodeErr.Some? then Some(ErrEncode(turns[i].encodeErr.value)) else None
      invariant allFailed <==> forall i :: 0 <= i < n ==> results[i].Some?
    {
      results := results + [if turns[n].encodeErr.Some? then Some(ErrEncode(turns[n].encodeErr.value)) else None];
      allFailed := allFailed && turns[n].encodeErr.Some?;
    }
  }

  method AnyFailed(results: seq<Option<Error>>) returns (err: Option<BatchError>)
    ensures err == if exists i :: 0 <= i < |results| && results[i].Some? then Some(ErrPartialBatch) else None
  {
    for n := 0 to |results|
      invariant forall i :: 0 <= i < n ==> results[i].None?
    {
      if results[n].Some? {
        return Some(ErrPartialBatch);
      }
    }
    return None;
  }

  /** Steps 3 to 5, on a channel of the pool. */
  method PublishOn(ch: Channel, mandatory: bool, turns: seq<Turn>, encoded: seq<Option<Error>>)
    returns (results: seq<Option<Error>>, err: Option<BatchError>, ghost fates: seq<Fate>)
    requires ch.Idle() && |encoded| == |turns|
    requires forall i :: 0 <= i < |turns| ==>
               encoded[i] == if turns[i].encodeErr.Some? then Some(ErrEncode(turns[i].encodeErr.value)) else None
    modifies ch, ch.tracker
    ensures ch.Idle()
    // the frames handled are those of the turns, each slot is what they and the failures make it, and
    // it is nil exactly when the message was written and its own tag was confirmed in time
    ensures Answered(old(ch.log), old(ch.nextSeq), mandatory, turns, fates, ch.log, results)
    ensures AllJudged(old(ch.log), mandatory, turns, fates, ch.log, results)
    // tags are used in input order
    ensures forall i, k :: 0 <= i < k < |fates| && fates[i].Written? && fates[k].Written? ==> fates[i].msg.tag < fates[k].msg.tag
    ensures err == if exists i :: 0 <= i < |results| && results[i].Some? then Some(ErrPartialBatch) else None
    // nothing of the batch is left behind
    ensures forall t :: t in ch.tracker.spec.pending ==> t < old(ch.nextSeq)
    ensures Fewer(old(ch.returnTags), ch.returnTags)
    ensures mandatory ==> ch.returnTags.Keys !! Ids(turns)
  {
    var published;
    results, published, fates := ch.PublishAll(mandatory, turns, encoded);
    ghost var first, b, next := old(ch.nextSeq), ch.View(), ch.nextSeq;
    results := ch.WaitAll(turns, results, published, fates, first);
    BothSteps(b, next, ch.View(), old(ch.log), first, mandatory, turns, fates, published, results);
    if mandatory {
      ch.Unmap(turns);
    }
    err := AnyFailed(results);
  }

  /** The whole call. `channel` is the channel the pool hands out, or why there is none. */
  method PublishBatch(o: Options, turns: seq<Turn>, channel: Channel, noChannel: Option<nat>)
    returns (results: Option<seq<Option<Error>>>, err: Option<BatchError>, ghost fates: seq<Fate>)
    requires channel.Idle()
    modifies channel, channel.tracker
    ensures channel.Idle()
    ensures results.None? ==>
              unchanged(channel) && unchanged(channel.tracker) &&
              if turns == [] then err == None
              else if |turns| > MaxSize(o) then err == Some(ErrBatchTooLarge)
              else if o.mandatory && Repeats(turns) then err == Some(ErrInvalidMessage)
              else if o.closed then err == Some(ErrAlreadyClosed)
              else noChannel.Some? && err == Some(ErrNoChannel(noChannel.value))
    ensures results.Some? ==>
              && 0 < |turns| <= MaxSize(o) && !(o.mandatory && Repeats(turns))
              && Answered(old(channel.log), old(channel.nextSeq), o.mandatory, turns, fates, channel.log, results.value)
              && AllJudged(old(channel.log), o.mandatory, turns, fates, channel.log, results.value)
              && (o.mandatory && Stamped(turns) ==> DistinctIds(turns))
              && (err == if forall i :: 0 <= i < |turns| ==> results.value[i].None? then None else Some(ErrPartialBatch))
    ensures forall t :: t in channel.tracker.spec.pending ==> t < old(channel.nextSeq)
    ensures Fewer(old(channel.returnTags), channel.returnTags)
    ensures o.mandatory && results.Some? ==> channel.returnTags.Keys !! Ids(turns)
  {
    fates := [];
    if turns == [] {
      return None, None, [];
    }
    if |turns| > MaxSize(o) {
      return None, Some(ErrBatchTooLarge), [];
    }
    if o.mandatory {
      var dup := HasRepeat(turns);
      if dup {
        return None, Some(ErrInvalidMessage), [];
      }
      if Stamped(turns) {
        NoRepeatIsDistinct(turns);
      }
    }
    if o.closed {
      return None, Some(ErrAlreadyClosed), [];
    }
    var encoded, allFailed := Encode(turns);
    if allFailed {
      fates := seq(|turns|, i => Unencoded);
      NothingSent(channel.log, channel.nextSeq, o.mandatory, turns, fates, encoded);
      assert encoded[0].Some?;
      return Some(encoded), Some(ErrPartialBatch), fates;
    }
    if noChannel.Some? {
      return None, Some(ErrNoChannel(noChannel.value)), [];
    }
    var out;
    out, err, fates := PublishOn(channel, o.mandatory, turns, encoded);
    results := Some(out);
  }
}
