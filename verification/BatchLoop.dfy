/** The batch consume loop against the broker's view of its channels: which deliveries a
    multiple=true frame on a batch's highest tag settles.  Tags ascend from 1 on each channel;
    adopting a new channel drops what was pending from the old one.

    A batch emits its frame at most once (module BatchVerdict), while it is handled or later: a
    goroutine the handler left behind may emit when other batches are under way, or when the
    loop has moved on to another channel.
  */
module BatchLoop {
  /** A delivery is settled on the channel it came on. */
  datatype Delivery = Delivery(chan: nat, tag: nat)

  /** A frame of batch `index`: the channel and whether the broker still had it, the tags it settled
      there, the batch, the batches that had emitted before, the first batch of the loop's channel,
      and the tags of the frame's channel nacked on their own. */
  datatype Sweep = Sweep(index: nat, chan: nat, live: bool, swept: set<nat>, batch: seq<Delivery>, before: set<nat>,
                         start: nat, single: set<nat>)

  /** A channel: how many deliveries the broker sent on it, which of them it has settled, and which
      the loop nacked on their own. */
  datatype Chan = Chan(delivered: nat, settled: set<nat>, single: set<nat>)

  /** `dead` says whether the broker has lost the last of the channels. The loop reads channel `cur`.
      `batches`, `emitted` and `sweeps` are history. `start` is how many batches were closed before
      `cur` was adopted; since then, `marks` says how far the loop had taken deliveries when each
      batch was closed and `turn` how many batches the frames have settled. */
  datatype State = State(
    chans: seq<Chan>, dead: bool,
    cur: nat, taken: nat, pending: seq<Delivery>, handling: bool,
    batches: seq<seq<Delivery>>, start: nat, marks: seq<nat>, turn: nat, emitted: set<nat>,
    sweeps: seq<Sweep>)

  const INIT: State := State([Chan(0, {}, {})], false, 0, 0, [], false, [], 0, [0], 0, {}, [])

  datatype Action =
    | Deliver
    | TakeGood
    | TakeBad               // cannot be decoded, or bounced too often: nacked on its own
    | BeginFlush            // full, timer, or shutdown
    | Emit(b: nat)
    | EndFlush
    | ChannelDies
    | Resubscribe           // on a new channel
    | Adopt                 // the loop turns to it

  function TagSet(ds: seq<Delivery>): set<nat>
  {
    set d | d in ds :: d.tag
  }

  /** The first delivery with the largest tag. */
  function Highest(ds: seq<Delivery>): Delivery
    requires ds != []
  {
    var n := |ds| - 1;
    if n == 0 then ds[0]
    else
      var h := Highest(ds[..n]);
      if ds[n].tag > h.tag then ds[n] else h
  }

  lemma {:induction false} HighestBounds(ds: seq<Delivery>)
    requires ds != []
    ensures Highest(ds) in ds && forall d | d in ds :: d.tag <= Highest(ds).tag
  {
    var n := |ds| - 1;
    assert ds == ds[..n] + [ds[n]];
    if n > 0 {
      HighestBounds(ds[..n]);
    }
  }

  predicate Live(s: State, chan: nat)
  {
    chan == |s.chans| - 1 && !s.dead
  }

  /** The unsettled deliveries up to `tag`: what the broker settles on a multiple=true frame. */
  function Covered(c: Chan, tag: nat): set<nat>
  {
    set t | 1 <= t <= tag && t <= c.delivered && t !in c.settled
  }

  function Settle(s: State, chan: nat, tags: set<nat>): State
    requires chan < |s.chans|
  {
    s.(chans := s.chans[chan := s.chans[chan].(settled := s.chans[chan].settled + tags)])
  }

  /** Batch `b` emits its frame, on the channel of its highest delivery. */
  function Emitted(s: State, b: nat): State
    requires b < |s.batches| && s.batches[b] != []
  {
    var top := Highest(s.batches[b]);
    var turn := if s.start <= b && s.turn <= b - s.start then b - s.start + 1 else s.turn;
    var swept := if Live(s, top.chan) then Covered(s.chans[top.chan], top.tag) else {};
    var single := if top.chan < |s.chans| then s.chans[top.chan].single else {};
    (if Live(s, top.chan) then Settle(s, top.chan, swept) else s).(
      emitted := s.emitted + {b}, turn := turn,
      sweeps := s.sweeps + [Sweep(b, top.chan, Live(s, top.chan), swept, s.batches[b], s.emitted, s.start, single)])
  }

  /** The delivery the loop reads next is nacked on its own. */
  function NackNext(s: State, c: Chan): State
    requires s.cur < |s.chans|
  {
    var t := s.taken + 1;
    s.(taken := t,
       chans := s.chans[s.cur := c.(single := c.single + {t}, settled := if Live(s, s.cur) then c.settled + {t} else c.settled)])
  }

  function Next(size: nat, s: State, a: Action): State
  {
    if s.cur >= |s.chans| then s
    else
      var c, last := s.chans[s.cur], |s.chans| - 1;
      match a
      case Deliver => if s.dead then s else s.(chans := s.chans[last := s.chans[last].(delivered := s.chans[last].delivered + 1)])
      case TakeGood =>
        if s.handling || s.taken >= c.delivered || |s.pending| >= size then s
        else s.(taken := s.taken + 1, pending := s.pending + [Delivery(s.cur, s.taken + 1)])
      case TakeBad => if s.handling || s.taken >= c.delivered then s else NackNext(s, c)
      case BeginFlush =>
        if s.handling || s.pending == [] then s
        else s.(batches := s.batches + [s.pending], marks := s.marks + [s.taken], pending := [], handling := true)
      case Emit(b) => if b >= |s.batches| || b in s.emitted || s.batches[b] == [] then s else Emitted(s, b)
      case EndFlush => s.(handling := false)
      case ChannelDies => s.(dead := true)
      case Resubscribe => if !s.dead then s else s.(chans := s.chans + [Chan(0, {}, {})], dead := false)
      case Adopt =>
        if s.handling || s.cur == last then s
        else s.(cur := last, taken := 0, pending := [], start := |s.batches|, marks := [0], turn := 0)
  }

  function Run(size: nat, actions: seq<Action>): State
  {
    if actions == [] then INIT else Next(size, Run(size, actions[..|actions| - 1]), actions[|actions| - 1])
  }

  /** It is the turn of batch `b` of a channel whose first batch is `start`: the batch before has
      emitted, and neither it nor a later one. */
  predicate InTurn(b: nat, start: nat, emitted: set<nat>)
  {
    (b > start ==> b - 1 in emitted) && forall e | e in emitted :: e < b
  }

  predicate AllOn(ds: seq<Delivery>, chan: nat)
  {
    forall i :: 0 <= i < |ds| ==> ds[i].chan == chan
  }

  /** The tags of the loop's channel after `from` up to `upto` that were not nacked on their own. */
  function Between(s: State, from: nat, upto: nat): set<nat>
    requires s.cur < |s.chans|
  {
    set t | from < t <= upto && t !in s.chans[s.cur].single
  }

  ghost predicate Shape(s: State)
  {
    && s.cur < |s.chans| && s.taken <= s.chans[s.cur].delivered && s.start <= |s.batches|
    && |s.marks| == |s.batches| - s.start + 1 && s.marks[0] == 0
    && (forall a, b :: 0 <= a <= b < |s.marks| ==> s.marks[a] <= s.marks[b] <= s.taken)
    && (forall t | t in s.chans[s.cur].single :: 1 <= t <= s.taken)
    && (forall e | e in s.emitted :: e < |s.batches|)
    && (forall c :: s.cur < c < |s.chans| ==> s.chans[c].settled == {} && s.chans[c].single == {})
  }

  /** Batch `b` holds deliveries of one channel: of an earlier one, or those taken from the loop's
      channel while the batch was open. */
  ghost predicate BatchOk(s: State, b: nat)
    requires Shape(s) && b < |s.batches|
  {
    && s.batches[b] != []
    && (b < s.start ==> exists c: nat :: c < s.cur && AllOn(s.batches[b], c))
    && (s.start <= b ==>
          AllOn(s.batches[b], s.cur) && TagSet(s.batches[b]) == Between(s, s.marks[b - s.start], s.marks[b - s.start + 1]))
  }

  ghost predicate Partition(s: State)
    requires Shape(s)
  {
    && (forall b: nat :: b < |s.batches| ==> BatchOk(s, b))
    && AllOn(s.pending, s.cur) && TagSet(s.pending) == Between(s, s.marks[|s.marks| - 1], s.taken)
  }

  /** While the loop's channel lives, the single nacks on it are settled and the batches before
      `turn`, no others. */
  ghost predicate SettledTo(s: State)
    requires Shape(s)
  {
    && s.turn < |s.marks| && s.chans[s.cur].settled == s.chans[s.cur].single + Between(s, 0, s.marks[s.turn])
    && (s.turn > 0 ==> s.start + s.turn - 1 in s.emitted) && (forall e | e in s.emitted :: e < s.start + s.turn)
  }

  /** A frame goes to the channel of its whole batch. If the broker has lost that channel it settles
      nothing. Otherwise it settles exactly its batch in its turn and something else out of turn; it
      misses part of its batch only if a later batch's frame came first; and it never settles what
      was nacked on its own. */
  predicate Exact(w: Sweep)
  {
    && AllOn(w.batch, w.chan)
    && (!w.live ==> w.swept == {})
    && (w.live ==>
          && (w.swept == TagSet(w.batch) <==> InTurn(w.index, w.start, w.before))
          && (TagSet(w.batch) <= w.swept <==> forall e | e in w.before :: e < w.index)
          && w.swept !! w.single)
  }

  ghost predicate Inv(s: State)
  {
    && Shape(s) && Partition(s)
    && (Live(s, s.cur) ==> SettledTo(s))
    && (forall i :: 0 <= i < |s.sweeps| ==> Exact(s.sweeps[i]))
  }

  lemma TagSetAt(ds: seq<Delivery>, i: nat)
    requires i < |ds|
    ensures ds[i].tag in TagSet(ds)
  {
  }

  /** What the broker settles on a frame of batch `b` are the batches from the first unsettled one
      up to `b`. */
  lemma SweepIsExact(s: State, b: nat)
    requires Shape(s) && Partition(s) && SettledTo(s) && s.start <= b < |s.batches|
    ensures s.batches[b] != [] && Highest(s.batches[b]).chan == s.cur
    ensures Covered(s.chans[s.cur], Highest(s.batches[b]).tag) ==
            if s.turn <= b - s.start then Between(s, s.marks[s.turn], s.marks[b - s.start + 1]) else {}
  {
    assert BatchOk(s, b);
    HighestBounds(s.batches[b]);
    var top, k := Highest(s.batches[b]).tag, b - s.start;
    assert top in TagSet(s.batches[b]);
    var goal := if s.turn <= k then Between(s, s.marks[s.turn], s.marks[k + 1]) else {};
    forall t ensures t in Covered(s.chans[s.cur], top) <==> t in goal {
      if t in goal {
        if s.marks[k] < t {
          assert t in TagSet(s.batches[b]);
        }
      } else if s.turn <= k {
        assert t in Between(s, 0, s.marks[s.turn]) || t in s.chans[s.cur].single || t <= 0 || s.marks[k + 1] < t;
      } else {
        assert s.marks[k + 1] <= s.marks[s.turn];
      }
    }
  }

  /** Which batches those are: batch `b` alone exactly in its turn. */
  lemma SweptIff(s: State, b: nat)
    requires Shape(s) && Partition(s) && SettledTo(s) && s.start <= b < |s.batches| && b !in s.emitted
    ensures s.batches[b] != [] && Highest(s.batches[b]).chan == s.cur
    ensures var swept := Covered(s.chans[s.cur], Highest(s.batches[b]).tag);
            && (swept == TagSet(s.batches[b]) <==> InTurn(b, s.start, s.emitted))
            && (TagSet(s.batches[b]) <= swept <==> forall e | e in s.emitted :: e < b)
            && swept !! s.chans[s.cur].single
  {
    SweepIsExact(s, b);
    assert BatchOk(s, b);
    var k := b - s.start;
    if s.turn < k {
      var first := s.batches[s.start + s.turn];
      assert BatchOk(s, s.start + s.turn);
      TagSetAt(first, 0);
      assert first[0].tag <= s.marks[s.turn + 1] <= s.marks[k];
    } else {
      TagSetAt(s.batches[b], 0);
    }
  }

  /** The channel of a batch's frame. */
  lemma FrameChannel(s: State, b: nat)
    requires Shape(s) && Partition(s) && b < |s.batches|
    ensures s.batches[b] != []
    ensures var chan := Highest(s.batches[b]).chan;
            AllOn(s.batches[b], chan) && chan <= s.cur && (chan == s.cur <==> s.start <= b)
  {
    assert BatchOk(s, b);
    HighestBounds(s.batches[b]);
    var h := Highest(s.batches[b]);
    var i :| 0 <= i < |s.batches[b]| && s.batches[b][i] == h;
  }

  /** A frame of a batch from a channel the loop has left settles nothing anywhere. */
  lemma OldFrameSettlesNothing(size: nat, s: State, b: nat)
    requires Inv(s) && b < s.start
    ensures Next(size, s, Emit(b)).chans == s.chans
  {
    FrameChannel(s, b);
  }

  lemma EmitSettles(s: State, b: nat)
    requires Shape(s) && Partition(s) && Live(s, s.cur) && SettledTo(s) && s.start <= b < |s.batches| && s.batches[b] != []
    ensures Shape(Emitted(s, b)) && SettledTo(Emitted(s, b))
  {
    SweepIsExact(s, b);
  }

  lemma EmitShapes(s: State, b: nat)
    requires Shape(s) && Partition(s) && b < |s.batches| && s.batches[b] != []
    ensures Shape(Emitted(s, b)) && Partition(Emitted(s, b))
  {
    FrameChannel(s, b);
    var r := Emitted(s, b);
    forall c: nat | c < |s.batches| ensures BatchOk(r, c) { assert BatchOk(s, c); }
  }

  lemma EmitKeeps(size: nat, s: State, b: nat)
    requires Inv(s)
    ensures Inv(Next(size, s, Emit(b)))
  {
    if b < |s.batches| && b !in s.emitted {
      FrameChannel(s, b);
      EmitShapes(s, b);
      if Live(s, s.cur) && s.start <= b {
        SweptIff(s, b);
        EmitSettles(s, b);
      }
    }
  }

  /** A closed batch does not notice what is taken after it. */
  lemma TakeKeepsBatch(size: nat, s: State, a: Action, b: nat)
    requires Inv(s) && (a.TakeGood? || a.TakeBad?) && b < |s.batches|
    ensures Shape(Next(size, s, a)) && BatchOk(Next(size, s, a), b)
  {
    var r := Next(size, s, a);
    assert BatchOk(s, b);
    if s.start <= b {
      var from, upto := s.marks[b - s.start], s.marks[b - s.start + 1];
      assert Between(r, from, upto) == Between(s, from, upto);
    }
  }

  lemma TakeShapes(size: nat, s: State, a: Action)
    requires Inv(s) && (a.TakeGood? || a.TakeBad?)
    ensures Shape(Next(size, s, a)) && Partition(Next(size, s, a))
  {
    var r := Next(size, s, a);
    forall b: nat | b < |s.batches| ensures Shape(r) && BatchOk(r, b) {
      TakeKeepsBatch(size, s, a, b);
    }
    if r != s {
      assert TagSet(r.pending) == TagSet(s.pending) + if a.TakeGood? then {r.taken} else {};
      var from := s.marks[|s.marks| - 1];
      assert Between(r, from, r.taken) == Between(s, from, s.taken) + if a.TakeGood? then {r.taken} else {};
    }
  }

  lemma TakeKeeps(size: nat, s: State, a: Action)
    requires Inv(s) && (a.TakeGood? || a.TakeBad?)
    ensures Inv(Next(size, s, a))
  {
    var r := Next(size, s, a);
    TakeShapes(size, s, a);
    if Live(s, s.cur) {
      assert Between(r, 0, r.marks[r.turn]) == Between(s, 0, s.marks[s.turn]);
    }
  }

  lemma FlushKeeps(size: nat, s: State)
    requires Inv(s)
    ensures Inv(Next(size, s, BeginFlush))
  {
    var r := Next(size, s, BeginFlush);
    forall b: nat | b < |r.batches| ensures BatchOk(r, b) {
      if b < |s.batches| {
        assert BatchOk(s, b);
      }
    }
  }

  lemma AdoptKeeps(size: nat, s: State)
    requires Inv(s)
    ensures Inv(Next(size, s, Adopt))
  {
    var r := Next(size, s, Adopt);
    forall b: nat | b < |r.batches| ensures BatchOk(r, b) {
      assert BatchOk(s, b);
      if s.start <= b && r != s {
        assert s.cur < r.cur && AllOn(r.batches[b], s.cur);
      }
    }
  }

  lemma ChannelKeepsBatch(size: nat, s: State, a: Action, b: nat)
    requires Inv(s) && (a.Deliver? || a.ChannelDies? || a.Resubscribe? || a.EndFlush?) && b < |s.batches|
    ensures Shape(Next(size, s, a)) && BatchOk(Next(size, s, a), b)
  {
    assert BatchOk(s, b);
  }

  lemma ChannelKeeps(size: nat, s: State, a: Action)
    requires Inv(s) && (a.Deliver? || a.ChannelDies? || a.Resubscribe? || a.EndFlush?)
    ensures Inv(Next(size, s, a))
  {
    var r := Next(size, s, a);
    forall b: nat | b < |s.batches| ensures Shape(r) && BatchOk(r, b) {
      ChannelKeepsBatch(size, s, a, b);
    }
  }

  lemma NextKeeps(size: nat, s: State, a: Action)
    requires Inv(s)
    ensures Inv(Next(size, s, a))
  {
    match a
    case Emit(b) => EmitKeeps(size, s, b);
    case TakeGood => TakeKeeps(size, s, a);
    case TakeBad => TakeKeeps(size, s, a);
    case BeginFlush => FlushKeeps(size, s);
    case Adopt => AdoptKeeps(size, s);
    case _ => ChannelKeeps(size, s, a);
  }

  lemma {:induction false} Always(size: nat, actions: seq<Action>)
    ensures Inv(Run(size, actions))
  {
    if actions != [] {
      Always(size, actions[..|actions| - 1]);
      NextKeeps(size, Run(size, actions[..|actions| - 1]), actions[|actions| - 1]);
    }
  }

  /** On every run a batch holds deliveries of one channel, and its frame goes to that channel. On
      a channel the broker still has, the frame settles exactly the deliveries of its batch if and
      only if it is emitted in its batch's turn, whenever that is; it misses some of its batch if and
      only if a later batch's frame came first; it never touches a delivery nacked on its own. On
      any other channel it settles nothing. */
  lemma FrameSettlesItsBatch(size: nat, actions: seq<Action>, w: Sweep)
    requires w in Run(size, actions).sweeps
    ensures AllOn(w.batch, w.chan)
    ensures w.live ==> (w.swept == TagSet(w.batch) <==> InTurn(w.index, w.start, w.before))
    ensures w.live ==> (TagSet(w.batch) <= w.swept <==> forall e | e in w.before :: e < w.index)
    ensures w.live ==> w.swept !! w.single
    ensures !w.live ==> w.swept == {}
  {
    Always(size, actions);
  }

  /** On every run, a late frame of a batch from a channel the loop has left leaves every channel
      as it was, the new one included. */
  lemma LateFrameIsLost(size: nat, actions: seq<Action>, b: nat)
    requires b < Run(size, actions).start
    ensures Next(size, Run(size, actions), Emit(b)).chans == Run(size, actions).chans
  {
    Always(size, actions);
    OldFrameSettlesNothing(size, Run(size, actions), b);
  }
}
