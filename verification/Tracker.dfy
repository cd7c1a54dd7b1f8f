/** The tracker as it is built: the pending map beside an ascending index of tags with a
    low-water mark, so that a multiple=true frame walks the index instead of the map.
    The ghost field `spec` is the plain map of module ConfirmSpec; `Valid` couples the two.
  */
module ConfirmTracker {
  import opened ConfirmSpec
  import opened Optional

  const COMPACT_MIN_PREFIX := 64

  /** `done` is the waiter's one-place buffer. */
  datatype Waiter = Waiter(done: Option<Verdict>, returned: bool, returnCode: nat)

  datatype Out = Done | Refused | Found(id: nat) | NotFound | Got(verdict: Option<Verdict>)

  ghost predicate Sorted(s: seq<nat>)
  {
    forall i, j :: 0 <= i < j < |s| ==> s[i] <= s[j]
  }

  /** `t` is in the live part of the index. */
  ghost predicate InWindow(order: seq<nat>, head: nat, t: nat)
  {
    exists i :: head <= i < |order| && order[i] == t
  }

  function InsertAt(s: seq<nat>, idx: nat, tag: nat): (r: seq<nat>)
    requires idx <= |s|
    ensures |r| == |s| + 1
  {
    s[..idx] + [tag] + s[idx..]
  }

  /** The buffers hold the latched verdicts, except for waiters already received from. */
  ghost predicate Coupled(spec: Spec, pending: map<nat, nat>, waiters: seq<Waiter>, closed: bool)
  {
    && WellFormed(spec)
    && closed == spec.closed
    && |waiters| == |spec.slots|
    && (forall i :: 0 <= i < |waiters| && i !in spec.taken ==>
          && waiters[i].returned == spec.slots[i].returned
          && waiters[i].returnCode == spec.slots[i].returnCode
          && waiters[i].done == spec.slots[i].first)
    && (forall t :: t in pending ==> t in spec.pending && pending[t] == spec.pending[t])
    && (forall t :: t in spec.pending && t !in pending ==> spec.pending[t] in spec.taken)
  }

  /** Every tag that still waits for its verdict is in the live part of the index. */
  ghost predicate Indexed(spec: Spec, order: seq<nat>, head: nat)
  {
    && head <= |order|
    && Sorted(order)
    && (forall t :: Awaited(spec, t) ==> InWindow(order, head, t))
  }

  /** `tag` has an entry without a verdict. */
  predicate Awaited(spec: Spec, tag: nat)
  {
    tag in spec.pending && Unresolved(spec, spec.pending[tag])
  }

  ghost predicate Fits(s: seq<nat>, idx: nat, tag: nat)
  {
    && idx <= |s|
    && (forall i :: 0 <= i < idx ==> s[i] <= tag)
    && (forall i :: idx <= i < |s| ==> tag <= s[i])
  }

  /** Inserting a tag where it fits keeps the order, and puts the tag in the window when the
      window starts no later than before and no later than the tag. */
  lemma InsertIndexes(spec: Spec, s: seq<nat>, head: nat, idx: nat, tag: nat, newHead: nat)
    requires Sorted(s) && Fits(s, idx, tag)
    requires forall t :: Awaited(spec, t) && t != tag ==> InWindow(s, head, t)
    requires newHead <= idx && newHead <= head
    ensures Indexed(spec, InsertAt(s, idx, tag), newHead)
    ensures InsertAt(s, idx, tag)[|s|] == if idx == |s| then tag else s[|s| - 1]
  {
    var r := InsertAt(s, idx, tag);
    assert r[idx] == tag;
    forall t | Awaited(spec, t) ensures InWindow(r, newHead, t) {
      if t != tag {
        assert InWindow(s, head, t);
        var i :| head <= i < |s| && s[i] == t;
        assert r[if i < idx then i else i + 1] == t;
      }
    }
  }

  /** Where `tag` goes in ascending `s`: the first place not below it. */
  method BinarySearch(s: seq<nat>, tag: nat) returns (idx: nat)
    requires Sorted(s)
    ensures Fits(s, idx, tag)
    ensures forall i :: 0 <= i < idx ==> s[i] < tag
  {
    var hi := |s|;
    idx := 0;
    while idx < hi
      invariant idx <= hi <= |s|
      invariant forall i :: 0 <= i < idx ==> s[i] < tag
      invariant forall i :: hi <= i < |s| ==> tag <= s[i]
    {
      var mid := (idx + hi) / 2;
      if s[mid] < tag { idx := mid + 1; } else { hi := mid; }
    }
  }

  /** The index with `tag` in its place, and where its live part then starts. */
  method Placed(order: seq<nat>, head: nat, tag: nat, ghost spec: Spec) returns (r: seq<nat>, h: nat)
    requires head <= |order| && Sorted(order)
    requires forall t :: Awaited(spec, t) && t != tag ==> InWindow(order, head, t)
    ensures Indexed(spec, r, h) && h <= head && |r| == |order| + 1
    ensures order == [] || order[|order| - 1] < tag ==> h == head
    ensures r[|order|] == if order == [] || order[|order| - 1] < tag then tag else order[|order| - 1]
  {
    var n := |order|;
    if n == 0 || tag > order[n - 1] {
      InsertIndexes(spec, order, head, n, tag, head);
      assert InsertAt(order, n, tag) == order + [tag];
      return order + [tag], head;
    }
    var idx := BinarySearch(order, tag);
    h := if idx < head then idx else head;
    InsertIndexes(spec, order, head, idx, tag, h);
    r := InsertAt(order, idx, tag);
  }

  function ClosedAt(s: Spec, tag: nat): (r: Spec)
    requires WellFormed(s)
    ensures WellFormed(r)
  {
    if tag !in s.pending then s
    else s.(slots := s.slots[s.pending[tag] := Latch(s.slots[s.pending[tag]], ChannelClosed)])
  }

  lemma CancelSplits(s: Spec, tag: nat)
    requires WellFormed(s)
    ensures Step(s, Cancel(tag)) == ClosedAt(s, tag).(pending := s.pending - {tag})
  {
    if tag !in s.pending {
      assert s.pending - {tag} == s.pending;
    }
  }

  lemma CancelIndexes(s: Spec, order: seq<nat>, head: nat, tag: nat)
    requires WellFormed(s) && Indexed(s, order, head)
    ensures Indexed(Step(s, Cancel(tag)), order, head)
  {
    forall t | Awaited(Step(s, Cancel(tag)), t) ensures InWindow(order, head, t) {
      assert Awaited(s, t);
    }
  }

  class Tracker {
    var pending: map<nat, nat>
    var waiters: seq<Waiter>
    var order: seq<nat>
    var head: nat
    var closed: bool

    ghost var spec: Spec
    // What the index has cost so far: registrations, forward moves of head, places head
    // was pulled back, entries cut off the front, and entries copied while cutting.
    ghost var registered: nat
    ghost var moved: nat
    ghost var pulledBack: nat
    ghost var cut: nat
    ghost var copied: nat
    ghost var highest: nat

    ghost predicate Costed()
      reads this
    {
      && registered == cut + |order|
      && moved == cut + head + pulledBack
      && copied <= cut
      && (order != [] ==> order[|order| - 1] <= highest)
    }

    ghost predicate Valid()
      reads this
    {
      Coupled(spec, pending, waiters, closed) && Indexed(spec, order, head) && Costed()
    }

    /** The index is at most 64 longer than its live part, or at most twice as long. */
    ghost predicate Compact()
      reads this
    {
      |order| <= (|order| - head) + COMPACT_MIN_PREFIX || |order| <= 2 * (|order| - head)
    }

    constructor ()
      ensures Valid() && spec == EMPTY
      ensures registered == 0 && moved == 0 && pulledBack == 0 && copied == 0 && highest == 0
    {
      pending, waiters, order, head, closed := map[], [], [], 0, false;
      spec := EMPTY;
      registered, moved, pulledBack, cut, copied, highest := 0, 0, 0, 0, 0, 0;
    }

    method Register(tag: nat) returns (ok: bool)
      requires Valid()
      modifies this
      ensures Valid() && spec == Step(old(spec), ConfirmSpec.Register(tag))
      ensures ok == !old(spec).closed
      ensures ok ==> Compact()
      ensures registered == old(registered) + if ok then 1 else 0
      ensures ok && (old(registered) == 0 || old(highest) < tag) ==>
                highest == tag && pulledBack == old(pulledBack)
      ensures !ok ==> highest == old(highest) && pulledBack == old(pulledBack)
    {
      if closed {
        return false;
      }
      AddWaiter(tag);
      OrderInsert(tag);
      AdvanceLowWater();
      return true;
    }

    method AddWaiter(tag: nat)
      requires Valid() && !closed
      modifies this`pending, this`waiters, this`spec
      ensures spec == Step(old(spec), ConfirmSpec.Register(tag))
      ensures Coupled(spec, pending, waiters, closed)
      ensures forall t :: Awaited(spec, t) && t != tag ==> InWindow(order, head, t)
    {
      pending := pending[tag := |waiters|];
      waiters := waiters + [Waiter(None, false, 0)];
      spec := Step(spec, ConfirmSpec.Register(tag));
    }

    method MarkReturned(tag: nat, code: nat)
      requires Valid()
      modifies this`waiters, this`spec
      ensures Valid() && spec == Step(old(spec), ConfirmSpec.MarkReturned(tag, code))
    {
      if tag in pending {
        var id := pending[tag];
        waiters := waiters[id := waiters[id].(returned := true, returnCode := code)];
      }
      spec := Step(spec, ConfirmSpec.MarkReturned(tag, code));
    }

    /** Ack and Nack. */
    method Settle(tag: nat, multiple: bool, ack: bool)
      requires Valid()
      modifies this
      ensures Valid() && spec == Step(old(spec), ConfirmSpec.Settle(tag, multiple, ack))
      ensures multiple ==> Compact()
      ensures registered == old(registered) && highest == old(highest) && pulledBack == old(pulledBack)
    {
      if multiple {
        ResolveUpTo(tag, ack);
      } else {
        ResolveOne(tag, ack);
      }
    }

    method CloseAll()
      requires Valid()
      modifies this`closed, this`pending, this`waiters, this`spec
      ensures Valid() && spec == Step(old(spec), ConfirmSpec.CloseAll)
    {
      closed := true;
      CloseEach();
      ClosedCouples(spec, old(pending), old(waiters), pending, waiters);
      NoneAwaited(spec);
      spec := Step(spec, ConfirmSpec.CloseAll);
    }

    /** The loop of CloseAll. */
    method CloseEach()
      requires ClosedExcept(pending, waiters, pending.Keys, pending, waiters)
      modifies this`pending, this`waiters
      ensures ClosedExcept(old(pending), old(waiters), {}, pending, waiters)
    {
      var todo := pending.Keys;
      while todo != {}
        invariant ClosedExcept(old(pending), old(waiters), todo, pending, waiters)
        decreases |todo|
      {
        var t :| t in todo;
        var id := pending[t];
        ClosedOneMore(old(pending), old(waiters), todo, pending, waiters, t);
        if waiters[id].done.None? {
          waiters := waiters[id := waiters[id].(done := Some(ChannelClosed))];
          pending := pending - {t};
        }
        todo := todo - {t};
      }
    }

    method Cancel(tag: nat)
      requires Valid()
      modifies this`pending, this`waiters, this`spec
      ensures Valid() && spec == Step(old(spec), ConfirmSpec.Cancel(tag))
    {
      ghost var s := spec;
      CloseOne(tag);
      Drop(tag);
      CancelSplits(s, tag);
      CancelIndexes(s, order, head, tag);
    }

    /** The entry goes. */
    method Drop(tag: nat)
      requires Coupled(spec, pending, waiters, closed)
      modifies this`pending, this`spec
      ensures Coupled(spec, pending, waiters, closed)
      ensures spec == old(spec).(pending := old(spec).pending - {tag})
    {
      pending := pending - {tag};
      spec := spec.(pending := spec.pending - {tag});
    }

    /** The verdict that Cancel leaves. */
    method CloseOne(tag: nat)
      requires Coupled(spec, pending, waiters, closed)
      modifies this`waiters, this`spec
      ensures Coupled(spec, pending, waiters, closed) && spec == ClosedAt(old(spec), tag)
    {
      if tag in pending && waiters[pending[tag]].done.None? {
        var id := pending[tag];
        waiters := waiters[id := waiters[id].(done := Some(ChannelClosed))];
      }
      spec := ClosedAt(spec, tag);
    }

    /** First part of Wait. */
    method Lookup(tag: nat) returns (id: Option<nat>)
      requires Valid()
      ensures id.Some? ==> tag in spec.pending && id.value == spec.pending[tag]
      ensures id.None? ==> tag in spec.pending ==> spec.pending[tag] in spec.taken
    {
      id := if tag in pending then Some(pending[tag]) else None;
    }

    /** Second part of Wait: take the verdict out of the buffer, if there is one. */
    method Receive(id: nat) returns (v: Option<Verdict>)
      requires Valid()
      modifies this`waiters, this`spec
      ensures Valid() && spec == Step(old(spec), ConfirmSpec.Receive(id))
      ensures id !in old(spec).taken ==>
                v == if id < |old(spec).slots| then old(spec).slots[id].first else None
    {
      v := None;
      if id < |waiters| {
        v := waiters[id].done;
        waiters := waiters[id := waiters[id].(done := None)];
      }
      spec := Step(spec, ConfirmSpec.Receive(id));
    }

    /** Last part of Wait. */
    method Forget(tag: nat)
      requires Valid()
      modifies this`pending, this`spec
      ensures Valid() && spec == Step(old(spec), ConfirmSpec.Forget(tag))
    {
      pending := pending - {tag};
      spec := Step(spec, ConfirmSpec.Forget(tag));
    }

    method ResolveOne(tag: nat, ack: bool)
      requires Coupled(spec, pending, waiters, closed)
      modifies this`waiters, this`spec
      ensures Coupled(spec, pending, waiters, closed) && spec == SettleOne(old(spec), tag, ack)
    {
      if tag in pending {
        var id := pending[tag];
        var w := waiters[id];
        var v := if !ack then Nacked else if w.returned then Unroutable(w.returnCode) else Confirmed;
        if w.done.None? {
          waiters := waiters[id := w.(done := Some(v))];
        }
      }
      spec := SettleOne(spec, tag, ack);
    }

    method ResolveUpTo(tag: nat, ack: bool)
      requires Valid()
      modifies this
      ensures Valid() && spec == SettleUpTo(old(spec), tag, ack)
      ensures Compact()
      ensures registered == old(registered) && highest == old(highest) && pulledBack == old(pulledBack)
    {
      ResolveWindow(tag, ack);
      AdvanceLowWater();
    }

    /** All of ResolveUpTo but the advance of the low-water mark. */
    method ResolveWindow(tag: nat, ack: bool)
      requires Valid()
      modifies this`waiters, this`spec, this`head, this`moved
      ensures Valid() && spec == SettleUpTo(old(spec), tag, ack)
    {
      var i := Walk(tag, ack);
      SettledAll(old(spec), spec, order, head, i, tag, ack);
      StillInWindow(old(spec), spec, order, head, i, ack);
      moved := moved + (i - head);
      head := i;
    }

    /** The loop of ResolveUpTo. */
    method Walk(tag: nat, ack: bool) returns (i: nat)
      requires Coupled(spec, pending, waiters, closed) && head <= |order|
      modifies this`waiters, this`spec
      ensures Coupled(spec, pending, waiters, closed)
      ensures head <= i <= |order| && SettledOnly(old(spec), spec, order[head..i], ack)
      ensures forall k :: head <= k < i ==> order[k] <= tag
      ensures i < |order| ==> tag < order[i]
    {
      i := head;
      ghost var done: seq<nat> := [];
      while i < |order| && order[i] <= tag
        invariant head <= i <= |order| && done == order[head..i]
        invariant Coupled(spec, pending, waiters, closed)
        invariant forall k :: head <= k < i ==> order[k] <= tag
        invariant SettledOnly(old(spec), spec, done, ack)
      {
        ResolveNext(order[i], ack, old(spec), done);
        done := done + [order[i]];
        i := i + 1;
      }
    }

    /** One turn of that loop: `done` are the tags resolved so far. */
    method ResolveNext(tag: nat, ack: bool, ghost was: Spec, ghost done: seq<nat>)
      requires Coupled(spec, pending, waiters, closed) && WellFormed(was) && SettledOnly(was, spec, done, ack)
      modifies this`waiters, this`spec
      ensures Coupled(spec, pending, waiters, closed) && SettledOnly(was, spec, done + [tag], ack)
    {
      SettledOneMore(was, spec, done, tag, ack);
      ResolveOne(tag, ack);
    }

    method OrderInsert(tag: nat)
      requires head <= |order| && Sorted(order) && Costed()
      requires forall t :: Awaited(spec, t) && t != tag ==> InWindow(order, head, t)
      modifies this`order, this`head, this`registered, this`pulledBack, this`highest
      ensures Indexed(spec, order, head) && Costed()
      ensures registered == old(registered) + 1
      ensures old(registered) == 0 || old(highest) < tag ==> highest == tag && pulledBack == old(pulledBack)
    {
      registered := registered + 1;
      highest := if registered == 1 || highest < tag then tag else highest;
      var h;
      order, h := Placed(order, head, tag, spec);
      pulledBack := pulledBack + (head - h);
      head := h;
    }

    /** Drops exactly the leading tags of the live window that are no longer pending. */
    method AdvanceLowWater()
      requires Valid()
      modifies this`order, this`head, this`moved, this`cut, this`copied
      ensures Valid() && Compact()
      ensures order[head..] == WithoutDead(old(order[head..]), pending)
    {
      SkipDead();
      CompactOrder();
    }

    /** The loop of AdvanceLowWater. */
    method SkipDead()
      requires Valid()
      modifies this`head, this`moved
      ensures Valid() && order[head..] == WithoutDead(old(order[head..]), pending)
    {
      while head < |order|
        invariant old(head) <= head <= |order| && moved == old(moved) + (head - old(head))
        invariant forall i :: old(head) <= i < head ==> order[i] !in pending
        decreases |order| - head
      {
        if order[head] in pending {
          break;
        }
        head := head + 1;
        moved := moved + 1;
      }
      DeadSkipped(order, old(head), head, pending);
      SkippedIndexed(spec, pending, waiters, closed, order, old(head), head);
    }

    method CompactOrder()
      requires Valid()
      modifies this`order, this`head, this`cut, this`copied
      ensures Valid() && Compact()
      ensures order[head..] == old(order[head..])
    {
      if head == 0 {
        return;
      }
      PrefixDropped(spec, order, head);
      if head >= |order| {
        cut := cut + head;
        order := [];
        head := 0;
      } else if head > COMPACT_MIN_PREFIX && head * 2 >= |order| {
        cut := cut + head;
        copied := copied + (|order| - head);
        order := order[head..];
        head := 0;
      }
    }
  }

  /** What is left of `live` without its leading tags that are not pending. */
  function WithoutDead(live: seq<nat>, pending: map<nat, nat>): seq<nat>
  {
    if live == [] || live[0] in pending then live else WithoutDead(live[1..], pending)
  }

  lemma {:induction false} DeadSkipped(order: seq<nat>, head: nat, upto: nat, pending: map<nat, nat>)
    requires head <= upto <= |order| && forall i :: head <= i < upto ==> order[i] !in pending
    requires upto < |order| ==> order[upto] in pending
    ensures WithoutDead(order[head..], pending) == order[upto..]
    decreases upto - head
  {
    if head < upto {
      assert order[head..][1..] == order[head + 1..];
      DeadSkipped(order, head + 1, upto, pending);
    }
  }

  lemma SkippedIndexed(spec: Spec, pending: map<nat, nat>, waiters: seq<Waiter>, closed: bool,
                       order: seq<nat>, head: nat, upto: nat)
    requires Coupled(spec, pending, waiters, closed) && Indexed(spec, order, head)
    requires head <= upto <= |order| && forall i :: head <= i < upto ==> order[i] !in pending
    ensures Indexed(spec, order, upto)
  {
    forall t | Awaited(spec, t) ensures InWindow(order, upto, t) {
      assert t in pending;
      var i :| head <= i < |order| && order[i] == t;
    }
  }

  lemma PrefixDropped(spec: Spec, order: seq<nat>, head: nat)
    requires Indexed(spec, order, head)
    ensures Indexed(spec, order[head..], 0)
    ensures head < |order| ==> order[head..][|order| - head - 1] == order[|order| - 1]
  {
  }

  /** `now` is `was` with an outcome latched in the live waiters of `tags` and nothing else. */
  ghost predicate SettledOnly(was: Spec, now: Spec, tags: seq<nat>, ack: bool)
  {
    && now == was.(slots := now.slots)
    && |now.slots| == |was.slots|
    && (forall i :: 0 <= i < |was.slots| ==>
          now.slots[i] == if Live(was, i) && was.slots[i].tag in tags
                          then Latch(was.slots[i], Outcome(was.slots[i], ack)) else was.slots[i])
  }

  lemma SettledOneMore(was: Spec, now: Spec, tags: seq<nat>, tag: nat, ack: bool)
    requires WellFormed(was) && WellFormed(now) && SettledOnly(was, now, tags, ack)
    ensures SettledOnly(was, SettleOne(now, tag, ack), tags + [tag], ack)
  {
  }

  lemma SettledAll(was: Spec, now: Spec, order: seq<nat>, head: nat, i: nat, tag: nat, ack: bool)
    requires WellFormed(was) && head <= i <= |order| && Sorted(order)
    requires SettledOnly(was, now, order[head..i], ack)
    requires forall k :: head <= k < i ==> order[k] <= tag
    requires i < |order| ==> tag < order[i]
    requires forall t :: Awaited(was, t) ==> InWindow(order, head, t)
    ensures now == SettleUpTo(was, tag, ack)
  {
    var goal := SettleUpTo(was, tag, ack);
    forall id | 0 <= id < |was.slots| ensures now.slots[id] == goal.slots[id] {
      var t := was.slots[id].tag;
      if Live(was, id) && Unresolved(was, id) && t <= tag {
        assert Awaited(was, t);
        var k :| head <= k < |order| && order[k] == t;
        assert order[head..i][k - head] == t;
      }
    }
    assert now.slots == goal.slots;
  }

  lemma StillInWindow(was: Spec, now: Spec, order: seq<nat>, head: nat, i: nat, ack: bool)
    requires WellFormed(was) && head <= i <= |order|
    requires SettledOnly(was, now, order[head..i], ack)
    requires forall t :: Awaited(was, t) ==> InWindow(order, head, t)
    ensures forall t :: Awaited(now, t) ==> InWindow(order, i, t)
  {
    forall t | Awaited(now, t) ensures InWindow(order, i, t) {
      assert Awaited(was, t) && Live(was, was.pending[t]);
      var k :| head <= k < |order| && order[k] == t;
    }
  }

  /** Of the entries of `pending0`, those not in `todo` have been closed. */
  ghost predicate ClosedExcept(pending0: map<nat, nat>, waiters0: seq<Waiter>, todo: set<nat>,
                               pending: map<nat, nat>, waiters: seq<Waiter>)
  {
    && todo <= pending.Keys <= pending0.Keys
    && |waiters| == |waiters0|
    && (forall t :: t in pending0 ==> pending0[t] < |waiters0|)
    && (forall t :: t in pending ==> pending[t] == pending0[t])
    && (forall t, u :: t in pending0 && u in pending0 && t != u ==> pending0[t] != pending0[u])
    && (forall t :: t in todo ==> waiters[pending0[t]] == waiters0[pending0[t]])
    && (forall t :: t in pending0 && t !in todo ==>
          && waiters[pending0[t]].done == Some(waiters0[pending0[t]].done.GetOr(ChannelClosed))
          && (t in pending <==> waiters0[pending0[t]].done.Some?))
    && (forall id :: 0 <= id < |waiters| ==>
          && waiters[id].(done := None) == waiters0[id].(done := None)
          && (waiters[id] == waiters0[id] || exists t :: t in pending0 && pending0[t] == id))
  }

  lemma ClosedOneMore(pending0: map<nat, nat>, waiters0: seq<Waiter>, todo: set<nat>,
                      pending: map<nat, nat>, waiters: seq<Waiter>, t: nat)
    requires ClosedExcept(pending0, waiters0, todo, pending, waiters) && t in todo
    ensures var id := pending[t];
            if waiters[id].done.None?
            then ClosedExcept(pending0, waiters0, todo - {t}, pending - {t},
                              waiters[id := waiters[id].(done := Some(ChannelClosed))])
            else ClosedExcept(pending0, waiters0, todo - {t}, pending, waiters)
  {
  }

  lemma ClosedCouples(spec: Spec, pending0: map<nat, nat>, waiters0: seq<Waiter>,
                      pending: map<nat, nat>, waiters: seq<Waiter>)
    requires Coupled(spec, pending0, waiters0, spec.closed)
    requires ClosedExcept(pending0, waiters0, {}, pending, waiters)
    ensures Coupled(Step(spec, CloseAll), pending, waiters, true)
  {
    var r := Step(spec, CloseAll);
    forall i | 0 <= i < |waiters| && i !in r.taken
      ensures waiters[i].returned == r.slots[i].returned && waiters[i].returnCode == r.slots[i].returnCode
      ensures waiters[i].done == r.slots[i].first
    {
      if Live(spec, i) {
        assert pending0[spec.slots[i].tag] == i;
      }
    }
  }

  lemma NoneAwaited(spec: Spec)
    requires WellFormed(spec)
    ensures forall t :: !Awaited(Step(spec, CloseAll), t)
  {
  }

  /** What `out` may be when `op` is called on a tracker whose plain map is `s`.  A waiter
      whose verdict was already received promises nothing to a second receiver. */
  ghost predicate Answers(s: Spec, op: Op, out: Out)
  {
    match op
    case Register(_) => out == if s.closed then Refused else Done
    case Lookup(tag) =>
      && (tag !in s.pending ==> out == NotFound)
      && (tag in s.pending && s.pending[tag] !in s.taken ==> out == Found(s.pending[tag]))
    case Receive(id) =>
      id !in s.taken ==> out == Got(if id < |s.slots| then s.slots[id].first else None)
    case _ => out == Done
  }

  /** Call after call, `outs` is what the plain map would have answered. */
  ghost predicate Answered(ops: seq<Op>, outs: seq<Out>)
  {
    && |outs| == |ops|
    && (ops != [] ==>
          var n := |ops| - 1;
          Answered(ops[..n], outs[..n]) && Answers(Exec(ops[..n]), ops[n], outs[n]))
  }

  lemma AnsweredNext(ops: seq<Op>, outs: seq<Out>, n: nat, out: Out)
    requires n < |ops| && Answered(ops[..n], outs) && Answers(Exec(ops[..n]), ops[n], out)
    ensures Answered(ops[..n + 1], outs + [out])
  {
    assert ops[..n + 1][..n] == ops[..n] && (outs + [out])[..n] == outs;
  }

  lemma ExecMore(ops: seq<Op>, op: Op)
    ensures Exec(ops + [op]) == Step(Exec(ops), op)
  {
  }

  predicate Ascending(ops: seq<Op>)
  {
    forall i, j :: 0 <= i < j < |ops| && ops[i].Register? && ops[j].Register? ==> ops[i].tag < ops[j].tag
  }

  /** Every registration from call `n` on is above `tag`. */
  predicate Above(ops: seq<Op>, n: nat, tag: nat)
  {
    forall k :: n <= k < |ops| && ops[k].Register? ==> tag < ops[k].tag
  }

  function Registrations(ops: seq<Op>): nat
  {
    if ops == [] then 0
    else Registrations(ops[..|ops| - 1]) + if ops[|ops| - 1].Register? then 1 else 0
  }

  /** Any sequence of calls on a fresh tracker is answered as the plain map answers it.
      When tags are registered in ascending order, head moves forward and entries are copied
      at most once per registration over the whole life of the tracker. */
  method Replay(ops: seq<Op>) returns (outs: seq<Out>, ghost moved: nat, ghost copied: nat)
    ensures Answered(ops, outs)
    ensures copied <= Registrations(ops)
    ensures Ascending(ops) ==> moved <= Registrations(ops)
  {
    var t := Start(ops);
    outs := [];
    for n := 0 to |ops|
      invariant Replaying(t, ops, n) && fresh(t)
      invariant Answered(ops[..n], outs)
    {
      var out := CallAt(t, ops, n);
      AnsweredNext(ops, outs, n, out);
      outs := outs + [out];
    }
    assert ops[..|ops|] == ops;
    Spent(t, ops);
    moved, copied := t.moved, t.copied;
  }

  /** The tracker after the first `n` calls. */
  ghost predicate Replaying(t: Tracker, ops: seq<Op>, n: nat)
    reads t
  {
    && n <= |ops| && t.Valid() && t.spec == Exec(ops[..n])
    && t.registered <= Registrations(ops[..n])
    && (Ascending(ops) ==> t.pulledBack == 0 && (t.registered > 0 ==> Above(ops, n, t.highest)))
  }

  method Start(ghost ops: seq<Op>) returns (t: Tracker)
    ensures fresh(t) && Replaying(t, ops, 0)
  {
    t := new Tracker();
  }

  lemma Spent(t: Tracker, ops: seq<Op>)
    requires Replaying(t, ops, |ops|)
    ensures t.copied <= Registrations(ops) && (Ascending(ops) ==> t.moved <= Registrations(ops))
  {
    assert ops[..|ops|] == ops;
  }

  method CallAt(t: Tracker, ops: seq<Op>, n: nat) returns (out: Out)
    requires n < |ops| && Replaying(t, ops, n)
    modifies t
    ensures Replaying(t, ops, n + 1) && Answers(Exec(ops[..n]), ops[n], out)
  {
    assert ops[..n + 1] == ops[..n] + [ops[n]];
    ExecMore(ops[..n], ops[n]);
    out := Call(t, ops[n]);
  }

  /** Dispatches one call. */
  method Call(t: Tracker, op: Op) returns (out: Out)
    requires t.Valid()
    modifies t
    ensures t.Valid() && t.spec == Step(old(t.spec), op)
    ensures Answers(old(t.spec), op, out)
    ensures t.registered <= old(t.registered) + if op.Register? then 1 else 0
    ensures t.registered >= old(t.registered)
    ensures t.registered == old(t.registered) ==> t.highest == old(t.highest)
    ensures !op.Register? || t.registered == old(t.registered) || old(t.registered) == 0 || old(t.highest) < op.tag ==>
              t.pulledBack == old(t.pulledBack)
    ensures t.registered > old(t.registered) && (old(t.registered) == 0 || old(t.highest) < op.tag) ==>
              t.highest == op.tag
  {
    out := Done;
    match op {
      case Register(tag) =>
        var ok := t.Register(tag);
        out := if ok then Done else Refused;
      case MarkReturned(tag, code) => t.MarkReturned(tag, code);
      case Settle(tag, multiple, ack) => t.Settle(tag, multiple, ack);
      case Cancel(tag) => t.Cancel(tag);
      case CloseAll => t.CloseAll();
      case Lookup(tag) =>
        var id := t.Lookup(tag);
        out := if id.Some? then Found(id.value) else NotFound;
      case Receive(id) =>
        var v := t.Receive(id);
        out := Got(v);
      case Forget(tag) => t.Forget(tag);
    }
  }
}
