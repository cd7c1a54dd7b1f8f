/** The publisher-confirm tracker as a plain map from delivery tag to waiter.

    A waiter is known by the number of the Register call that made it, so that a
    waiter that has left the map (Wait and Cancel remove entries) can still be
    talked about.  `first` is latched: it keeps the first verdict a waiter was
    given, also after Wait has taken that verdict out of the waiter's buffer.
  */
module ConfirmSpec {
  import opened Optional

  datatype Verdict = Confirmed | Unroutable(code: nat) | Nacked | ChannelClosed

  datatype Slot = Slot(tag: nat, first: Option<Verdict>, returned: bool, returnCode: nat)

  /** `dropped` holds the waiters that left the map before any verdict, and `taken`
      those whose verdict a Wait call has received. */
  datatype Spec = Spec(pending: map<nat, nat>, slots: seq<Slot>, closed: bool,
                       dropped: set<nat>, taken: set<nat>)

  const EMPTY := Spec(map[], [], false, {}, {})

  /** The calls on a tracker.  Wait is three of them: it looks its waiter up, it
      receives the verdict, and it deletes the entry; on a timeout or a cancelled
      context it deletes without receiving. */
  datatype Op =
    | Register(tag: nat)
    | MarkReturned(tag: nat, code: nat)
    | Settle(tag: nat, multiple: bool, ack: bool)
    | Cancel(tag: nat)
    | CloseAll
    | Lookup(tag: nat)
    | Receive(id: nat)
    | Forget(tag: nat)

  /** Waiter `id` is the one the map holds for its tag. */
  predicate Live(s: Spec, id: nat)
  {
    id < |s.slots| && s.slots[id].tag in s.pending && s.pending[s.slots[id].tag] == id
  }

  predicate Unresolved(s: Spec, id: nat)
  {
    id < |s.slots| && s.slots[id].first.None?
  }

  /** A basic.return turns an ack into Unroutable; a nack stays a nack. */
  function Outcome(slot: Slot, ack: bool): Verdict
  {
    if !ack then Nacked
    else if slot.returned then Unroutable(slot.returnCode)
    else Confirmed
  }

  function Latch(slot: Slot, v: Verdict): (r: Slot)
    ensures slot.first.Some? ==> r == slot
    ensures r.tag == slot.tag && r.first.Some?
  {
    if slot.first.None? then slot.(first := Some(v)) else slot
  }

  predicate WellFormed(s: Spec)
  {
    && (forall t | t in s.pending :: s.pending[t] < |s.slots| && s.slots[s.pending[t]].tag == t)
    && (forall id | id in s.taken :: id < |s.slots| && s.slots[id].first.Some?)
    && (forall id | id in s.dropped :: id < |s.slots|)
  }

  /** The unresolved waiter that the map loses when the entry of `tag` goes. */
  function Lost(s: Spec, tag: nat): set<nat>
    requires WellFormed(s)
  {
    if tag in s.pending && Unresolved(s, s.pending[tag]) then {s.pending[tag]} else {}
  }

  function AddSlot(s: Spec, tag: nat): (r: Spec)
    requires WellFormed(s)
    ensures WellFormed(r)
  {
    s.(pending := s.pending[tag := |s.slots|],
       slots := s.slots + [Slot(tag, None, false, 0)],
       dropped := s.dropped + Lost(s, tag))
  }

  function MarkSlot(s: Spec, tag: nat, code: nat): (r: Spec)
    requires WellFormed(s)
    ensures WellFormed(r)
  {
    if tag !in s.pending then s
    else
      var id := s.pending[tag];
      s.(slots := s.slots[id := s.slots[id].(returned := true, returnCode := code)])
  }

  /** Latches an outcome in every live waiter with a tag up to `tag`. */
  function SettleUpTo(s: Spec, tag: nat, ack: bool): (r: Spec)
    requires WellFormed(s)
    ensures WellFormed(r)
  {
    s.(slots := seq(|s.slots|, i requires 0 <= i < |s.slots| =>
         if Live(s, i) && s.slots[i].tag <= tag
         then Latch(s.slots[i], Outcome(s.slots[i], ack)) else s.slots[i]))
  }

  function SettleOne(s: Spec, tag: nat, ack: bool): (r: Spec)
    requires WellFormed(s)
    ensures WellFormed(r)
  {
    if tag !in s.pending then s
    else
      var id := s.pending[tag];
      s.(slots := s.slots[id := Latch(s.slots[id], Outcome(s.slots[id], ack))])
  }

  function CancelOne(s: Spec, tag: nat): (r: Spec)
    requires WellFormed(s)
    ensures WellFormed(r)
  {
    if tag !in s.pending then s
    else
      var id := s.pending[tag];
      s.(slots := s.slots[id := Latch(s.slots[id], ChannelClosed)], pending := s.pending - {tag})
  }

  /** Unresolved entries get ChannelClosed and leave the map; resolved ones stay. */
  function CloseLive(s: Spec): (r: Spec)
    requires WellFormed(s)
    ensures WellFormed(r)
  {
    s.(closed := true,
       pending := map t | t in s.pending && s.slots[s.pending[t]].first.Some? :: s.pending[t],
       slots := seq(|s.slots|, i requires 0 <= i < |s.slots| =>
         if Live(s, i) then Latch(s.slots[i], ChannelClosed) else s.slots[i]))
  }

  /** Nothing is lost silently: a waiter without a verdict is in the map or was dropped,
      and never both. */
  predicate Accounted(s: Spec)
  {
    && WellFormed(s)
    && (forall id | 0 <= id < |s.slots| && Unresolved(s, id) :: Live(s, id) || id in s.dropped)
    && (forall id | id in s.dropped :: Unresolved(s, id) && !Live(s, id))
  }

  function Step(s: Spec, op: Op): (r: Spec)
    requires WellFormed(s)
    ensures WellFormed(r)
  {
    match op
    case Register(tag) => if s.closed then s else AddSlot(s, tag)
    case MarkReturned(tag, code) => MarkSlot(s, tag, code)
    case Settle(tag, multiple, ack) => if multiple then SettleUpTo(s, tag, ack) else SettleOne(s, tag, ack)
    case Cancel(tag) => CancelOne(s, tag)
    case CloseAll => CloseLive(s)
    case Lookup(_) => s
    case Receive(id) =>
      if id < |s.slots| && s.slots[id].first.Some? then s.(taken := s.taken + {id}) else s
    case Forget(tag) =>
      s.(dropped := s.dropped + Lost(s, tag), pending := s.pending - {tag})
  }

  function Exec(ops: seq<Op>): (r: Spec)
    ensures WellFormed(r)
  {
    if ops == [] then EMPTY else Step(Exec(ops[..|ops| - 1]), ops[|ops| - 1])
  }

  /** A waiter's first verdict never changes, and a waiter is never unmade. */
  lemma StepLatches(s: Spec, op: Op, id: nat)
    requires WellFormed(s) && id < |s.slots|
    ensures id < |Step(s, op).slots| && Step(s, op).slots[id].tag == s.slots[id].tag
    ensures s.slots[id].first.Some? ==> Step(s, op).slots[id].first == s.slots[id].first
  {
  }

  lemma {:induction false} FirstVerdictIsFinal(ops: seq<Op>, more: seq<Op>, id: nat)
    requires id < |Exec(ops).slots| && Exec(ops).slots[id].first.Some?
    ensures id < |Exec(ops + more).slots|
    ensures Exec(ops + more).slots[id].first == Exec(ops).slots[id].first
  {
    if more == [] {
      assert ops + more == ops;
    } else {
      var n := |more| - 1;
      FirstVerdictIsFinal(ops, more[..n], id);
      assert (ops + more)[..|ops + more| - 1] == ops + more[..n];
      StepLatches(Exec(ops + more[..n]), more[n], id);
    }
  }

  lemma StepAccountsFor(s: Spec, op: Op, id: nat)
    requires Accounted(s) && id < |Step(s, op).slots|
    ensures var r := Step(s, op);
            && (Unresolved(r, id) ==> Live(r, id) || id in r.dropped)
            && (id in r.dropped ==> Unresolved(r, id) && !Live(r, id))
  {
    match op
    case Register(_) =>
    case MarkReturned(_, _) =>
    case Settle(_, true, _) =>
    case Settle(_, false, _) =>
    case Cancel(_) =>
    case CloseAll =>
    case _ =>
  }

  lemma StepAccounts(s: Spec, op: Op)
    requires Accounted(s)
    ensures Accounted(Step(s, op))
  {
    forall id: nat | id < |Step(s, op).slots|
      ensures var r := Step(s, op);
              && (Unresolved(r, id) ==> Live(r, id) || id in r.dropped)
              && (id in r.dropped ==> Unresolved(r, id) && !Live(r, id))
    {
      StepAccountsFor(s, op, id);
    }
  }

  lemma {:induction false} ExecAccounts(ops: seq<Op>)
    ensures Accounted(Exec(ops))
  {
    if ops != [] {
      ExecAccounts(ops[..|ops| - 1]);
      StepAccounts(Exec(ops[..|ops| - 1]), ops[|ops| - 1]);
    }
  }

  /** The calls that can take an unresolved waiter out of the map: a Wait that gave up on
      the waiter's tag, or a second registration of that tag. */
  predicate Abandons(s: Spec, op: Op, id: nat)
  {
    && Live(s, id) && Unresolved(s, id)
    && (op == Forget(s.slots[id].tag) || (op == Register(s.slots[id].tag) && !s.closed))
  }

  ghost predicate AbandonedIn(ops: seq<Op>, id: nat)
  {
    exists k :: 0 <= k < |ops| && Abandons(Exec(ops[..k]), ops[k], id)
  }

  lemma AbandonedInLast(ops: seq<Op>, op: Op, id: nat)
    ensures AbandonedIn(ops + [op], id) <==> AbandonedIn(ops, id) || Abandons(Exec(ops), op, id)
  {
    var all := ops + [op];
    assert all[..|ops|] == ops;
    forall k | 0 <= k < |ops| ensures all[..k] == ops[..k] && all[k] == ops[k] {}
    if AbandonedIn(ops, id) {
      var k :| 0 <= k < |ops| && Abandons(Exec(ops[..k]), ops[k], id);
      assert Abandons(Exec(all[..k]), all[k], id);
    }
    if Abandons(Exec(ops), op, id) {
      assert Abandons(Exec(all[..|ops|]), all[|ops|], id);
    }
  }

  lemma StepDrops(s: Spec, op: Op, id: nat)
    requires Accounted(s)
    ensures id in Step(s, op).dropped <==> id in s.dropped || Abandons(s, op, id)
  {
  }

  /** Exactly those calls drop a waiter. */
  lemma {:induction false} DroppedIffAbandoned(ops: seq<Op>, id: nat)
    ensures id in Exec(ops).dropped <==> AbandonedIn(ops, id)
  {
    if ops != [] {
      var before, last := ops[..|ops| - 1], ops[|ops| - 1];
      assert ops == before + [last];
      DroppedIffAbandoned(before, id);
      ExecAccounts(before);
      StepDrops(Exec(before), last, id);
      AbandonedInLast(before, last, id);
    }
  }

  lemma CloseLeavesDropped(s: Spec, id: nat)
    requires Accounted(s) && id < |s.slots|
    ensures Unresolved(Step(s, CloseAll), id) <==> id in s.dropped
  {
  }

  /** After CloseAll a waiter is without a verdict exactly when it had been abandoned. */
  lemma CloseAllResolvesTheRest(ops: seq<Op>, id: nat)
    requires id < |Exec(ops).slots|
    ensures Unresolved(Exec(ops + [CloseAll]), id) <==> AbandonedIn(ops, id)
  {
    ExecAccounts(ops);
    DroppedIffAbandoned(ops, id);
    CloseLeavesDropped(Exec(ops), id);
    assert (ops + [CloseAll])[..|ops|] == ops;
  }
}
