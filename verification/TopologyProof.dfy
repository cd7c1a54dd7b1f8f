/** What expansion promises about every topology that validation accepts. */
module TopologyProof {
  import opened Optional
  import opened Topology

  // ----- one queue -----

  /** All dead letters of queue `name`, in order. */
  function InjectAll(args: Args, name: string, dls: seq<DeadLetter>): Args
  {
    if dls == [] then args
    else
      var before := InjectAll(args, name, dls[..|dls| - 1]);
      if dls[|dls| - 1].source == name then Inject(before, dls[|dls| - 1]) else before
  }

  function Written(dl: DeadLetter, k: Key): Option<Value>
  {
    match k
    case DeadLetterExchange => Some(Str(DlxName(dl)))
    case DeadLetterRoutingKey => if dl.routingKey != "" then Some(Str(dl.routingKey)) else None
    case MessageTTL => if dl.ttl > 0 then Some(Int(Millis(dl.ttl))) else None
    case MaxLength => if dl.maxLength > 0 then Some(Int(dl.maxLength)) else None
    case MaxLengthBytes => if dl.maxLengthBytes > 0 then Some(Int(dl.maxLengthBytes)) else None
    case Overflow => if dl.overflow != "" then Some(Str(dl.overflow)) else None
    case _ => None
  }

  /** The last value the dead letters of queue `name` give to argument `k`. */
  function LastWritten(name: string, dls: seq<DeadLetter>, k: Key): Option<Value>
  {
    if dls == [] then None
    else
      var dl := dls[|dls| - 1];
      if dl.source == name && Written(dl, k).Some? then Written(dl, k)
      else LastWritten(name, dls[..|dls| - 1], k)
  }

  function At(args: Args, k: Key): Option<Value>
  {
    if k in args then Some(args[k]) else None
  }

  function Or(a: Option<Value>, b: Option<Value>): Option<Value>
  {
    if a.Some? then a else b
  }

  lemma InjectAt(args: Args, dl: DeadLetter, k: Key)
    ensures At(Inject(args, dl), k) == Or(Written(dl, k), At(args, k))
  {
  }

  /** The last dead letter that sets an argument decides it; an argument none sets is kept. */
  lemma {:induction false} InjectAllAt(args: Args, name: string, dls: seq<DeadLetter>, k: Key)
    ensures At(InjectAll(args, name, dls), k) == Or(LastWritten(name, dls, k), At(args, k))
  {
    if dls != [] {
      InjectAllAt(args, name, dls[..|dls| - 1], k);
      InjectAt(InjectAll(args, name, dls[..|dls| - 1]), dls[|dls| - 1], k);
    }
  }

  /** What the last pass adds to a queue's arguments. */
  function Added(q: Queue, k: Key): Option<Value>
  {
    var deadLetters := q.kind == QUORUM && DeadLetterExchange in q.args;
    match k
    case DeliveryLimit => if q.deliveryLimit > 0 then Some(Int(q.deliveryLimit)) else None
    case SingleActiveConsumer => if q.singleActive then Some(Flag(true)) else None
    case QueueType => if q.kind != "" then Some(Str(q.kind)) else None
    case MaxPriority => if q.maxPriority > 0 then Some(Int(q.maxPriority)) else None
    case DeadLetterStrategy =>
      if deadLetters && DeadLetterStrategy !in q.args then Some(Str(AT_LEAST_ONCE)) else None
    case Overflow =>
      if deadLetters && !OptsOut(q.args) && Overflow !in q.args then Some(Str(REJECT_PUBLISH)) else None
    case _ => None
  }

  lemma TypedAt(q: Queue, k: Key)
    ensures At(Typed(q), k) ==
            if k in {DeliveryLimit, SingleActiveConsumer, QueueType, MaxPriority}
            then Or(Added(q, k), At(q.args, k)) else At(q.args, k)
  {
  }

  lemma StrategyAt(kind: string, args: Args, k: Key)
    ensures At(Strategy(kind, args), k) ==
            if kind != QUORUM || At(args, DeadLetterExchange) == None then At(args, k)
            else if k == DeadLetterStrategy && At(args, k) == None then Some(Str(AT_LEAST_ONCE))
            else if k == Overflow && !OptsOut(args) && At(args, k) == None then Some(Str(REJECT_PUBLISH))
            else At(args, k)
  {
  }

  lemma FinishAt(q: Queue, k: Key)
    ensures At(Finish(q).args, k) == Or(Added(q, k), At(q.args, k))
    ensures Finish(q) == q.(args := Finish(q).args)
  {
    TypedAt(q, k);
    TypedAt(q, DeadLetterExchange);
    TypedAt(q, DeadLetterStrategy);
    StrategyAt(q.kind, Typed(q), k);
  }

  /** Validation's reading of the dead letters is what expansion writes. */
  lemma {:induction false} FoldReadsInjected(args: Args, name: string, dls: seq<DeadLetter>)
    ensures var a := InjectAll(args, name, dls);
            CouplingFold(name, dls, DeadLetterExchange in args,
                         if Overflow in args then OverflowText(args[Overflow]) else "", Overflow in args)
            == (DeadLetterExchange in a, if Overflow in a then OverflowText(a[Overflow]) else "", Overflow in a)
  {
    if dls != [] {
      FoldReadsInjected(args, name, dls[..|dls| - 1]);
    }
  }

  // ----- the whole topology -----

  predicate Declared(t: Topology, name: string)
  {
    name in QueueNames(t.queues)
  }

  /** An auto-declared dead-letter queue. */
  predicate Auto(q: Queue)
  {
    && q.kind == "" && q.deliveryLimit == 0 && !q.singleActive && q.maxPriority == 0
    && DeadLetterExchange !in q.args
  }

  /** `name` is the dead-letter queue of a declared source. */
  ghost predicate FromDeadLetter(t: Topology, dls: seq<DeadLetter>, name: string)
  {
    exists j :: 0 <= j < |dls| && Declared(t, dls[j].source) && name == DlqName(dls[j].source)
  }

  /** The queues of `t` come first, with the arguments of their dead letters; the rest are
      auto-declared. */
  ghost predicate QueuesGrown(t: Topology, dls: seq<DeadLetter>, qs: seq<Queue>)
  {
    && |t.queues| <= |qs|
    && (forall i :: 0 <= i < |t.queues| ==>
          qs[i] == t.queues[i].(args := InjectAll(t.queues[i].args, t.queues[i].name, dls)))
    && (forall i :: |t.queues| <= i < |qs| ==> Auto(qs[i]) && FromDeadLetter(t, dls, qs[i].name))
    && Distinct(QueueNames(qs))
  }

  ghost predicate ExchangesGrown(t: Topology, es: seq<Exchange>)
  {
    && t.exchanges <= es
    && (forall i :: |t.exchanges| <= i < |es| ==> es[i].alternate == "")
    && Distinct(ExchangeNames(es))
  }

  /** The dead-letter exchange and queue of `dl` are there, and bound. */
  ghost predicate Wired(r: Topology, dl: DeadLetter)
  {
    && DlxName(dl) in ExchangeNames(r.exchanges)
    && DlqName(dl.source) in QueueNames(r.queues)
    && Bound(r.bindings, DlxName(dl), DlqName(dl.source), BindKey(dl))
  }

  ghost predicate Grown(t: Topology, dls: seq<DeadLetter>, r: Topology)
  {
    && QueuesGrown(t, dls, r.queues)
    && ExchangesGrown(t, r.exchanges)
    && t.bindings <= r.bindings
    && r.deadLetters == t.deadLetters && r.exchangeBindings == t.exchangeBindings
    && (forall k :: 0 <= k < |dls| && Declared(t, dls[k].source) ==> Wired(r, dls[k]))
  }

  lemma {:induction false} FindByName(qs: seq<Queue>, qs': seq<Queue>, n: nat, name: string)
    requires n <= |qs| && n <= |qs'| && forall i :: 0 <= i < n ==> qs[i].name == qs'[i].name
    ensures Find(qs, n, name) == Find(qs', n, name)
  {
    if n > 0 {
      FindByName(qs, qs', n - 1, name);
    }
  }

  lemma OneInjects(t: Topology, dls: seq<DeadLetter>, r: Topology, dl: DeadLetter, i: nat)
    requires QueuesGrown(t, dls, r.queues) && i < |t.queues|
    ensures ExpandOne(r, |t.queues|, dl).queues[i]
         == t.queues[i].(args := InjectAll(t.queues[i].args, t.queues[i].name, dls + [dl]))
  {
  }

  lemma OneKeepsDistinct(r: Topology, n: nat, dl: DeadLetter)
    requires n <= |r.queues| && Distinct(QueueNames(r.queues))
    ensures Distinct(QueueNames(ExpandOne(r, n, dl).queues))
  {
  }

  lemma StillFromDeadLetter(t: Topology, dls: seq<DeadLetter>, dl: DeadLetter, name: string)
    requires FromDeadLetter(t, dls, name) || (Declared(t, dl.source) && name == DlqName(dl.source))
    ensures FromDeadLetter(t, dls + [dl], name)
  {
    if FromDeadLetter(t, dls, name) {
      var j :| 0 <= j < |dls| && Declared(t, dls[j].source) && name == DlqName(dls[j].source);
      assert (dls + [dl])[j] == dls[j];
    } else {
      assert (dls + [dl])[|dls|] == dl;
    }
  }

  lemma OneAdds(t: Topology, dls: seq<DeadLetter>, r: Topology, dl: DeadLetter, i: nat)
    requires QueuesGrown(t, dls, r.queues) && |t.queues| <= i < |ExpandOne(r, |t.queues|, dl).queues|
    ensures Auto(ExpandOne(r, |t.queues|, dl).queues[i])
    ensures FromDeadLetter(t, dls + [dl], ExpandOne(r, |t.queues|, dl).queues[i].name)
  {
    var q := ExpandOne(r, |t.queues|, dl).queues[i];
    if i < |r.queues| {
      assert q == r.queues[i];
    } else {
      FindByName(t.queues, r.queues, |t.queues|, dl.source);
      DeclaredIsFound(t, dl.source);
      assert Declared(t, dl.source) && q.name == DlqName(dl.source);
    }
    StillFromDeadLetter(t, dls, dl, q.name);
  }

  lemma OneGrowsQueues(t: Topology, dls: seq<DeadLetter>, r: Topology, dl: DeadLetter)
    requires QueuesGrown(t, dls, r.queues)
    ensures QueuesGrown(t, dls + [dl], ExpandOne(r, |t.queues|, dl).queues)
  {
    forall i | 0 <= i < |t.queues|
      ensures ExpandOne(r, |t.queues|, dl).queues[i]
           == t.queues[i].(args := InjectAll(t.queues[i].args, t.queues[i].name, dls + [dl]))
    {
      OneInjects(t, dls, r, dl, i);
    }
    OneKeepsDistinct(r, |t.queues|, dl);
    var qs := ExpandOne(r, |t.queues|, dl).queues;
    forall i | |t.queues| <= i < |qs| ensures Auto(qs[i]) && FromDeadLetter(t, dls + [dl], qs[i].name) {
      OneAdds(t, dls, r, dl, i);
    }
  }

  lemma OneGrowsRest(t: Topology, r: Topology, dl: DeadLetter)
    requires ExchangesGrown(t, r.exchanges) && t.bindings <= r.bindings && |t.queues| <= |r.queues|
    ensures var r' := ExpandOne(r, |t.queues|, dl);
            && ExchangesGrown(t, r'.exchanges) && r.exchanges <= r'.exchanges
            && r.bindings <= r'.bindings
            && r'.deadLetters == r.deadLetters && r'.exchangeBindings == r.exchangeBindings
  {
  }

  lemma WiredKept(r: Topology, r': Topology, dl: DeadLetter)
    requires Wired(r, dl) && r.exchanges <= r'.exchanges && r.bindings <= r'.bindings
    requires |r.queues| <= |r'.queues| && forall i :: 0 <= i < |r.queues| ==> r'.queues[i].name == r.queues[i].name
    ensures Wired(r', dl)
  {
  }

  lemma OneWires(t: Topology, r: Topology, dl: DeadLetter)
    requires |t.queues| <= |r.queues| && Find(r.queues, |t.queues|, dl.source).Some?
    ensures Wired(ExpandOne(r, |t.queues|, dl), dl)
  {
    var r' := ExpandOne(r, |t.queues|, dl);
    if DlxName(dl) !in ExchangeNames(r.exchanges) {
      assert ExchangeNames(r'.exchanges)[|r.exchanges|] == DlxName(dl);
    }
    if DlqName(dl.source) in QueueNames(r.queues) {
      var i :| 0 <= i < |r.queues| && QueueNames(r.queues)[i] == DlqName(dl.source);
      assert QueueNames(r'.queues)[i] == DlqName(dl.source);
    } else {
      assert QueueNames(r'.queues)[|r.queues|] == DlqName(dl.source);
    }
    if !Bound(r.bindings, DlxName(dl), DlqName(dl.source), BindKey(dl)) {
      assert r'.bindings[|r.bindings|].routingKey == BindKey(dl);
    }
  }

  lemma OneOnlyAdds(r: Topology, n: nat, dl: DeadLetter)
    requires n <= |r.queues|
    ensures var r' := ExpandOne(r, n, dl);
            && r.exchanges <= r'.exchanges && r.bindings <= r'.bindings && |r.queues| <= |r'.queues|
            && (forall i :: 0 <= i < |r.queues| ==> r'.queues[i].name == r.queues[i].name)
  {
  }

  lemma SourceIsFound(t: Topology, dls: seq<DeadLetter>, qs: seq<Queue>, source: string)
    requires QueuesGrown(t, dls, qs) && Declared(t, source)
    ensures Find(qs, |t.queues|, source).Some?
  {
  }

  lemma GrownOneMore(t: Topology, dls: seq<DeadLetter>, r: Topology, dl: DeadLetter)
    requires Grown(t, dls, r)
    ensures Grown(t, dls + [dl], ExpandOne(r, |t.queues|, dl))
  {
    OneGrowsQueues(t, dls, r, dl);
    OneGrowsRest(t, r, dl);
    OneOnlyAdds(r, |t.queues|, dl);
    forall k | 0 <= k < |dls + [dl]| && Declared(t, (dls + [dl])[k].source)
      ensures Wired(ExpandOne(r, |t.queues|, dl), (dls + [dl])[k])
    {
      if k < |dls| {
        WiredKept(r, ExpandOne(r, |t.queues|, dl), dls[k]);
      } else {
        SourceIsFound(t, dls, r.queues, dl.source);
        OneWires(t, r, dl);
      }
    }
  }

  lemma {:induction false} DeadLettersGrow(t: Topology, dls: seq<DeadLetter>)
    requires Distinct(QueueNames(t.queues)) && Distinct(ExchangeNames(t.exchanges))
    ensures Grown(t, dls, ExpandDeadLetters(t, |t.queues|, dls))
  {
    if dls != [] {
      var before, dl := dls[..|dls| - 1], dls[|dls| - 1];
      DeadLettersGrow(t, before);
      GrownOneMore(t, before, ExpandDeadLetters(t, |t.queues|, before), dl);
      assert dls == before + [dl];
    }
  }

  lemma DeclaredIsFound(t: Topology, name: string)
    ensures Declared(t, name) <==> Find(t.queues, |t.queues|, name).Some?
  {
  }

  // ----- the promises -----

  predicate Unique(t: Topology)
  {
    Distinct(QueueNames(t.queues)) && Distinct(ExchangeNames(t.exchanges))
  }

  lemma MergedGrows(t: Topology)
    requires Unique(t)
    ensures Grown(t.(exchanges := ExpandExchanges(t.exchanges)), t.deadLetters, Merged(t))
  {
    var t' := t.(exchanges := ExpandExchanges(t.exchanges));
    forall i | 0 <= i < |t.exchanges| ensures ExchangeNames(t'.exchanges)[i] == ExchangeNames(t.exchanges)[i] {}
    assert ExchangeNames(t'.exchanges) == ExchangeNames(t.exchanges);
    DeadLettersGrow(t', t.deadLetters);
  }

  /** Queue `i` of the expansion. */
  function Out(t: Topology, i: nat): Queue
    requires i < |Expand(t).queues|
  {
    Expand(t).queues[i]
  }

  lemma QueueAfter(t: Topology, i: nat)
    requires Unique(t) && i < |t.queues|
    ensures i < |Expand(t).queues|
    ensures Out(t, i) == Finish(t.queues[i].(args := InjectAll(t.queues[i].args, t.queues[i].name, t.deadLetters)))
  {
    MergedGrows(t);
  }

  lemma AutoAfter(t: Topology, i: nat)
    requires Unique(t) && |t.queues| <= i < |Expand(t).queues|
    ensures Auto(Out(t, i)) && Out(t, i) == Merged(t).queues[i]
  {
    MergedGrows(t);
    assert Auto(Merged(t).queues[i]);
  }

  /** Validation and the warning see the queue as expansion leaves it before its last pass. */
  lemma CouplingIsExpansion(t: Topology, q: Queue)
    ensures var a := InjectAll(q.args, q.name, t.deadLetters);
            var c := QuorumAtLeastOnce(t, q);
            if q.kind != QUORUM || DeadLetterExchange !in a then c == Coupling(false, "", false)
            else && c.atLeastOnce == !OptsOut(a)
                 && c.overflowSet == (Overflow in a)
                 && (Overflow in a ==> c.overflow == OverflowText(a[Overflow]))
  {
    FoldReadsInjected(q.args, q.name, t.deadLetters);
    InjectAllAt(q.args, q.name, t.deadLetters, DeadLetterStrategy);
    StrategyNotWritten(q.name, t.deadLetters);
  }

  lemma {:induction false} StrategyNotWritten(name: string, dls: seq<DeadLetter>)
    ensures LastWritten(name, dls, DeadLetterStrategy).None?
  {
    if dls != [] {
      StrategyNotWritten(name, dls[..|dls| - 1]);
    }
  }

  /** Every quorum queue that expansion leaves with a dead-letter exchange and the at-least-once
      strategy rejects publishes when full. */
  lemma AtLeastOnceRejectsPublish(t: Topology, i: nat)
    requires Accepts(t) && i < |Expand(t).queues|
    requires Out(t, i).kind == QUORUM && DeadLetterExchange in Out(t, i).args
    requires At(Out(t, i).args, DeadLetterStrategy) == Some(Str(AT_LEAST_ONCE))
    ensures Overflow in Out(t, i).args && OverflowText(Out(t, i).args[Overflow]) == REJECT_PUBLISH
  {
    if i < |t.queues| {
      QueueAfter(t, i);
      CouplingIsExpansion(t, t.queues[i]);
      assert QueueOk(t, t.queues[i]);
    } else {
      AutoAfter(t, i);
    }
  }

  /** Queue `i` after its dead letters and before the last pass. */
  function Mid(t: Topology, i: nat): Queue
    requires i < |t.queues|
  {
    t.queues[i].(args := InjectAll(t.queues[i].args, t.queues[i].name, t.deadLetters))
  }

  /** Every argument of every declared queue after expansion: what the last pass adds, else
      what the last dead letter that sets it says, else the caller's own. */
  lemma ArgAfter(t: Topology, i: nat, k: Key)
    requires Unique(t) && i < |t.queues|
    ensures i < |Expand(t).queues| && Out(t, i) == t.queues[i].(args := Out(t, i).args)
    ensures At(Out(t, i).args, k) ==
              Or(Added(Mid(t, i), k), Or(LastWritten(t.queues[i].name, t.deadLetters, k), At(t.queues[i].args, k)))
  {
    QueueAfter(t, i);
    FinishAt(Mid(t, i), k);
    InjectAllAt(t.queues[i].args, t.queues[i].name, t.deadLetters, k);
  }

  /** A queue's overflow after expansion: reject-publish exactly when the warning is given,
      otherwise what its last dead letter with an overflow says, otherwise its own. */
  lemma OverflowAfter(t: Topology, i: nat)
    requires Unique(t) && i < |t.queues|
    ensures i < |Expand(t).queues|
    ensures var q := t.queues[i];
            var own := Or(LastWritten(q.name, t.deadLetters, Overflow), At(q.args, Overflow));
            && At(Out(t, i).args, Overflow) == (if Warns(t, q) then Some(Str(REJECT_PUBLISH)) else own)
            && (Warns(t, q) ==> own.None?)
  {
    ArgAfter(t, i, Overflow);
    InjectAllAt(t.queues[i].args, t.queues[i].name, t.deadLetters, Overflow);
    CouplingIsExpansion(t, t.queues[i]);
  }

  lemma {:induction false} LastExchangeWritten(name: string, dls: seq<DeadLetter>)
    ensures LastWritten(name, dls, DeadLetterExchange).Some? <==> exists k :: 0 <= k < |dls| && dls[k].source == name
    ensures LastWritten(name, dls, DeadLetterExchange).Some? ==>
              exists k :: 0 <= k < |dls| && dls[k].source == name
                          && LastWritten(name, dls, DeadLetterExchange) == Some(Str(DlxName(dls[k])))
  {
    if dls != [] {
      var before := dls[..|dls| - 1];
      LastExchangeWritten(name, before);
      if dls[|dls| - 1].source != name {
        if k :| 0 <= k < |dls| && dls[k].source == name {
          assert before[k].source == name;
        }
        if LastWritten(name, before, DeadLetterExchange).Some? {
          var k :| 0 <= k < |before| && before[k].source == name
                   && LastWritten(name, before, DeadLetterExchange) == Some(Str(DlxName(before[k])));
          assert dls[k] == before[k];
        }
      }
    }
  }

  /** The caller's entries come first, in order and unchanged but for arguments; no two
      exchanges and no two queues share a name. */
  lemma ExpandKeepsEntries(t: Topology)
    requires Unique(t)
    ensures var r := Expand(t);
            && t.bindings <= r.bindings && r.exchangeBindings == t.exchangeBindings && r.deadLetters == t.deadLetters
            && ExpandExchanges(t.exchanges) <= r.exchanges
            && |t.queues| <= |r.queues|
            && (forall i :: 0 <= i < |t.queues| ==> r.queues[i] == t.queues[i].(args := r.queues[i].args))
            && Unique(r)
  {
    MergedGrows(t);
    FinishKeepsNames(Merged(t).queues);
  }

  lemma FinishKeepsNames(qs: seq<Queue>)
    ensures QueueNames(FinishAll(qs)) == QueueNames(qs)
  {
  }

  /** Each dead letter with a declared source gets its exchange and its queue, bound together. */
  lemma DeadLetterWired(t: Topology, k: nat)
    requires Unique(t) && k < |t.deadLetters| && Declared(t, t.deadLetters[k].source)
    ensures Wired(Expand(t), t.deadLetters[k])
  {
    MergedGrows(t);
    FinishKeepsNames(Merged(t).queues);
    assert Wired(Merged(t), t.deadLetters[k]);
  }

  /** Each declared source of a dead letter names an exchange that exists and is bound to its
      `.dlq` queue. */
  lemma SourceNamesBoundExchange(t: Topology, i: nat, k: nat)
    requires Unique(t) && i < |t.queues| && k < |t.deadLetters| && t.deadLetters[k].source == t.queues[i].name
    ensures i < |Expand(t).queues|
    ensures exists j :: 0 <= j < |t.deadLetters| && t.deadLetters[j].source == t.queues[i].name
                        && At(Out(t, i).args, DeadLetterExchange) == Some(Str(DlxName(t.deadLetters[j])))
                        && Wired(Expand(t), t.deadLetters[j])
  {
    var name := t.queues[i].name;
    ArgAfter(t, i, DeadLetterExchange);
    LastExchangeWritten(name, t.deadLetters);
    var j :| 0 <= j < |t.deadLetters| && t.deadLetters[j].source == name
             && LastWritten(name, t.deadLetters, DeadLetterExchange) == Some(Str(DlxName(t.deadLetters[j])));
    assert QueueNames(t.queues)[i] == name;
    DeadLetterWired(t, j);
  }

  // ----- expanding twice -----

  lemma SameArgs(a: Args, b: Args)
    requires forall k :: At(a, k) == At(b, k)
    ensures a == b
  {
    forall k ensures k in a <==> k in b {
      assert At(a, k) == At(b, k);
    }
    forall k | k in a ensures a[k] == b[k] {
      assert At(a, k) == At(b, k);
    }
  }

  /** Dead letters that are already wired add no exchange, queue or binding. */
  lemma {:induction false} WiredAddsNothing(r: Topology, dls: seq<DeadLetter>)
    requires Unique(r) && forall k :: 0 <= k < |dls| && Declared(r, dls[k].source) ==> Wired(r, dls[k])
    ensures var r' := ExpandDeadLetters(r, |r.queues|, dls);
            |r'.queues| == |r.queues| && r'.exchanges == r.exchanges && r'.bindings == r.bindings
  {
    if dls != [] {
      var before, dl := dls[..|dls| - 1], dls[|dls| - 1];
      WiredAddsNothing(r, before);
      DeadLettersGrow(r, before);
      var r' := ExpandDeadLetters(r, |r.queues|, before);
      FindByName(r.queues, r'.queues, |r.queues|, dl.source);
      DeclaredIsFound(r, dl.source);
      assert QueueNames(r'.queues) == QueueNames(r.queues);
    }
  }

  /** Arguments that already hold what the dead letters write are left alone. */
  lemma InjectAllAgain(args: Args, name: string, dls: seq<DeadLetter>)
    requires forall k :: LastWritten(name, dls, k).Some? ==> At(args, k) == LastWritten(name, dls, k)
    ensures InjectAll(args, name, dls) == args
  {
    forall k ensures At(InjectAll(args, name, dls), k) == At(args, k) {
      InjectAllAt(args, name, dls, k);
    }
    SameArgs(InjectAll(args, name, dls), args);
  }

  lemma AddedBefore(q: Queue, k: Key)
    ensures Added(Finish(q), k).Some? ==> At(Finish(q).args, k) == Added(Finish(q), k)
  {
  }

  lemma FinishAgain(q: Queue)
    ensures Finish(Finish(q)) == Finish(q)
  {
    var p := Finish(q);
    forall k ensures At(Finish(p).args, k) == At(p.args, k) {
      FinishAt(p, k);
      AddedBefore(q, k);
    }
    SameArgs(Finish(p).args, p.args);
    FinishAt(p, Overflow);
  }

  /** A dead letter without a declared source names an auto-declared dead-letter queue. */
  ghost predicate Chained(t: Topology)
  {
    exists k :: 0 <= k < |t.deadLetters| && !Declared(t, t.deadLetters[k].source)
                && FromDeadLetter(t, t.deadLetters, t.deadLetters[k].source)
  }

  lemma {:induction false} NoneWritten(name: string, dls: seq<DeadLetter>, k: Key)
    requires forall j :: 0 <= j < |dls| ==> dls[j].source != name
    ensures LastWritten(name, dls, k).None?
  {
    if dls != [] {
      NoneWritten(name, dls[..|dls| - 1], k);
    }
  }

  lemma QueueStable(t: Topology, i: nat)
    requires Unique(t) && !Chained(t) && i < |Expand(t).queues|
    ensures InjectAll(Out(t, i).args, Out(t, i).name, t.deadLetters) == Out(t, i).args
    ensures Finish(Out(t, i)) == Out(t, i)
  {
    var q := Out(t, i);
    FinishAgain(Merged(t).queues[i]);
    forall k | LastWritten(q.name, t.deadLetters, k).Some?
      ensures At(q.args, k) == LastWritten(q.name, t.deadLetters, k)
    {
      if i < |t.queues| {
        ArgAfter(t, i, k);
        InjectAllAt(t.queues[i].args, q.name, t.deadLetters, k);
        OnlyWritten(q.name, t.deadLetters, k);
      } else {
        AutoNotSource(t, i);
        NoneWritten(q.name, t.deadLetters, k);
      }
    }
    InjectAllAgain(q.args, q.name, t.deadLetters);
  }

  lemma {:induction false} OnlyWritten(name: string, dls: seq<DeadLetter>, k: Key)
    requires LastWritten(name, dls, k).Some?
    ensures k.DeadLetterExchange? || k.DeadLetterRoutingKey? || k.MessageTTL? || k.MaxLength? || k.MaxLengthBytes? || k.Overflow?
  {
    if !(dls[|dls| - 1].source == name && Written(dls[|dls| - 1], k).Some?) {
      OnlyWritten(name, dls[..|dls| - 1], k);
    }
  }

  lemma AutoIsNew(t: Topology, i: nat)
    requires Unique(t) && |t.queues| <= i < |Expand(t).queues|
    ensures !Declared(t, Out(t, i).name) && FromDeadLetter(t, t.deadLetters, Out(t, i).name)
  {
    MergedGrows(t);
    ExpandKeepsEntries(t);
    var name, names := Out(t, i).name, QueueNames(Expand(t).queues);
    forall d | 0 <= d < |t.queues| ensures QueueNames(t.queues)[d] != name {
      assert names[d] != names[i];
    }
    var t' := t.(exchanges := ExpandExchanges(t.exchanges));
    assert FromDeadLetter(t', t.deadLetters, name);
    var j :| 0 <= j < |t.deadLetters| && Declared(t', t.deadLetters[j].source) && name == DlqName(t.deadLetters[j].source);
    assert Declared(t, t.deadLetters[j].source);
  }

  lemma AutoNotSource(t: Topology, i: nat)
    requires Unique(t) && !Chained(t) && |t.queues| <= i < |Expand(t).queues|
    ensures forall j :: 0 <= j < |t.deadLetters| ==> t.deadLetters[j].source != Out(t, i).name
  {
    AutoIsNew(t, i);
  }

  /** Expansion declares no source of a dead letter that the caller left out. */
  lemma SourceWasDeclared(t: Topology, k: nat)
    requires Unique(t) && !Chained(t) && k < |t.deadLetters| && Declared(Expand(t), t.deadLetters[k].source)
    ensures Declared(t, t.deadLetters[k].source)
  {
    ExpandKeepsEntries(t);
    var name := t.deadLetters[k].source;
    var i :| 0 <= i < |Expand(t).queues| && QueueNames(Expand(t).queues)[i] == name;
    if i < |t.queues| {
      assert QueueNames(t.queues)[i] == name;
    } else {
      AutoNotSource(t, i);
      assert false;
    }
  }

  lemma ExchangesStable(t: Topology)
    requires Unique(t)
    ensures ExpandExchanges(Expand(t).exchanges) == Expand(t).exchanges
  {
    MergedGrows(t);
    var es := Expand(t).exchanges;
    forall i | 0 <= i < |es| ensures WithAlternate(es[i]) == es[i] {
      if i < |t.exchanges| {
        assert es[i] == WithAlternate(t.exchanges[i]);
      }
    }
  }

  lemma ExpandTwiceSame(t: Topology)
    requires Unique(t) && !Chained(t)
    ensures Expand(Expand(t)) == Expand(t)
  {
    var r := Expand(t);
    ExpandKeepsEntries(t);
    ExchangesStable(t);
    forall k | 0 <= k < |r.deadLetters| && Declared(r, r.deadLetters[k].source) ensures Wired(r, r.deadLetters[k]) {
      SourceWasDeclared(t, k);
      DeadLetterWired(t, k);
    }
    WiredAddsNothing(r, r.deadLetters);
    DeadLettersGrow(r, r.deadLetters);
    assert r.(exchanges := ExpandExchanges(r.exchanges)) == r;
    var m := Merged(r);
    forall i | 0 <= i < |r.queues| ensures m.queues[i] == r.queues[i] && Finish(r.queues[i]) == r.queues[i] {
      QueueStable(t, i);
    }
    assert m.queues == r.queues;
    assert FinishAll(m.queues) == r.queues;
  }

  lemma NamedIsNew(t: Topology, i: nat)
    requires Unique(t) && i < |Expand(t).queues| && !Declared(t, Out(t, i).name)
    ensures |t.queues| <= i
  {
    ExpandKeepsEntries(t);
    forall d | 0 <= d < |t.queues| ensures Declared(t, Out(t, d).name) {
      assert QueueNames(t.queues)[d] == Out(t, d).name;
    }
  }

  lemma ChainedChanges(t: Topology)
    requires Unique(t) && Chained(t)
    ensures Expand(Expand(t)) != Expand(t)
  {
    var r := Expand(t);
    ExpandKeepsEntries(t);
    var k :| 0 <= k < |t.deadLetters| && !Declared(t, t.deadLetters[k].source)
             && FromDeadLetter(t, t.deadLetters, t.deadLetters[k].source);
    var name := t.deadLetters[k].source;
    var j :| 0 <= j < |t.deadLetters| && Declared(t, t.deadLetters[j].source) && name == DlqName(t.deadLetters[j].source);
    DeadLetterWired(t, j);
    var i :| 0 <= i < |r.queues| && QueueNames(r.queues)[i] == name;
    NamedIsNew(t, i);
    AutoAfter(t, i);
    SecondExpansionInjects(r, i, k);
  }

  lemma SecondExpansionInjects(r: Topology, i: nat, k: nat)
    requires Unique(r) && i < |r.queues| && k < |r.deadLetters| && r.deadLetters[k].source == r.queues[i].name
    ensures i < |Expand(r).queues| && DeadLetterExchange in Out(r, i).args
  {
    ArgAfter(r, i, DeadLetterExchange);
    LastExchangeWritten(r.queues[i].name, r.deadLetters);
  }

  /** Dead letters for the queue "q" and for the dead-letter queue that this gives it. */
  const CHAINED := Topology([], [Queue("q", true, false, false, false, "", 0, false, 0, map[])], [],
                            [PlainDeadLetter("q"), PlainDeadLetter("q.dlq")], [])

  function PlainDeadLetter(source: string): DeadLetter
  {
    DeadLetter(source, "", "", 0, 0, 0, "", 0, 0, "", false)
  }

  lemma ExampleAccepted()
    ensures Accepts(CHAINED)
  {
    var q := CHAINED.queues[0];
    assert QuorumAtLeastOnce(CHAINED, q) == Coupling(false, "", false);
    assert QueueOk(CHAINED, q);
  }

  lemma ExampleChained()
    ensures Unique(CHAINED) && Chained(CHAINED)
  {
    assert QueueNames(CHAINED.queues)[0] == "q";
    var dls := CHAINED.deadLetters;
    assert dls[0].source == "q" && dls[1].source == "q.dlq" && DlqName(dls[0].source) == "q.dlq";
    assert FromDeadLetter(CHAINED, dls, "q.dlq");
    assert !Declared(CHAINED, "q.dlq");
  }

  /** An accepted topology that a second expansion changes. */
  lemma ChainedExample()
    ensures Accepts(CHAINED) && Expand(Expand(CHAINED)) != Expand(CHAINED)
  {
    ExampleAccepted();
    ExampleChained();
    ChainedChanges(CHAINED);
  }

  /** Expanding an expansion changes nothing exactly when no dead letter without a declared
      source names an auto-declared dead-letter queue. */
  lemma ExpandTwiceIff(t: Topology)
    requires Unique(t)
    ensures Expand(Expand(t)) == Expand(t) <==> !Chained(t)
  {
    if Chained(t) {
      ChainedChanges(t);
    } else {
      ExpandTwiceSame(t);
    }
  }
}
