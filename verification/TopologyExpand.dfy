/** Expansion as the library runs it: one pass over the dead letters with an index of the
    declared queues and sets of the names and bindings seen so far. */
module TopologyExpand {
  import opened Optional
  import opened Topology
  import opened TopologyProof

  ghost predicate Indexes(queueIdx: map<string, nat>, qs: seq<Queue>, n: nat)
    requires n <= |qs|
  {
    forall name :: Find(qs, n, name) == if name in queueIdx then Some(queueIdx[name]) else None
  }

  type BindingKey = (string, string, string)

  ghost predicate Keys(keys: set<BindingKey>, bs: seq<Binding>)
  {
    forall e, q, k :: (e, q, k) in keys <==> Bound(bs, e, q, k)
  }

  ghost predicate Names(names: set<string>, of: seq<string>)
  {
    forall name :: name in names <==> name in of
  }

  method IndexQueues(qs: seq<Queue>) returns (queueIdx: map<string, nat>, names: set<string>)
    ensures Indexes(queueIdx, qs, |qs|) && Names(names, QueueNames(qs))
  {
    queueIdx, names := map[], {};
    for i := 0 to |qs|
      invariant Indexes(queueIdx, qs, i)
      invariant forall name :: name in names <==> name in QueueNames(qs)[..i]
    {
      queueIdx := queueIdx[qs[i].name := i];
      names := names + {qs[i].name};
      assert QueueNames(qs)[..i + 1] == QueueNames(qs)[..i] + [qs[i].name];
    }
    assert QueueNames(qs)[..|qs|] == QueueNames(qs);
  }

  method ExpandAlternates(es: seq<Exchange>) returns (out: seq<Exchange>, names: set<string>)
    ensures out == ExpandExchanges(es) && Names(names, ExchangeNames(out))
  {
    out, names := [], {};
    for i := 0 to |es|
      invariant |out| == i && forall j :: 0 <= j < i ==> out[j] == WithAlternate(es[j])
      invariant forall name :: name in names <==> name in ExchangeNames(out)
    {
      var e := es[i];
      if e.alternate != "" {
        e := e.(args := e.args[AlternateExchange := Str(e.alternate)]);
      }
      assert ExchangeNames(out + [e]) == ExchangeNames(out) + [e.name];
      out := out + [e];
      names := names + {e.name};
    }
  }

  method IndexBindings(bs: seq<Binding>) returns (keys: set<BindingKey>)
    ensures Keys(keys, bs)
  {
    keys := {};
    for i := 0 to |bs|
      invariant Keys(keys, bs[..i])
    {
      BoundMore(bs[..i], bs[i]);
      assert bs[..i + 1] == bs[..i] + [bs[i]];
      keys := keys + {(bs[i].exchange, bs[i].queue, bs[i].routingKey)};
    }
    assert bs[..|bs|] == bs;
  }

  lemma BoundMore(bs: seq<Binding>, b: Binding)
    ensures forall e, q, k :: Bound(bs + [b], e, q, k) <==>
              Bound(bs, e, q, k) || (e == b.exchange && q == b.queue && k == b.routingKey)
  {
    var all := bs + [b];
    forall e, q, k
      ensures Bound(all, e, q, k) <==> Bound(bs, e, q, k) || (e == b.exchange && q == b.queue && k == b.routingKey)
    {
      if Bound(bs, e, q, k) {
        var i :| 0 <= i < |bs| && bs[i].exchange == e && bs[i].queue == q && bs[i].routingKey == k;
        assert all[i] == bs[i];
      }
      assert all[|bs|] == b;
    }
  }

  /** The arguments one dead letter writes, one `if` at a time. */
  method InjectArgs(args: Args, dl: DeadLetter) returns (r: Args)
    ensures r == Inject(args, dl)
  {
    r := args[DeadLetterExchange := Str(DlxName(dl))];
    if dl.routingKey != "" { r := r[DeadLetterRoutingKey := Str(dl.routingKey)]; }
    if dl.ttl > 0 { r := r[MessageTTL := Int(Millis(dl.ttl))]; }
    if dl.maxLength > 0 { r := r[MaxLength := Int(dl.maxLength)]; }
    if dl.maxLengthBytes > 0 { r := r[MaxLengthBytes := Int(dl.maxLengthBytes)]; }
    if dl.overflow != "" { r := r[Overflow := Str(dl.overflow)]; }
  }

  method TypedArgs(q: Queue) returns (args: Args)
    ensures args == Typed(q)
  {
    args := q.args;
    if q.deliveryLimit > 0 { args := args[DeliveryLimit := Int(q.deliveryLimit)]; }
    if q.singleActive { args := args[SingleActiveConsumer := Flag(true)]; }
    if q.kind != "" { args := args[QueueType := Str(q.kind)]; }
    if q.maxPriority > 0 { args := args[MaxPriority := Int(q.maxPriority)]; }
  }

  /** The last pass over one queue, as written. */
  method FinishQueue(q: Queue) returns (r: Queue)
    ensures r == Finish(q)
  {
    var args := TypedArgs(q);
    if q.kind == QUORUM && DeadLetterExchange in args {
      var hasStrategy := DeadLetterStrategy in args;
      var effective := !hasStrategy || args[DeadLetterStrategy] == Str(AT_LEAST_ONCE);
      if !hasStrategy { args := args[DeadLetterStrategy := Str(AT_LEAST_ONCE)]; }
      if effective && Overflow !in args { args := args[Overflow := Str(REJECT_PUBLISH)]; }
    }
    r := q.(args := args);
  }

  lemma NamesMore(qs: seq<Queue>, i: nat, args: Args, q: Queue)
    requires i < |qs|
    ensures QueueNames(qs[i := qs[i].(args := args)]) == QueueNames(qs)
    ensures QueueNames(qs[i := qs[i].(args := args)] + [q]) == QueueNames(qs) + [q.name]
  {
  }

  lemma IndexKept(queueIdx: map<string, nat>, qs: seq<Queue>, qs': seq<Queue>, n: nat)
    requires n <= |qs| && n <= |qs'| && Indexes(queueIdx, qs, n)
    requires forall i :: 0 <= i < n ==> qs'[i].name == qs[i].name
    ensures Indexes(queueIdx, qs', n)
  {
    forall name ensures Find(qs', n, name) == if name in queueIdx then Some(queueIdx[name]) else None {
      FindByName(qs, qs', n, name);
    }
  }

  /** Declares the dead-letter exchange once. */
  method AddExchange(es: seq<Exchange>, names: set<string>, dlx: string) returns (es': seq<Exchange>, names': set<string>)
    requires Names(names, ExchangeNames(es))
    ensures es' == if dlx in ExchangeNames(es) then es
                   else es + [Exchange(dlx, TOPIC, true, false, false, false, "", map[])]
    ensures Names(names', ExchangeNames(es'))
  {
    es', names' := es, names;
    if dlx !in names {
      var e := Exchange(dlx, TOPIC, true, false, false, false, "", map[]);
      assert ExchangeNames(es + [e]) == ExchangeNames(es) + [dlx];
      es', names' := es + [e], names + {dlx};
    }
  }

  /** Binds the dead-letter queue once. */
  method AddBinding(bs: seq<Binding>, keys: set<BindingKey>, dlx: string, dlq: string, routingKey: string)
      returns (bs': seq<Binding>, keys': set<BindingKey>)
    requires Keys(keys, bs)
    ensures bs' == if Bound(bs, dlx, dlq, routingKey) then bs
                   else bs + [Binding(dlx, dlq, routingKey, false, map[])]
    ensures Keys(keys', bs')
  {
    bs', keys' := bs, keys;
    if (dlx, dlq, routingKey) !in keys {
      var b := Binding(dlx, dlq, routingKey, false, map[]);
      BoundMore(bs, b);
      bs', keys' := bs + [b], keys + {(dlx, dlq, routingKey)};
    }
  }

  /** One turn of the dead-letter loop. */
  method ExpandDeadLetter(t: Topology, n: nat, dl: DeadLetter, queueIdx: map<string, nat>,
                          exchNames: set<string>, queueNames: set<string>, keys: set<BindingKey>)
      returns (r: Topology, exchNames': set<string>, queueNames': set<string>, keys': set<BindingKey>)
    requires n <= |t.queues| && Indexes(queueIdx, t.queues, n)
    requires Names(exchNames, ExchangeNames(t.exchanges)) && Names(queueNames, QueueNames(t.queues)) && Keys(keys, t.bindings)
    ensures r == ExpandOne(t, n, dl) && Indexes(queueIdx, r.queues, n)
    ensures Names(exchNames', ExchangeNames(r.exchanges)) && Names(queueNames', QueueNames(r.queues)) && Keys(keys', r.bindings)
  {
    r, exchNames', queueNames', keys' := t, exchNames, queueNames, keys;
    assert Find(t.queues, n, dl.source) == if dl.source in queueIdx then Some(queueIdx[dl.source]) else None;
    if dl.source !in queueIdx {
      return;
    }
    var idx := queueIdx[dl.source];
    var dlx, dlq := DlxName(dl), DlqName(dl.source);
    var args := InjectArgs(t.queues[idx].args, dl);
    var auto := Queue(dlq, true, false, false, false, "", 0, false, 0, AutoDlqArgs(dl));
    NamesMore(t.queues, idx, args, auto);
    r := r.(queues := t.queues[idx := t.queues[idx].(args := args)]);
    var es;
    es, exchNames' := AddExchange(r.exchanges, exchNames, dlx);
    if dlq !in queueNames {
      r := r.(queues := r.queues + [auto]);
      queueNames' := queueNames + {dlq};
    }
    var bs;
    bs, keys' := AddBinding(r.bindings, keys, dlx, dlq, BindKey(dl));
    r := r.(exchanges := es, bindings := bs);
    IndexKept(queueIdx, t.queues, r.queues, n);
  }

  lemma ExpandedNext(t: Topology, n: nat, dls: seq<DeadLetter>, k: nat)
    requires n <= |t.queues| && k < |dls|
    ensures ExpandDeadLetters(t, n, dls[..k + 1]) == ExpandOne(ExpandDeadLetters(t, n, dls[..k]), n, dls[k])
  {
    assert dls[..k + 1][..k] == dls[..k];
  }

  /** The pass over the dead letters. */
  method ExpandAll(t: Topology, exchNames: set<string>, queueIdx: map<string, nat>, queueNames: set<string>,
                   keys: set<BindingKey>)
    returns (out: Topology)
    requires Indexes(queueIdx, t.queues, |t.queues|)
    requires Names(exchNames, ExchangeNames(t.exchanges)) && Names(queueNames, QueueNames(t.queues))
    requires Keys(keys, t.bindings)
    ensures out == ExpandDeadLetters(t, |t.queues|, t.deadLetters)
  {
    out := t;
    var es, qs, ks := exchNames, queueNames, keys;
    for k := 0 to |t.deadLetters|
      invariant out == ExpandDeadLetters(t, |t.queues|, t.deadLetters[..k])
      invariant Indexes(queueIdx, out.queues, |t.queues|)
      invariant Names(es, ExchangeNames(out.exchanges)) && Names(qs, QueueNames(out.queues))
      invariant Keys(ks, out.bindings)
    {
      ExpandedNext(t, |t.queues|, t.deadLetters, k);
      out, es, qs, ks := ExpandDeadLetter(out, |t.queues|, t.deadLetters[k], queueIdx, es, qs, ks);
    }
    assert t.deadLetters[..|t.deadLetters|] == t.deadLetters;
  }

  method ExpandTopology(t: Topology) returns (out: Topology)
    ensures out == Expand(t)
  {
    var es, exchNames := ExpandAlternates(t.exchanges);
    var queueIdx, queueNames := IndexQueues(t.queues);
    var keys := IndexBindings(t.bindings);
    out := ExpandAll(t.(exchanges := es), exchNames, queueIdx, queueNames, keys);
    var qs := FinishQueues(out.queues);
    out := out.(queues := qs);
  }

  method FinishQueues(queues: seq<Queue>) returns (qs: seq<Queue>)
    ensures qs == FinishAll(queues)
  {
    qs := [];
    for i := 0 to |queues|
      invariant |qs| == i && forall j :: 0 <= j < i ==> qs[j] == Finish(queues[j])
    {
      var q := FinishQueue(queues[i]);
      qs := qs + [q];
    }
  }
}
