/** The topology pre-pass: which topologies are accepted, what expansion adds to one, and
    which queues get the overflow warning.

    Argument names the library itself reads or writes are constructors of `Key`; all others
    are `Custom`.  A missing argument table and an empty one are the same table here.
  */
module Topology {
  import opened Optional

  datatype Key =
    | DeadLetterExchange | DeadLetterRoutingKey | DeadLetterStrategy
    | MessageTTL | MaxLength | MaxLengthBytes | Overflow
    | QueueType | DeliveryLimit | SingleActiveConsumer | MaxPriority
    | AlternateExchange | XAlternateExchange | DelayedType
    | Custom(name: string)

  /** An argument value: a string, a typed overflow policy, or anything else with its printed form. */
  datatype Value = Str(text: string) | Policy(policy: string) | Int(n: int) | Flag(on: bool) | Other(printed: string)

  type Args = map<Key, Value>

  datatype Exchange = Exchange(name: string, kind: string, durable: bool, autoDelete: bool, isInternal: bool,
                               noWait: bool, alternate: string, args: Args)

  datatype Queue = Queue(name: string, durable: bool, exclusive: bool, autoDelete: bool, noWait: bool,
                         kind: string, deliveryLimit: int, singleActive: bool, maxPriority: int, args: Args)

  datatype Binding = Binding(exchange: string, queue: string, routingKey: string, noWait: bool, args: Args)

  datatype ExchangeBinding = ExchangeBinding(source: string, destination: string, routingKey: string,
                                             noWait: bool, args: Args)

  /** Durations are nanoseconds; a policy is its text, empty when not set. */
  datatype DeadLetter = DeadLetter(source: string, exchange: string, routingKey: string, ttl: int,
                                   maxLength: int, maxLengthBytes: int, overflow: string,
                                   dlqMaxLength: int, dlqTTL: int, dlqOverflow: string, dlqUnbounded: bool)

  datatype Topology = Topology(exchanges: seq<Exchange>, queues: seq<Queue>, bindings: seq<Binding>,
                               deadLetters: seq<DeadLetter>, exchangeBindings: seq<ExchangeBinding>)

  const QUORUM := "quorum"
  const STREAM := "stream"
  const CLASSIC := "classic"
  const TOPIC := "topic"
  const FANOUT := "fanout"
  const DELAYED := "x-delayed-message"
  const AT_LEAST_ONCE := "at-least-once"
  const REJECT_PUBLISH := "reject-publish"
  const REJECT_PUBLISH_DLX := "reject-publish-dlx"
  const DROP_HEAD := "drop-head"
  const DEFAULT_DLQ_MAX_LENGTH := 100_000
  const DEFAULT_DLQ_TTL := 7 * 24 * 3600 * 1_000_000_000

  // ----- reading a queue's dead-letter arguments -----

  function OverflowString(v: Value): Option<string>
  {
    match v
    case Str(s) => Some(s)
    case Policy(p) => Some(p)
    case _ => None
  }

  function Printed(v: Value): string
  {
    match v
    case Int(n) => Decimal(n)
    case Flag(on) => if on then "true" else "false"
    case Other(printed) => printed
    case Str(s) => s
    case Policy(p) => p
  }

  function Decimal(n: int): string
    decreases n < 0, if n < 0 then -n else n
  {
    if n < 0 then "-" + Decimal(-n)
    else if n < 10 then [('0' as int + n) as char]
    else Decimal(n / 10) + Decimal(n % 10)
  }

  /** The text an overflow argument stands for. */
  function OverflowText(v: Value): string
  {
    match OverflowString(v)
    case Some(s) => s
    case None => Printed(v)
  }

  datatype Coupling = Coupling(atLeastOnce: bool, overflow: string, overflowSet: bool)

  /** The loop of quorumAtLeastOnce over the dead letters: whether there is a dead-letter
      exchange, the overflow text, and whether overflow is set. */
  function CouplingFold(name: string, dls: seq<DeadLetter>, hasDLX: bool, overflow: string, isSet: bool): (bool, string, bool)
  {
    if dls == [] then (hasDLX, overflow, isSet)
    else
      var last := dls[|dls| - 1];
      var (h, o, set_) := CouplingFold(name, dls[..|dls| - 1], hasDLX, overflow, isSet);
      if last.source != name then (h, o, set_)
      else if last.overflow != "" then (true, last.overflow, true)
      else (true, o, set_)
  }

  predicate OptsOut(args: Args)
  {
    DeadLetterStrategy in args && args[DeadLetterStrategy] != Str(AT_LEAST_ONCE)
  }

  /** Whether queue `q` will run the at-least-once strategy, and with which overflow. */
  function QuorumAtLeastOnce(t: Topology, q: Queue): Coupling
  {
    if q.kind != QUORUM then Coupling(false, "", false)
    else
      var isSet := Overflow in q.args;
      var (hasDLX, overflow, overflowSet) :=
        CouplingFold(q.name, t.deadLetters, DeadLetterExchange in q.args,
                     if isSet then OverflowText(q.args[Overflow]) else "", isSet);
      if !hasDLX then Coupling(false, "", false)
      else Coupling(!OptsOut(q.args), overflow, overflowSet)
  }

  /** The overflow warning is given for `q`. */
  predicate Warns(t: Topology, q: Queue)
  {
    QuorumAtLeastOnce(t, q).atLeastOnce && !QuorumAtLeastOnce(t, q).overflowSet
  }

  // ----- validation -----

  predicate KnownKind(kind: string)
  {
    kind in {"direct", FANOUT, TOPIC, "headers", DELAYED}
  }

  predicate KnownPolicy(policy: string)
  {
    policy in {"", DROP_HEAD, REJECT_PUBLISH, REJECT_PUBLISH_DLX}
  }

  predicate ExchangeOk(e: Exchange)
  {
    && e.name != "" && KnownKind(e.kind)
    && AlternateExchange !in e.args && XAlternateExchange !in e.args
    && (e.kind == DELAYED ==>
          && DelayedType in e.args && e.args[DelayedType].Str?
          && e.args[DelayedType].text != "" && e.args[DelayedType].text != DELAYED && KnownKind(e.args[DelayedType].text))
  }

  predicate QueueOk(t: Topology, q: Queue)
  {
    && q.name != ""
    && QueueType !in q.args && DeliveryLimit !in q.args && SingleActiveConsumer !in q.args && MaxPriority !in q.args
    && q.kind in {"", CLASSIC, QUORUM, STREAM}
    && (q.deliveryLimit > 0 ==> q.kind == QUORUM)
    && 0 <= q.maxPriority <= 255
    && (q.maxPriority > 0 ==> q.kind == "" || q.kind == CLASSIC)
    && (q.kind == QUORUM ==> q.durable && !q.exclusive && !q.autoDelete)
    && (q.kind == STREAM ==> q.durable && !q.singleActive && !q.exclusive && !q.autoDelete)
    && var c := QuorumAtLeastOnce(t, q);
       (c.atLeastOnce && c.overflowSet ==> c.overflow == REJECT_PUBLISH)
  }

  predicate BindingOk(t: Topology, b: Binding)
  {
    && b.exchange != "" && b.queue != ""
    && (b.routingKey != "" ==> forall e | e in t.exchanges && e.name == b.exchange :: e.kind != FANOUT)
  }

  predicate DeadLetterOk(t: Topology, dl: DeadLetter)
  {
    && dl.source != ""
    && (forall q | q in t.queues && q.name == dl.source :: q.kind != STREAM)
    && KnownPolicy(dl.overflow) && KnownPolicy(dl.dlqOverflow)
  }

  predicate Distinct(names: seq<string>)
  {
    forall i, j :: 0 <= i < j < |names| ==> names[i] != names[j]
  }

  function ExchangeNames(es: seq<Exchange>): (r: seq<string>)
    ensures |r| == |es| && forall i :: 0 <= i < |es| ==> r[i] == es[i].name
  {
    seq(|es|, i requires 0 <= i < |es| => es[i].name)
  }

  function QueueNames(qs: seq<Queue>): (r: seq<string>)
    ensures |r| == |qs| && forall i :: 0 <= i < |qs| ==> r[i] == qs[i].name
  {
    seq(|qs|, i requires 0 <= i < |qs| => qs[i].name)
  }

  predicate Accepts(t: Topology)
  {
    && Distinct(ExchangeNames(t.exchanges)) && Distinct(QueueNames(t.queues))
    && (forall e | e in t.exchanges :: ExchangeOk(e))
    && (forall q | q in t.queues :: QueueOk(t, q))
    && (forall b | b in t.bindings :: BindingOk(t, b))
    && (forall eb | eb in t.exchangeBindings :: eb.source != "" && eb.destination != "")
    && (forall dl | dl in t.deadLetters :: DeadLetterOk(t, dl))
  }

  // ----- expansion -----

  function DlxName(dl: DeadLetter): string
  {
    if dl.exchange == "" then dl.source + ".dlx" else dl.exchange
  }

  function DlqName(source: string): string
  {
    source + ".dlq"
  }

  function BindKey(dl: DeadLetter): string
  {
    if dl.routingKey != "" then dl.routingKey else "#"
  }

  /** Whole milliseconds, rounded toward zero. */
  function Millis(d: int): int
  {
    if d >= 0 then d / 1_000_000 else -(-d / 1_000_000)
  }

  function AutoDlqArgs(dl: DeadLetter): Args
  {
    if dl.dlqUnbounded then map[]
    else map[MaxLength := Int(if dl.dlqMaxLength == 0 then DEFAULT_DLQ_MAX_LENGTH else dl.dlqMaxLength),
             MessageTTL := Int(Millis(if dl.dlqTTL == 0 then DEFAULT_DLQ_TTL else dl.dlqTTL)),
             Overflow := Str(if dl.dlqOverflow == "" then DROP_HEAD else dl.dlqOverflow)]
  }

  function Put(args: Args, when: bool, k: Key, v: Value): Args
  {
    if when then args[k := v] else args
  }

  /** The arguments dead letter `dl` writes on its source queue. */
  function Inject(args: Args, dl: DeadLetter): Args
  {
    var a1 := args[DeadLetterExchange := Str(DlxName(dl))];
    var a2 := Put(a1, dl.routingKey != "", DeadLetterRoutingKey, Str(dl.routingKey));
    var a3 := Put(a2, dl.ttl > 0, MessageTTL, Int(Millis(dl.ttl)));
    var a4 := Put(a3, dl.maxLength > 0, MaxLength, Int(dl.maxLength));
    var a5 := Put(a4, dl.maxLengthBytes > 0, MaxLengthBytes, Int(dl.maxLengthBytes));
    Put(a5, dl.overflow != "", Overflow, Str(dl.overflow))
  }

  function WithAlternate(e: Exchange): Exchange
  {
    e.(args := Put(e.args, e.alternate != "", AlternateExchange, Str(e.alternate)))
  }

  function ExpandExchanges(es: seq<Exchange>): (r: seq<Exchange>)
    ensures |r| == |es| && forall i :: 0 <= i < |es| ==> r[i] == WithAlternate(es[i])
  {
    seq(|es|, i requires 0 <= i < |es| => WithAlternate(es[i]))
  }

  /** The place of the last queue with this name among the first `n`. */
  function Find(qs: seq<Queue>, n: nat, name: string): (r: Option<nat>)
    requires n <= |qs|
    ensures r.Some? ==> r.value < n && qs[r.value].name == name
    ensures r.None? ==> forall i :: 0 <= i < n ==> qs[i].name != name
  {
    if n == 0 then None
    else if qs[n - 1].name == name then Some(n - 1)
    else Find(qs, n - 1, name)
  }

  /** One dead letter; `n` is how many queues the caller declared.  A dead letter whose source
      the caller did not declare does nothing. */
  function ExpandOne(t: Topology, n: nat, dl: DeadLetter): Topology
    requires n <= |t.queues|
  {
    match Find(t.queues, n, dl.source)
    case None => t
    case Some(idx) =>
      var injected := t.queues[idx := t.queues[idx].(args := Inject(t.queues[idx].args, dl))];
      var dlx, dlq := DlxName(dl), DlqName(dl.source);
      t.(exchanges := if dlx in ExchangeNames(t.exchanges) then t.exchanges
                      else t.exchanges + [Exchange(dlx, TOPIC, true, false, false, false, "", map[])],
         queues := if dlq in QueueNames(t.queues) then injected
                   else injected + [Queue(dlq, true, false, false, false, "", 0, false, 0, AutoDlqArgs(dl))],
         bindings := if Bound(t.bindings, dlx, dlq, BindKey(dl)) then t.bindings
                     else t.bindings + [Binding(dlx, dlq, BindKey(dl), false, map[])])
  }

  predicate Bound(bs: seq<Binding>, exchange: string, queue: string, routingKey: string)
  {
    exists i :: 0 <= i < |bs| && bs[i].exchange == exchange && bs[i].queue == queue && bs[i].routingKey == routingKey
  }

  function ExpandDeadLetters(t: Topology, n: nat, dls: seq<DeadLetter>): (r: Topology)
    requires n <= |t.queues|
    ensures |t.queues| <= |r.queues|
  {
    if dls == [] then t
    else ExpandOne(ExpandDeadLetters(t, n, dls[..|dls| - 1]), n, dls[|dls| - 1])
  }

  /** The arguments that stand for a queue's typed fields. */
  function Typed(q: Queue): Args
  {
    var a1 := Put(q.args, q.deliveryLimit > 0, DeliveryLimit, Int(q.deliveryLimit));
    var a2 := Put(a1, q.singleActive, SingleActiveConsumer, Flag(true));
    var a3 := Put(a2, q.kind != "", QueueType, Str(q.kind));
    Put(a3, q.maxPriority > 0, MaxPriority, Int(q.maxPriority))
  }

  /** At-least-once dead lettering by default, and the overflow it needs. */
  function Strategy(kind: string, args: Args): Args
  {
    if kind != QUORUM || DeadLetterExchange !in args then args
    else
      var a := Put(args, DeadLetterStrategy !in args, DeadLetterStrategy, Str(AT_LEAST_ONCE));
      Put(a, !OptsOut(args) && Overflow !in a, Overflow, Str(REJECT_PUBLISH))
  }

  /** The last pass over one queue. */
  function Finish(q: Queue): Queue
  {
    q.(args := Strategy(q.kind, Typed(q)))
  }

  function FinishAll(qs: seq<Queue>): (r: seq<Queue>)
    ensures |r| == |qs| && forall i :: 0 <= i < |qs| ==> r[i] == Finish(qs[i])
  {
    seq(|qs|, i requires 0 <= i < |qs| => Finish(qs[i]))
  }

  /** Everything but the last pass. */
  function Merged(t: Topology): (r: Topology)
    ensures |t.queues| <= |r.queues|
  {
    ExpandDeadLetters(t.(exchanges := ExpandExchanges(t.exchanges)), |t.queues|, t.deadLetters)
  }

  function Expand(t: Topology): Topology
  {
    Merged(t).(queues := FinishAll(Merged(t).queues))
  }
}
