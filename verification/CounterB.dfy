/** The in-process redelivery counter (counter B): how often each message key may be requeued
    before the verdict is rewritten to a nack without requeue. */
module CounterB {

  datatype Outcome = Success | Requeue | Failure | MaxRedeliveries

  type Counts = map<string, nat>

  function Count(m: Counts, key: string): nat
  {
    if key in m then m[key] else 0
  }

  function KeySet(keys: seq<string>): set<string>
  {
    set k | k in keys
  }

  /** One more requeue would exceed the limit for one of the keys. */
  predicate Exceeds(limit: nat, m: Counts, keys: seq<string>)
  {
    exists i :: 0 <= i < |keys| && Count(m, keys[i]) + 1 > limit
  }

  /** The verdict on a batch of deliveries with these keys; a delivery of its own is a batch of one. */
  function Verdict(limit: nat, m: Counts, keys: seq<string>, o: Outcome): Outcome
  {
    if o == Requeue && Exceeds(limit, m, keys) then MaxRedeliveries else o
  }

  /** Every distinct key up by one. */
  function Raised(m: Counts, keys: seq<string>): Counts
  {
    m + (map k | k in KeySet(keys) :: Count(m, k) + 1)
  }

  lemma RaisedOneMore(m: Counts, keys: seq<string>, key: string)
    ensures Raised(m, keys + [key]) == Raised(m, keys)[key := Count(m, key) + 1]
  {
  }

  /** Every distinct key goes up by one when the batch is requeued, and is cleared otherwise. */
  function After(limit: nat, m: Counts, keys: seq<string>, o: Outcome): Counts
  {
    if Verdict(limit, m, keys, o) == Requeue
    then Raised(m, keys)
    else m - KeySet(keys)
  }

  class Counter {
    const limit: nat
    var counts: Counts

    constructor (limit: nat)
      requires limit > 0
      ensures this.limit == limit && counts == map[]
    {
      this.limit := limit;
      counts := map[];
    }

    /** One delivery; the whole body runs under the counter's lock. */
    method ApplyOne(key: string, o: Outcome) returns (r: Outcome)
      modifies this
      ensures r == Verdict(limit, old(counts), [key], o)
      ensures counts == After(limit, old(counts), [key], o)
    {
      assert [key][0] == key && KeySet([key]) == {key};
      if o != Requeue {
        counts := counts - {key};
        return o;
      }
      var current := Count(counts, key);
      if current + 1 > limit {
        counts := counts - {key};
        return MaxRedeliveries;
      }
      counts := counts[key := current + 1];
      return o;
    }

    /** A batch, from the one goroutine that consumes batches. */
    method ApplyBatch(keys: seq<string>, o: Outcome) returns (r: Outcome)
      modifies this
      ensures r == Verdict(limit, old(counts), keys, o)
      ensures counts == After(limit, old(counts), keys, o)
    {
      if o != Requeue {
        ClearAll(keys);
        return o;
      }
      if |keys| == 1 {
        assert [keys[0]] == keys;
        r := ApplyOne(keys[0], o);
        return;
      }
      var pairs: seq<(string, nat)> := [];
      for i := 0 to |keys|
        invariant counts == old(counts)
        invariant |pairs| == i
        invariant forall j :: 0 <= j < i ==> pairs[j] == (keys[j], Count(counts, keys[j]) + 1) && pairs[j].1 <= limit
      {
        var current := Count(counts, keys[i]);
        if current + 1 > limit {
          ClearAll(keys);
          return MaxRedeliveries;
        }
        pairs := pairs + [(keys[i], current + 1)];
      }
      StoreAll(keys, pairs);
      return o;
    }

    /** The second pass of a requeued batch. */
    method StoreAll(keys: seq<string>, pairs: seq<(string, nat)>)
      requires |pairs| == |keys|
      requires forall j :: 0 <= j < |keys| ==> pairs[j] == (keys[j], Count(counts, keys[j]) + 1)
      modifies this
      ensures counts == Raised(old(counts), keys)
    {
      for i := 0 to |pairs|
        invariant counts == Raised(old(counts), keys[..i])
      {
        RaisedOneMore(old(counts), keys[..i], keys[i]);
        assert keys[..i + 1] == keys[..i] + [keys[i]];
        counts := counts[pairs[i].0 := pairs[i].1];
      }
      assert keys[..|keys|] == keys;
    }

    method ClearAll(keys: seq<string>)
      modifies this
      ensures counts == old(counts) - KeySet(keys)
    {
      for i := 0 to |keys|
        invariant counts == old(counts) - KeySet(keys[..i])
      {
        assert keys[..i + 1] == keys[..i] + [keys[i]];
        counts := counts - {keys[i]};
      }
      assert keys[..|keys|] == keys;
    }
  }

  /** A call on the counter. */
  datatype Op = Op(keys: seq<string>, outcome: Outcome)

  function Run(limit: nat, ops: seq<Op>): Counts
  {
    if ops == [] then map[]
    else
      var m := Run(limit, ops[..|ops| - 1]);
      After(limit, m, ops[|ops| - 1].keys, ops[|ops| - 1].outcome)
  }

  /** The verdict of call `i`. */
  function VerdictAt(limit: nat, ops: seq<Op>, i: nat): Outcome
    requires i < |ops|
  {
    Verdict(limit, Run(limit, ops[..i]), ops[i].keys, ops[i].outcome)
  }

  lemma RunMore(limit: nat, ops: seq<Op>, i: nat)
    requires i < |ops|
    ensures Run(limit, ops[..i + 1]) == After(limit, Run(limit, ops[..i]), ops[i].keys, ops[i].outcome)
  {
    assert ops[..i + 1][..i] == ops[..i];
  }

  /** A call changes the count of one key by one step or to nothing. */
  lemma CountAfter(limit: nat, m: Counts, keys: seq<string>, o: Outcome, key: string)
    ensures Count(After(limit, m, keys, o), key) ==
              if key !in keys then Count(m, key)
              else if Verdict(limit, m, keys, o) == Requeue then Count(m, key) + 1 else 0
    ensures key in keys && Verdict(limit, m, keys, o) == Requeue ==> Count(m, key) + 1 <= limit
  {
  }

  /** No count ever exceeds the limit. */
  lemma {:induction false} CountBounded(limit: nat, ops: seq<Op>, key: string)
    ensures Count(Run(limit, ops), key) <= limit
  {
    if ops != [] {
      var n := |ops| - 1;
      CountBounded(limit, ops[..n], key);
      CountAfter(limit, Run(limit, ops[..n]), ops[n].keys, ops[n].outcome, key);
    }
  }

  /** The calls in [i, j) that concern `key`. */
  function Concerning(ops: seq<Op>, key: string, i: nat, j: nat): nat
    requires i <= j <= |ops|
  {
    if i == j then 0 else Concerning(ops, key, i, j - 1) + if key in ops[j - 1].keys then 1 else 0
  }

  predicate AllRequeued(limit: nat, ops: seq<Op>, key: string, i: nat, j: nat)
    requires i <= j <= |ops|
  {
    forall k :: i <= k < j && key in ops[k].keys ==> VerdictAt(limit, ops, k) == Requeue
  }

  lemma {:induction false} RequeuesAddUp(limit: nat, ops: seq<Op>, key: string, i: nat, j: nat)
    requires i <= j <= |ops| && AllRequeued(limit, ops, key, i, j)
    ensures Count(Run(limit, ops[..j]), key) == Count(Run(limit, ops[..i]), key) + Concerning(ops, key, i, j)
  {
    if i < j {
      RequeuesAddUp(limit, ops, key, i, j - 1);
      RunMore(limit, ops, j - 1);
      CountAfter(limit, Run(limit, ops[..j - 1]), ops[j - 1].keys, ops[j - 1].outcome, key);
    }
  }

  /** Between two verdicts that do not requeue a key, it is requeued at most `limit` times,
      whatever other keys share its batches. */
  lemma RequeuesBounded(limit: nat, ops: seq<Op>, key: string, i: nat, j: nat)
    requires i <= j <= |ops| && AllRequeued(limit, ops, key, i, j)
    ensures Concerning(ops, key, i, j) <= limit
  {
    RequeuesAddUp(limit, ops, key, i, j);
    CountBounded(limit, ops[..j], key);
  }

  /** The calls before `i` left no count for `key`: there are none, or the last cleared it. */
  predicate Cleared(limit: nat, ops: seq<Op>, key: string, i: nat)
    requires i <= |ops|
  {
    i == 0 || (key in ops[i - 1].keys && VerdictAt(limit, ops, i - 1) != Requeue)
  }

  /** The limit is not applied early: a delivery on its own is requeued as asked exactly while its
      key has been requeued fewer than `limit` times since it was last cleared. */
  lemma RequeuedUntilLimit(limit: nat, ops: seq<Op>, key: string, i: nat, j: nat)
    requires i <= j < |ops| && ops[j] == Op([key], Requeue)
    requires Cleared(limit, ops, key, i) && AllRequeued(limit, ops, key, i, j)
    ensures VerdictAt(limit, ops, j) == Requeue <==> Concerning(ops, key, i, j) < limit
  {
    ClearedIsZero(limit, ops, key, i);
    RequeuesAddUp(limit, ops, key, i, j);
    assert [key][0] == key;
  }

  lemma ClearedIsZero(limit: nat, ops: seq<Op>, key: string, i: nat)
    requires i <= |ops| && Cleared(limit, ops, key, i)
    ensures Count(Run(limit, ops[..i]), key) == 0
  {
    if i > 0 {
      RunMore(limit, ops, i - 1);
      CountAfter(limit, Run(limit, ops[..i - 1]), ops[i - 1].keys, ops[i - 1].outcome, key);
    }
  }
}
