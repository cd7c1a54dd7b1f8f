/** The dedupe cache of the idempotent consumer: a recency list of MessageIDs with an index into
    it, bounded in size, whose entries expire.

    The specification looks only at the calls made so far.
  */
module SeenCache {
  import opened Optional

  /** A call, its clock reading, and whether it reported a first sight. */
  datatype Call = Call(id: string, at: int, novel: bool)

  datatype Entry = Entry(id: string, expires: int)

  // ------------------------------------------------------------------------------------------
  // Sequences without repetition
  // ------------------------------------------------------------------------------------------

  predicate NoDup<T(==)>(s: seq<T>)
  {
    forall i, j :: 0 <= i < j < |s| ==> s[i] != s[j]
  }

  function Without<T(==,!new)>(s: seq<T>, x: T): (r: seq<T>)
    ensures forall y :: y in r <==> y in s && y != x
    ensures |r| <= |s|
  {
    if s == [] then []
    else if s[0] == x then Without(s[1..], x)
    else [s[0]] + Without(s[1..], x)
  }

  function Take<T>(s: seq<T>, n: nat): seq<T>
  {
    if |s| <= n then s else s[..n]
  }

  lemma {:induction false} WithoutAbsent<T(!new)>(s: seq<T>, x: T)
    requires x !in s
    ensures Without(s, x) == s
  {
    if s != [] {
      WithoutAbsent(s[1..], x);
    }
  }

  lemma {:induction false} WithoutConcat<T(!new)>(a: seq<T>, b: seq<T>, x: T)
    ensures Without(a + b, x) == Without(a, x) + Without(b, x)
  {
    if a == [] {
      assert a + b == b;
    } else {
      assert (a + b)[1..] == a[1..] + b;
      WithoutConcat(a[1..], b, x);
    }
  }

  lemma {:induction false} WithoutNoDup<T(!new)>(s: seq<T>, x: T)
    requires NoDup(s)
    ensures NoDup(Without(s, x))
    ensures |Without(s, x)| == |s| - if x in s then 1 else 0
  {
    if s != [] {
      assert s[0] !in s[1..];
      WithoutNoDup(s[1..], x);
    }
  }

  // ------------------------------------------------------------------------------------------
  // Recency
  // ------------------------------------------------------------------------------------------

  function MoveToFront(s: seq<string>, x: string): seq<string>
  {
    [x] + Without(s, x)
  }

  /** The distinct ids called so far, the most recent first. */
  function Recent(h: seq<Call>): seq<string>
  {
    if h == [] then [] else MoveToFront(Recent(h[..|h| - 1]), h[|h| - 1].id)
  }

  lemma {:induction false} RecentNoDup(h: seq<Call>)
    ensures NoDup(Recent(h))
  {
    if h != [] {
      RecentNoDup(h[..|h| - 1]);
      WithoutNoDup(Recent(h[..|h| - 1]), h[|h| - 1].id);
    }
  }

  /** Moving to the front of a cut-off list is moving to the front of the whole list, cut off. */
  lemma CutOff(s: seq<string>, x: string, n: nat)
    requires NoDup(s)
    ensures Take(MoveToFront(Take(s, n), x), n) == Take(MoveToFront(s, x), n)
    ensures x in Take(s, n) ==> |MoveToFront(Take(s, n), x)| <= n
  {
    var t := Take(s, n);
    var rest := s[|t|..];
    assert s == t + rest;
    WithoutConcat(t, rest, x);
    WithoutNoDup(t, x);
    if x in t {
      assert x !in rest;
      WithoutAbsent(rest, x);
    }
  }

  // ------------------------------------------------------------------------------------------
  // What a call should report
  // ------------------------------------------------------------------------------------------

  /** When the last first sight of `id` runs out. */
  function Expiry(h: seq<Call>, id: string, ttl: int): Option<int>
  {
    if h == [] then None
    else if h[|h| - 1].id == id && h[|h| - 1].novel then Some(h[|h| - 1].at + ttl)
    else Expiry(h[..|h| - 1], id, ttl)
  }

  /** Among the most recently called ids, and not expired. */
  predicate Remembered(h: seq<Call>, id: string, now: int, capacity: nat, ttl: int)
  {
    id in Take(Recent(h), capacity) && Expiry(h, id, ttl).Some? && now < Expiry(h, id, ttl).value
  }

  predicate Consistent(h: seq<Call>, capacity: nat, ttl: int)
  {
    forall k :: 0 <= k < |h| ==> h[k].novel == !Remembered(h[..k], h[k].id, h[k].at, capacity, ttl)
  }

  function Touched(h: seq<Call>): set<string>
  {
    set c | c in h :: c.id
  }

  predicate LastTouch(h: seq<Call>, m: nat)
  {
    m < |h| && forall i :: m < i < |h| ==> h[i].id != h[m].id
  }

  lemma {:induction false} Split(s: seq<string>, r: nat, x: string)
    requires r < |s| && NoDup(s) && x != s[r]
    ensures var r' := |Without(s[..r], x)|;
            && r' == r - (if x in s[..r] then 1 else 0)
            && r' < |Without(s, x)| && Without(s, x)[r'] == s[r] && Without(s, x)[..r'] == Without(s[..r], x)
  {
    WithoutNoDup(s[..r], x);
    assert s == s[..r] + s[r..] && s[r..][1..] == s[r + 1..];
    WithoutConcat(s[..r], s[r..], x);
  }

  ghost predicate Behind(s: seq<string>, r: nat, id: string, t: set<string>)
  {
    r < |s| && s[r] == id && r == |t| && forall x :: x in s[..r] <==> x in t
  }

  lemma BehindOneMore(s: seq<string>, r: nat, id: string, t: set<string>, x: string)
    requires NoDup(s) && x != id && Behind(s, r, id, t)
    ensures Behind(MoveToFront(s, x), |t + {x}|, id, t + {x})
  {
    Split(s, r, x);
    var front, ahead := MoveToFront(s, x), [x] + Without(s[..r], x);
    assert front[..|ahead|] == ahead && front[|ahead|] == id;
    SizeWith(t, x);
    assert |t + {x}| == |ahead|;
    forall y ensures y in ahead <==> y in t + {x} {
      assert y in ahead <==> y == x || y in Without(s[..r], x);
    }
  }

  lemma SizeWith(t: set<string>, x: string)
    ensures |t + {x}| == |t| + if x in t then 0 else 1
  {
    assert x in t ==> t + {x} == t;
  }

  lemma TouchedOneMore(h: seq<Call>, m: nat)
    requires m + 1 < |h|
    ensures Touched(h[m + 1..]) == Touched(h[..|h| - 1][m + 1..]) + {h[|h| - 1].id}
  {
  }

  /** An id stands behind exactly the distinct ids called since its last call. */
  lemma {:induction false} Rank(h: seq<Call>, m: nat)
    requires LastTouch(h, m)
    ensures Behind(Recent(h), |Touched(h[m + 1..])|, h[m].id, Touched(h[m + 1..]))
  {
    var n := |h| - 1;
    if n == m {
      assert h[m + 1..] == [];
    } else {
      Rank(h[..n], m);
      RecentNoDup(h[..n]);
      TouchedOneMore(h, m);
      BehindOneMore(Recent(h[..n]), |Touched(h[..n][m + 1..])|, h[m].id, Touched(h[..n][m + 1..]), h[n].id);
    }
  }

  /** The cache keeps an id exactly while fewer than capacity others were called since. */
  lemma KeptIff(h: seq<Call>, m: nat, capacity: nat)
    requires LastTouch(h, m)
    ensures h[m].id in Take(Recent(h), capacity) <==> |Touched(h[m + 1..])| < capacity
  {
    Rank(h, m);
    RecentNoDup(h);
  }

  predicate ClockForward(h: seq<Call>)
  {
    forall i, j :: 0 <= i <= j < |h| ==> h[i].at <= h[j].at
  }

  lemma {:induction false} ExpiryAfter(h: seq<Call>, k: nat, ttl: int)
    requires ClockForward(h) && k < |h| && h[k].novel
    ensures var e := Expiry(h, h[k].id, ttl);
            e.Some? && h[k].at + ttl <= e.value
  {
    var n := |h| - 1;
    if !(h[n].id == h[k].id && h[n].novel) {
      ExpiryAfter(h[..n], k, ttl);
    }
  }

  /** A duplicate within the time to live of a first sight is reported as one, if since the last
      call with its id fewer than capacity others were called. */
  lemma DuplicateDetected(h: seq<Call>, k: nat, m: nat, j: nat, capacity: nat, ttl: int)
    requires Consistent(h, capacity, ttl) && ClockForward(h) && k <= m < j < |h|
    requires h[k].id == h[m].id == h[j].id && h[k].novel && h[j].at < h[k].at + ttl
    requires LastTouch(h[..j], m) && |Touched(h[..j][m + 1..])| < capacity
    ensures !h[j].novel
  {
    KeptIff(h[..j], m, capacity);
    ExpiryAfter(h[..j], k, ttl);
    assert h[j].novel == !Remembered(h[..j], h[j].id, h[j].at, capacity, ttl);
  }

  // ------------------------------------------------------------------------------------------
  // The cache
  // ------------------------------------------------------------------------------------------

  function Cap(capacity: int): nat
  {
    if capacity < 0 then 0 else capacity
  }

  /** List elements are numbers of nodes, as the source's are pointers. */
  function Ids(list: seq<nat>, nodes: seq<Entry>): seq<string>
  {
    seq(|list|, i requires 0 <= i < |list| => if list[i] < |nodes| then nodes[list[i]].id else "")
  }

  predicate Indexed(n: nat, nodes: seq<Entry>, index: map<string, nat>)
  {
    n < |nodes| && nodes[n].id in index && index[nodes[n].id] == n
  }

  /** The index holds exactly the listed ids, each with its element. */
  ghost predicate Agree(list: seq<nat>, nodes: seq<Entry>, index: map<string, nat>)
  {
    && (forall i :: 0 <= i < |list| ==> Indexed(list[i], nodes, index))
    && (forall id :: id in index ==> index[id] in list && index[id] < |nodes| && nodes[index[id]].id == id)
    && NoDup(list)
  }

  lemma {:induction false} IdsWithout(list: seq<nat>, nodes: seq<Entry>, index: map<string, nat>, n: nat)
    requires (forall i :: 0 <= i < |list| ==> Indexed(list[i], nodes, index)) && Indexed(n, nodes, index)
    ensures forall i :: 0 <= i < |Without(list, n)| ==> Indexed(Without(list, n)[i], nodes, index)
    ensures Ids(Without(list, n), nodes) == Without(Ids(list, nodes), nodes[n].id)
  {
    if list != [] {
      assert Indexed(list[0], nodes, index);
      IdsWithout(list[1..], nodes, index, n);
      assert Ids(list, nodes) == [nodes[list[0]].id] + Ids(list[1..], nodes);
    }
  }

  lemma InListIffIndexed(list: seq<nat>, nodes: seq<Entry>, index: map<string, nat>, id: string)
    requires Agree(list, nodes, index)
    ensures id in Ids(list, nodes) <==> id in index
  {
    if id in Ids(list, nodes) {
      var i :| 0 <= i < |list| && Ids(list, nodes)[i] == id;
      assert Indexed(list[i], nodes, index);
    }
    if id in index {
      var i :| 0 <= i < |list| && list[i] == index[id];
      assert Ids(list, nodes)[i] == id;
    }
  }

  lemma ConsistentGrows(h: seq<Call>, c: Call, capacity: nat, ttl: int)
    requires Consistent(h, capacity, ttl) && c.novel == !Remembered(h, c.id, c.at, capacity, ttl)
    ensures Consistent(h + [c], capacity, ttl)
  {
    var all := h + [c];
    forall k | 0 <= k < |all| ensures all[k].novel == !Remembered(all[..k], all[k].id, all[k].at, capacity, ttl) {
      if k == |h| {
        assert all[..k] == h;
      } else {
        assert all[..k] == h[..k] && all[k] == h[k];
      }
    }
  }

  lemma HistoryGrows(h: seq<Call>, c: Call, ttl: int)
    ensures Recent(h + [c]) == MoveToFront(Recent(h), c.id)
    ensures forall id :: Expiry(h + [c], id, ttl) == if id == c.id && c.novel then Some(c.at + ttl) else Expiry(h, id, ttl)
  {
    assert (h + [c])[..|h|] == h;
  }

  lemma IdsCons(n: nat, list: seq<nat>, nodes: seq<Entry>)
    requires n < |nodes|
    ensures Ids([n] + list, nodes) == [nodes[n].id] + Ids(list, nodes)
  {
  }

  lemma IdsSame(list: seq<nat>, nodes: seq<Entry>, index: map<string, nat>, e: Entry)
    requires Agree(list, nodes, index)
    ensures Ids(list, nodes + [e]) == Ids(list, nodes)
  {
  }

  lemma FrontIds(list: seq<nat>, nodes: seq<Entry>, index: map<string, nat>, n: nat)
    requires Agree(list, nodes, index) && Indexed(n, nodes, index)
    ensures Ids([n] + Without(list, n), nodes) == MoveToFront(Ids(list, nodes), nodes[n].id)
  {
    IdsWithout(list, nodes, index, n);
    IdsCons(n, Without(list, n), nodes);
  }

  lemma HistoryTakes(h: seq<Call>, c: Call, capacity: nat, ttl: int)
    requires Consistent(h, capacity, ttl) && c.novel == !Remembered(h, c.id, c.at, capacity, ttl)
    ensures Take(Recent(h + [c]), capacity) == Take(MoveToFront(Take(Recent(h), capacity), c.id), capacity)
    ensures c.id in Take(Recent(h), capacity) ==> |MoveToFront(Take(Recent(h), capacity), c.id)| <= capacity
    ensures forall id :: Expiry(h + [c], id, ttl) == if id == c.id && c.novel then Some(c.at + ttl) else Expiry(h, id, ttl)
    ensures Consistent(h + [c], capacity, ttl)
  {
    HistoryGrows(h, c, ttl);
    ConsistentGrows(h, c, capacity, ttl);
    RecentNoDup(h);
    CutOff(Recent(h), c.id, capacity);
  }

  /** Moving a listed element to the front keeps list and index in agreement. */
  lemma FrontAgrees(list: seq<nat>, nodes: seq<Entry>, index: map<string, nat>, n: nat)
    requires Agree(list, nodes, index) && Indexed(n, nodes, index)
    ensures Agree([n] + Without(list, n), nodes, index)
  {
    IdsWithout(list, nodes, index, n);
    WithoutNoDup(list, n);
    var rest := Without(list, n);
    var now := [n] + rest;
    forall i | 0 <= i < |now| ensures Indexed(now[i], nodes, index) {
      assert i > 0 ==> now[i] == rest[i - 1];
    }
    forall id | id in index ensures index[id] in now {
      assert index[id] in list;
    }
    assert NoDup(now) by { assert n !in rest; }
  }

  lemma PushIds(list: seq<nat>, nodes: seq<Entry>, index: map<string, nat>, e: Entry)
    requires Agree(list, nodes, index) && e.id !in index
    ensures Ids([|nodes|] + list, nodes + [e]) == MoveToFront(Ids(list, nodes), e.id)
  {
    InListIffIndexed(list, nodes, index, e.id);
    WithoutAbsent(Ids(list, nodes), e.id);
    IdsCons(|nodes|, list, nodes + [e]);
    IdsSame(list, nodes, index, e);
  }

  lemma PushAgrees(list: seq<nat>, nodes: seq<Entry>, index: map<string, nat>, e: Entry)
    requires Agree(list, nodes, index) && e.id !in index
    ensures Agree([|nodes|] + list, nodes + [e], index[e.id := |nodes|])
  {
  }

  lemma PopAgrees(list: seq<nat>, nodes: seq<Entry>, index: map<string, nat>)
    requires Agree(list, nodes, index) && list != []
    ensures var n := |list| - 1;
            && Indexed(list[n], nodes, index)
            && Agree(list[..n], nodes, index - {nodes[list[n]].id})
            && Ids(list[..n], nodes) == Ids(list, nodes)[..n]
  {
  }

  lemma Renewed(list: seq<nat>, nodes: seq<Entry>, index: map<string, nat>, n: nat, expires: int)
    requires Agree(list, nodes, index) && n < |nodes|
    ensures Agree(list, nodes[n := nodes[n].(expires := expires)], index)
    ensures Ids(list, nodes[n := nodes[n].(expires := expires)]) == Ids(list, nodes)
  {
  }

  lemma {:induction false} DistinctSize<T(!new)>(s: seq<T>, all: set<T>)
    requires NoDup(s) && forall x :: x in all <==> x in s
    ensures |all| == |s|
  {
    if s == [] {
      assert all == {};
    } else {
      assert s[0] !in s[1..];
      DistinctSize(s[1..], all - {s[0]});
    }
  }

  lemma SameSize(list: seq<nat>, nodes: seq<Entry>, index: map<string, nat>)
    requires Agree(list, nodes, index)
    ensures |index| == |list|
  {
    var ids := Ids(list, nodes);
    forall i, j | 0 <= i < j < |ids| ensures ids[i] != ids[j] {
      assert Indexed(list[i], nodes, index) && Indexed(list[j], nodes, index);
    }
    forall id ensures id in index.Keys <==> id in ids { InListIffIndexed(list, nodes, index, id); }
    DistinctSize(ids, index.Keys);
  }

  /** Every entry expires when its id's last first sight does. */
  ghost predicate Timed(h: seq<Call>, nodes: seq<Entry>, index: map<string, nat>, ttl: int)
  {
    forall id :: id in index ==> index[id] < |nodes| && Expiry(h, id, ttl) == Some(nodes[index[id]].expires)
  }

  lemma TimedInsert(h: seq<Call>, c: Call, nodes: seq<Entry>, index: map<string, nat>, ttl: int)
    requires Timed(h, nodes, index, ttl) && c.novel
    ensures Timed(h + [c], nodes + [Entry(c.id, c.at + ttl)], index[c.id := |nodes|], ttl)
  {
    assert (h + [c])[..|h|] == h;
  }

  ghost predicate Within(now: map<string, nat>, was: map<string, nat>)
  {
    forall id :: id in now ==> id in was && now[id] == was[id]
  }

  /** List and index agree and hold what the calls made so far say they should. */
  ghost predicate Models(list: seq<nat>, nodes: seq<Entry>, index: map<string, nat>, h: seq<Call>, capacity: int, ttl: int)
  {
    && Agree(list, nodes, index)
    && Ids(list, nodes) == Take(Recent(h), Cap(capacity))
    && Timed(h, nodes, index, ttl)
    && Consistent(h, Cap(capacity), ttl)
  }

  lemma ListBounded(list: seq<nat>, nodes: seq<Entry>, index: map<string, nat>, h: seq<Call>, capacity: int, ttl: int)
    requires Models(list, nodes, index, h, capacity, ttl)
    ensures |list| <= Cap(capacity)
  {
    assert |Ids(list, nodes)| == |list|;
  }

  lemma TimedTouch(h: seq<Call>, c: Call, nodes: seq<Entry>, index: map<string, nat>, n: nat, expires: int, ttl: int)
    requires Timed(h, nodes, index, ttl) && Indexed(n, nodes, index) && nodes[n].id == c.id
    requires expires == if c.novel then c.at + ttl else nodes[n].expires
    requires forall id :: id in index && id != c.id ==> index[id] != n
    ensures Timed(h + [c], nodes[n := nodes[n].(expires := expires)], index, ttl)
  {
    assert (h + [c])[..|h|] == h;
  }

  lemma TouchModels(list: seq<nat>, nodes: seq<Entry>, index: map<string, nat>, h: seq<Call>, c: Call,
                    n: nat, expires: int, capacity: int, ttl: int)
    requires Models(list, nodes, index, h, capacity, ttl) && Indexed(n, nodes, index) && nodes[n].id == c.id
    requires c.novel == !Remembered(h, c.id, c.at, Cap(capacity), ttl)
    requires expires == if c.novel then c.at + ttl else nodes[n].expires
    ensures Models([n] + Without(list, n), nodes[n := nodes[n].(expires := expires)], index, h + [c], capacity, ttl)
  {
    HistoryTakes(h, c, Cap(capacity), ttl);
    InListIffIndexed(list, nodes, index, c.id);
    FrontAgrees(list, nodes, index, n);
    FrontIds(list, nodes, index, n);
    Renewed([n] + Without(list, n), nodes, index, n, expires);
    TimedTouch(h, c, nodes, index, n, expires, ttl);
  }

  /** `e` has gone in at the front, and what is past capacity has gone out. */
  ghost predicate Pushed(list: seq<nat>, nodes: seq<Entry>, index: map<string, nat>, e: Entry,
                         list': seq<nat>, nodes': seq<Entry>, index': map<string, nat>, capacity: int)
  {
    && nodes' == nodes + [e] && Within(index', index[e.id := |nodes|])
    && Agree(list', nodes', index') && Agree(list, nodes, index)
    && Ids(list', nodes') == Take(MoveToFront(Ids(list, nodes), e.id), Cap(capacity))
  }

  /** What is listed then are the most recently called ids. */
  lemma PushedRecent(list: seq<nat>, nodes: seq<Entry>, index: map<string, nat>, h: seq<Call>, c: Call, e: Entry,
                     list': seq<nat>, nodes': seq<Entry>, index': map<string, nat>, capacity: int, ttl: int)
    requires Models(list, nodes, index, h, capacity, ttl) && c.id !in index && c.novel && e.id == c.id
    requires Pushed(list, nodes, index, e, list', nodes', index', capacity)
    ensures c.novel == !Remembered(h, c.id, c.at, Cap(capacity), ttl)
    ensures Ids(list', nodes') == Take(Recent(h + [c]), Cap(capacity))
  {
    InListIffIndexed(list, nodes, index, c.id);
    HistoryTakes(h, c, Cap(capacity), ttl);
  }

  lemma InsertModels(list: seq<nat>, nodes: seq<Entry>, index: map<string, nat>, h: seq<Call>, c: Call, e: Entry,
                     list': seq<nat>, nodes': seq<Entry>, index': map<string, nat>, capacity: int, ttl: int)
    requires Models(list, nodes, index, h, capacity, ttl) && c.id !in index && c.novel && e == Entry(c.id, c.at + ttl)
    requires Pushed(list, nodes, index, e, list', nodes', index', capacity)
    ensures Models(list', nodes', index', h + [c], capacity, ttl)
  {
    PushedRecent(list, nodes, index, h, c, e, list', nodes', index', capacity, ttl);
    ConsistentGrows(h, c, Cap(capacity), ttl);
    TimedInsert(h, c, nodes, index, ttl);
  }

  class Cache {
    const capacity: int
    const ttl: int
    var list: seq<nat>       // front first
    var nodes: seq<Entry>
    var index: map<string, nat>
    ghost var history: seq<Call>

    ghost predicate Valid()
      reads this
    {
      Models(list, nodes, index, history, capacity, ttl)
    }

    constructor (capacity: int, ttl: int)
      ensures Valid() && history == [] && this.capacity == capacity && this.ttl == ttl
    {
      this.capacity, this.ttl := capacity, ttl;
      list, nodes, index, history := [], [], map[], [];
    }

    /** An id that is listed: the element moves to the front, and a first sight renews it. */
    method Touch(n: nat, renewed: int, ghost call: Call)
      requires Valid() && Indexed(n, nodes, index) && nodes[n].id == call.id
      requires call.novel == !Remembered(history, call.id, call.at, Cap(capacity), ttl)
      requires renewed == if call.novel then call.at + ttl else nodes[n].expires
      modifies this`list, this`nodes, this`history
      ensures Valid() && history == old(history) + [call]
    {
      TouchModels(list, nodes, index, history, call, n, renewed, capacity, ttl);
      list := [n] + Without(list, n);
      nodes := nodes[n := nodes[n].(expires := renewed)];
      history := history + [call];
    }

    /** A new entry at the front; past capacity the least recently called id goes out. */
    method Push(e: Entry)
      requires Agree(list, nodes, index) && e.id !in index && |list| <= Cap(capacity)
      modifies this`list, this`nodes, this`index
      ensures Pushed(old(list), old(nodes), old(index), e, list, nodes, index, capacity)
    {
      PushAgrees(list, nodes, index, e);
      PushIds(list, nodes, index, e);
      list, nodes, index := [|nodes|] + list, nodes + [e], index[e.id := |nodes|];
      Evict();
    }

    /** An id that is not listed goes in at the front. */
    method Insert(e: Entry, ghost call: Call)
      requires Valid() && e.id !in index && call.novel && e == Entry(call.id, call.at + ttl)
      modifies this`list, this`nodes, this`index, this`history
      ensures Valid() && history == old(history) + [call]
    {
      ListBounded(list, nodes, index, history, capacity, ttl);
      Push(e);
      history := history + [call];
      InsertModels(old(list), old(nodes), old(index), old(history), call, e, list, nodes, index, capacity, ttl);
    }

    method Evict()
      requires Agree(list, nodes, index) && 0 < |list| <= Cap(capacity) + 1
      modifies this`list, this`index
      ensures Agree(list, nodes, index) && Ids(list, nodes) == Take(old(Ids(list, nodes)), Cap(capacity))
      ensures Within(index, old(index))
    {
      if |list| > capacity {
        var last := |list| - 1;
        PopAgrees(list, nodes, index);
        list, index := list[..last], index - {nodes[list[last]].id};
      }
    }

    /** Reports a first sight unless the id is among the most recently called and not expired. */
    method MarkSeen(id: string, now: int) returns (novel: bool)
      requires Valid()
      modifies this`list, this`nodes, this`index, this`history
      ensures Valid() && history == old(history) + [Call(id, now, novel)]
      ensures novel == !Remembered(old(history), id, now, Cap(capacity), ttl)
    {
      InListIffIndexed(list, nodes, index, id);
      if id in index {
        var n := index[id];
        var expires := nodes[n].expires;
        novel := !(now < expires);
        Touch(n, if novel then now + ttl else expires, Call(id, now, novel));
      } else {
        novel := true;
        Insert(Entry(id, now + ttl), Call(id, now, true));
      }
    }
  }

  /** Between calls the list and the index have the same size, within capacity. */
  lemma Bounded(c: Cache)
    requires c.Valid()
    ensures |c.list| <= Cap(c.capacity) && |c.index| == |c.list|
  {
    SameSize(c.list, c.nodes, c.index);
    assert |Ids(c.list, c.nodes)| == |c.list|;
  }
}
