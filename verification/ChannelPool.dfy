/** A pool of AMQP channels: a token semaphore and a queue of idle channels, both of capacity
    `size`, used by any number of goroutines.  Each step is one channel operation of the code,
    so every interleaving is a sequence of actions.  The two pools of the source are this machine:
    the one for publisher entries is `guarded`, a deferred function gives the token back when
    opening panics; the one for plain channels is not.
  */
module ChannelPool {

  type Thread = nat
  type Entry = nat

  /** Where a goroutine that holds a token is.  A goroutine that is not in the map holds none. */
  datatype Place =
    | Searching                 // at the select of getOrOpen
    | Checking(entry: Entry)    // took an idle entry, about to look at its close channel
    | Opening                   // found no idle entry, opening a channel
    | Holding(entry: Entry)     // acquire has returned
    | PuttingBack(entry: Entry) // release found the entry open
    | GivingToken               // about to return the token

  /** `overflowed` records whether release ever took the branch that finds the queue full, and
      `lost` how many tokens went with a panic. */
  datatype State = State(tokens: nat, idle: seq<Entry>, places: map<Thread, Place>,
                         dead: set<Entry>, nextEntry: Entry, overflowed: bool, lost: nat)

  datatype Action =
    | Acquire(t: Thread)
    | TakeIdle(t: Thread)
    | CheckIdle(t: Thread)
    | StartOpen(t: Thread)
    | OpenDone(t: Thread)
    | OpenFails(t: Thread)
    | OpenPanics(t: Thread)
    | Release(t: Thread)
    | PutBack(t: Thread)
    | GiveToken(t: Thread)
    | DrainOne
    | BrokerCloses(entry: Entry)

  function Init(size: nat): State
  {
    State(size, [], map[], {}, 0, false, 0)
  }

  predicate At(s: State, t: Thread, p: Place)
  {
    t in s.places && s.places[t] == p
  }

  /** One step; an action that cannot happen changes nothing. */
  function Next(guarded: bool, size: nat, s: State, a: Action): State
  {
    match a
    case Acquire(t) =>
      if s.tokens == 0 || t in s.places then s
      else s.(tokens := s.tokens - 1, places := s.places[t := Searching])
    case TakeIdle(t) =>
      if !At(s, t, Searching) || s.idle == [] then s
      else s.(idle := s.idle[1..], places := s.places[t := Checking(s.idle[0])])
    case CheckIdle(t) =>
      if t !in s.places || !s.places[t].Checking? then s
      else if s.places[t].entry in s.dead then s.(places := s.places[t := Searching])
      else s.(places := s.places[t := Holding(s.places[t].entry)])
    case StartOpen(t) =>
      if !At(s, t, Searching) || s.idle != [] then s
      else s.(places := s.places[t := Opening])
    case OpenDone(t) =>
      if !At(s, t, Opening) then s
      else s.(places := s.places[t := Holding(s.nextEntry)], nextEntry := s.nextEntry + 1)
    case OpenFails(t) =>
      if !At(s, t, Opening) then s else s.(places := s.places[t := GivingToken])
    case OpenPanics(t) =>
      if !At(s, t, Opening) then s
      else if guarded then s.(places := s.places[t := GivingToken])
      else s.(places := s.places - {t}, lost := s.lost + 1)
    case Release(t) =>
      if t !in s.places || !s.places[t].Holding? then s
      else if s.places[t].entry in s.dead then s.(places := s.places[t := GivingToken])
      else s.(places := s.places[t := PuttingBack(s.places[t].entry)])
    case PutBack(t) =>
      if t !in s.places || !s.places[t].PuttingBack? then s
      else if |s.idle| < size
      then s.(idle := s.idle + [s.places[t].entry], places := s.places[t := GivingToken])
      else s.(places := s.places[t := GivingToken], overflowed := true)
    case GiveToken(t) =>
      if !At(s, t, GivingToken) || s.tokens >= size then s
      else s.(tokens := s.tokens + 1, places := s.places - {t})
    case DrainOne => if s.idle == [] then s else s.(idle := s.idle[1..])
    case BrokerCloses(e) => s.(dead := s.dead + {e})
  }

  function Run(guarded: bool, size: nat, actions: seq<Action>): State
  {
    if actions == [] then Init(size)
    else Next(guarded, size, Run(guarded, size, actions[..|actions| - 1]), actions[|actions| - 1])
  }

  /** The goroutines that have, or are about to have, a channel. */
  function Owners(places: map<Thread, Place>): set<Thread>
  {
    set t | t in places && !places[t].Searching? && !places[t].GivingToken?
  }

  predicate Has(s: State, t: Thread, e: Entry)
  {
    && t in s.places
    && (s.places[t].Checking? || s.places[t].Holding? || s.places[t].PuttingBack?)
    && s.places[t].entry == e
  }

  /** Every token is in the semaphore, with a goroutine, or lost to a panic, and there are never
      more channels than tokens. */
  predicate Balanced(size: nat, s: State)
  {
    && s.tokens + |s.places| + s.lost == size
    && |s.idle| + |Owners(s.places)| <= size
    && !s.overflowed
  }

  /** A channel is in one place only. */
  ghost predicate Exclusive(s: State)
  {
    && (forall i, j :: 0 <= i < j < |s.idle| ==> s.idle[i] != s.idle[j])
    && (forall i :: 0 <= i < |s.idle| ==> s.idle[i] < s.nextEntry)
    && (forall t: Thread, e: Entry :: Has(s, t, e) ==> e < s.nextEntry && e !in s.idle)
    && (forall t: Thread, u: Thread, e: Entry :: Has(s, t, e) && Has(s, u, e) ==> t == u)
  }

  lemma {:induction false} CardinalityOfSubset(a: set<Thread>, b: set<Thread>)
    requires a <= b
    ensures |a| <= |b|
  {
    if a != {} {
      var x :| x in a;
      CardinalityOfSubset(a - {x}, b - {x});
    }
  }

  lemma OwnersBounded(places: map<Thread, Place>)
    ensures |Owners(places)| <= |places|
  {
    CardinalityOfSubset(Owners(places), places.Keys);
  }

  /** Moving one goroutine changes the owners by at most that goroutine. */
  lemma MoveOwner(places: map<Thread, Place>, t: Thread, p: Place)
    requires t in places
    ensures |places[t := p]| == |places|
    ensures |Owners(places[t := p])| - |Owners(places)| ==
              (if t in Owners(places[t := p]) then 1 else 0) - (if t in Owners(places) then 1 else 0)
    ensures t in Owners(places) ==> |Owners(places)| > 0
  {
    assert places[t := p].Keys == places.Keys;
    var was, now := Owners(places), Owners(places[t := p]);
    assert was - {t} == now - {t};
    assert t in was ==> |was - {t}| == |was| - 1;
    assert t in now ==> |now - {t}| == |now| - 1;
    assert t !in was ==> was - {t} == was;
    assert t !in now ==> now - {t} == now;
  }

  lemma EnterOrLeave(places: map<Thread, Place>, t: Thread)
    ensures t !in places ==>
              |places[t := Searching]| == |places| + 1 && Owners(places[t := Searching]) == Owners(places)
    ensures t in places ==> |places - {t}| == |places| - 1 && Owners(places - {t}) == Owners(places) - {t}
  {
    assert t in places ==> (places - {t}).Keys == places.Keys - {t};
  }

  lemma NextBalanced(guarded: bool, size: nat, s: State, a: Action)
    requires Balanced(size, s) && (guarded ==> s.lost == 0)
    ensures Balanced(size, Next(guarded, size, s, a)) && (guarded ==> Next(guarded, size, s, a).lost == 0)
  {
    OwnersBounded(s.places);
    if a.Acquire? || a.GiveToken? || (a.OpenPanics? && !guarded) {
      EnterOrLeave(s.places, a.t);
    } else if !a.DrainOne? && !a.BrokerCloses? && a.t in s.places {
      MoveOwner(s.places, a.t, Next(guarded, size, s, a).places[a.t]);
      OwnersBounded(s.places[a.t := Opening]);
    }
  }

  /** Where a channel that a goroutine has after a step was before it. */
  predicate CameFrom(s: State, a: Action, t: Thread, e: Entry)
  {
    Has(s, t, e) || (a == TakeIdle(t) && s.idle != [] && s.idle[0] == e) || (a == OpenDone(t) && e == s.nextEntry)
  }

  lemma EntryCameFrom(guarded: bool, size: nat, s: State, a: Action, t: Thread, e: Entry)
    requires Has(Next(guarded, size, s, a), t, e)
    ensures CameFrom(s, a, t, e)
  {
  }

  lemma IdleKept(guarded: bool, size: nat, s: State, a: Action)
    requires Exclusive(s)
    ensures var r := Next(guarded, size, s, a);
            && s.nextEntry <= r.nextEntry
            && (r.idle == s.idle || (s.idle != [] && r.idle == s.idle[1..])
                || (a.PutBack? && Has(s, a.t, s.places[a.t].entry) && r.idle == s.idle + [s.places[a.t].entry]
                    && !Has(r, a.t, s.places[a.t].entry)))
  {
  }

  lemma NextExclusive(guarded: bool, size: nat, s: State, a: Action)
    requires Exclusive(s)
    ensures Exclusive(Next(guarded, size, s, a))
  {
    var r := Next(guarded, size, s, a);
    IdleKept(guarded, size, s, a);
    forall t: Thread, e: Entry | Has(r, t, e) ensures e < r.nextEntry && e !in r.idle {
      EntryCameFrom(guarded, size, s, a, t, e);
    }
    forall t: Thread, u: Thread, e: Entry | Has(r, t, e) && Has(r, u, e) ensures t == u {
      EntryCameFrom(guarded, size, s, a, t, e);
      EntryCameFrom(guarded, size, s, a, u, e);
    }
  }

  /** In every interleaving every token is accounted for, there are at most `size` channels that
      are idle, held or being opened, each channel is in one place, the overflow branch of release
      has not been taken, and a goroutine that has a token to return finds room for it. */
  lemma {:induction false} PoolSafe(guarded: bool, size: nat, actions: seq<Action>)
    ensures Balanced(size, Run(guarded, size, actions)) && Exclusive(Run(guarded, size, actions))
    ensures guarded ==> Run(guarded, size, actions).lost == 0
    ensures forall t :: At(Run(guarded, size, actions), t, GivingToken) ==> Run(guarded, size, actions).tokens < size
  {
    if actions != [] {
      var before := Run(guarded, size, actions[..|actions| - 1]);
      PoolSafe(guarded, size, actions[..|actions| - 1]);
      NextBalanced(guarded, size, before, actions[|actions| - 1]);
      NextExclusive(guarded, size, before, actions[|actions| - 1]);
    }
    forall t | At(Run(guarded, size, actions), t, GivingToken) ensures Run(guarded, size, actions).tokens < size {
      CardinalityOfSubset({t}, Run(guarded, size, actions).places.Keys);
    }
  }

  /** No token is missing. */
  predicate Conserved(size: nat, s: State)
  {
    s.tokens + |s.places| == size
  }

  const PANIC: seq<Action> := [Acquire(0), StartOpen(0), OpenPanics(0)]

  /** Without the guard a panic in opening shrinks the pool for good. */
  lemma PanicLosesToken(size: nat)
    requires size > 0
    ensures !Conserved(size, Run(false, size, PANIC))
  {
    assert PANIC[..2][..1] == PANIC[..1] && PANIC[..1][..0] == [];
    assert Run(false, size, PANIC[..1]).places == map[0 := Searching];
    assert Run(false, size, PANIC[..2]).places == map[0 := Opening];
    assert Run(false, size, PANIC).places == map[];
  }

  /** Tokens are conserved in every interleaving exactly with the guard, or if there are none. */
  lemma ConservedIffGuarded(guarded: bool, size: nat)
    ensures (forall actions :: Conserved(size, Run(guarded, size, actions))) <==> guarded || size == 0
  {
    if guarded || size == 0 {
      forall actions ensures Conserved(size, Run(guarded, size, actions)) { PoolSafe(guarded, size, actions); }
    } else {
      PanicLosesToken(size);
    }
  }
}
