/** What the frames handled on a channel say about one published message, whoever reads them:
    the first frame that settles its tag, and the return that went before. */
module ConfirmWire {
  import opened ConfirmSpec
  import opened Optional

  datatype Frame = Return(msgId: string, code: nat) | Confirm(tag: nat, ack: bool) | Closed

  /** The verdict so far, the code of the last return that named the message, and the names a
      return may still use. */
  datatype Seen = Seen(first: Option<Verdict>, mark: Option<nat>, left: set<string>)

  function See(tag: nat, w: Seen, f: Frame): Seen
  {
    if w.first.Some? then w
    else
      match f
      case Return(m, code) => if m != "" && m in w.left then Seen(None, Some(code), w.left - {m}) else w
      case Confirm(t, ack) =>
        if t != tag then w
        else w.(first := Some(if !ack then Nacked else if w.mark.Some? then Unroutable(w.mark.value) else Confirmed))
      case Closed => w.(first := Some(ChannelClosed))
  }

  /** A message with tag `tag` that returns know under `names`, after the frames `fs`. */
  function Wire(names: set<string>, tag: nat, fs: seq<Frame>): (w: Seen)
    ensures w.left <= names
  {
    if fs == [] then Seen(None, None, names) else See(tag, Wire(names, tag, fs[..|fs| - 1]), fs[|fs| - 1])
  }

  lemma WireNext(names: set<string>, tag: nat, fs: seq<Frame>, f: Frame)
    ensures Wire(names, tag, fs + [f]) == See(tag, Wire(names, tag, fs), f)
  {
    assert (fs + [f])[..|fs|] == fs;
  }

  /** A verdict is final. */
  lemma {:induction false} WireLatched(names: set<string>, tag: nat, fs: seq<Frame>, more: seq<Frame>)
    requires Wire(names, tag, fs).first.Some?
    ensures Wire(names, tag, fs + more).first == Wire(names, tag, fs).first
  {
    if more == [] {
      assert fs + more == fs;
    } else {
      var n := |more| - 1;
      WireLatched(names, tag, fs, more[..n]);
      assert fs + more == (fs + more[..n]) + [more[n]];
      WireNext(names, tag, fs + more[..n], more[n]);
    }
  }

  // ------------------------------------------------------------------------------------------
  // The same, by position
  // ------------------------------------------------------------------------------------------

  predicate Settles(tag: nat, f: Frame)
  {
    f.Closed? || (f.Confirm? && f.tag == tag)
  }

  /** A return of the message. */
  predicate Names(names: set<string>, f: Frame)
  {
    f.Return? && f.msgId != "" && f.msgId in names
  }

  predicate SettledBy(tag: nat, fs: seq<Frame>, p: nat)
  {
    p < |fs| && Settles(tag, fs[p]) && forall q :: 0 <= q < p ==> !Settles(tag, fs[q])
  }

  predicate FirstReturn(id: string, fs: seq<Frame>, r: nat, code: nat)
  {
    r < |fs| && fs[r] == Return(id, code) && id != "" && forall q :: 0 <= q < r ==> !Names({id}, fs[q])
  }

  lemma {:induction false} Unsettled(names: set<string>, tag: nat, fs: seq<Frame>)
    ensures Wire(names, tag, fs).first.None? <==> forall q :: 0 <= q < |fs| ==> !Settles(tag, fs[q])
  {
    if fs != [] {
      Unsettled(names, tag, fs[..|fs| - 1]);
    }
  }

  /** Before its verdict a message is marked exactly if a return named it. */
  lemma {:induction false} MarkedIff(names: set<string>, tag: nat, fs: seq<Frame>)
    requires Wire(names, tag, fs).first.None?
    ensures Wire(names, tag, fs).mark.None? <==> forall q :: 0 <= q < |fs| ==> !Names(names, fs[q])
    ensures Wire(names, tag, fs).mark.None? ==> Wire(names, tag, fs).left == names
  {
    if fs != [] {
      MarkedIff(names, tag, fs[..|fs| - 1]);
    }
  }

  /** The frame that gave the verdict. */
  lemma {:induction false} VerdictAt(names: set<string>, tag: nat, fs: seq<Frame>) returns (p: nat)
    requires Wire(names, tag, fs).first.Some?
    ensures SettledBy(tag, fs, p) && Wire(names, tag, fs[..p]).first.None?
    ensures Wire(names, tag, fs).first == See(tag, Wire(names, tag, fs[..p]), fs[p]).first
  {
    var n := |fs| - 1;
    if Wire(names, tag, fs[..n]).first.Some? {
      p := VerdictAt(names, tag, fs[..n]);
      assert fs[..n][..p] == fs[..p];
    } else {
      p := n;
      Unsettled(names, tag, fs[..n]);
    }
  }

  lemma SettledOnce(names: set<string>, tag: nat, fs: seq<Frame>, p: nat)
    requires SettledBy(tag, fs, p)
    ensures Wire(names, tag, fs[..p]).first.None?
    ensures Wire(names, tag, fs).first == See(tag, Wire(names, tag, fs[..p]), fs[p]).first
  {
    Unsettled(names, tag, fs[..p]);
    WireNext(names, tag, fs[..p], fs[p]);
    WireLatched(names, tag, fs[..p] + [fs[p]], fs[p + 1..]);
    assert fs == (fs[..p] + [fs[p]]) + fs[p + 1..];
  }

  ghost predicate ConfirmedAt(names: set<string>, tag: nat, fs: seq<Frame>, p: nat)
  {
    SettledBy(tag, fs, p) && fs[p] == Confirm(tag, true) && forall q :: 0 <= q < p ==> !Names(names, fs[q])
  }

  ghost predicate ReturnedAt(id: string, tag: nat, fs: seq<Frame>, code: nat, r: nat, p: nat)
  {
    SettledBy(tag, fs, p) && fs[p] == Confirm(tag, true) && r < p && FirstReturn(id, fs, r, code)
  }

  /** Confirmed means: the first frame to settle the tag is a positive confirm of it, and no return
      named the message before. */
  lemma ConfirmedIff(names: set<string>, tag: nat, fs: seq<Frame>)
    ensures Wire(names, tag, fs).first == Some(Confirmed) <==> exists p: nat :: ConfirmedAt(names, tag, fs, p)
  {
    if Wire(names, tag, fs).first.Some? {
      var p := VerdictAt(names, tag, fs);
      MarkedIff(names, tag, fs[..p]);
      assert Wire(names, tag, fs).first == Some(Confirmed) ==> ConfirmedAt(names, tag, fs, p);
    }
    forall p: nat | ConfirmedAt(names, tag, fs, p) ensures Wire(names, tag, fs).first == Some(Confirmed) {
      SettledOnce(names, tag, fs, p);
      MarkedIff(names, tag, fs[..p]);
    }
  }

  ghost predicate AckedAt(tag: nat, fs: seq<Frame>, p: nat)
  {
    SettledBy(tag, fs, p) && fs[p] == Confirm(tag, true)
  }

  predicate Acked(v: Option<Verdict>)
  {
    v == Some(Confirmed) || (v.Some? && v.value.Unroutable?)
  }

  /** Confirmed or unroutable means: the first frame to settle the tag is a positive confirm of it,
      whatever was returned. */
  lemma AckedIff(names: set<string>, tag: nat, fs: seq<Frame>)
    ensures Acked(Wire(names, tag, fs).first) <==> exists p: nat :: AckedAt(tag, fs, p)
  {
    if Wire(names, tag, fs).first.Some? {
      var p := VerdictAt(names, tag, fs);
      assert Acked(Wire(names, tag, fs).first) ==> AckedAt(tag, fs, p);
    }
    forall p: nat | AckedAt(tag, fs, p) ensures Acked(Wire(names, tag, fs).first) {
      SettledOnce(names, tag, fs, p);
    }
  }

  lemma {:induction false} MarkIsFirstReturn(id: string, tag: nat, fs: seq<Frame>, code: nat)
    requires Wire({id}, tag, fs).first.None?
    ensures Wire({id}, tag, fs).mark == Some(code) <==> exists r: nat :: FirstReturn(id, fs, r, code)
    ensures Wire({id}, tag, fs).mark.Some? ==> id !in Wire({id}, tag, fs).left
  {
    if fs != [] {
      var n := |fs| - 1;
      MarkIsFirstReturn(id, tag, fs[..n], code);
      MarkedIff({id}, tag, fs[..n]);
      forall r: nat | FirstReturn(id, fs[..n], r, code) ensures FirstReturn(id, fs, r, code) {}
      if fs[n] == Return(id, code) && Wire({id}, tag, fs[..n]).mark.None? && id != "" {
        assert FirstReturn(id, fs, n, code);
      }
      forall r: nat | FirstReturn(id, fs, r, code) && r < n ensures FirstReturn(id, fs[..n], r, code) {}
    }
  }

  /** Unroutable means: the first frame to settle the tag is a positive confirm of it, after a return
      of the message; the code is that of the first such return. */
  lemma UnroutableIff(id: string, tag: nat, fs: seq<Frame>, code: nat)
    ensures Wire({id}, tag, fs).first == Some(Unroutable(code)) <==>
            exists r: nat, p: nat :: ReturnedAt(id, tag, fs, code, r, p)
  {
    if Wire({id}, tag, fs).first == Some(Unroutable(code)) {
      var p := VerdictAt({id}, tag, fs);
      MarkIsFirstReturn(id, tag, fs[..p], code);
      var r: nat :| FirstReturn(id, fs[..p], r, code);
      assert ReturnedAt(id, tag, fs, code, r, p);
    }
    forall r: nat, p: nat | ReturnedAt(id, tag, fs, code, r, p)
      ensures Wire({id}, tag, fs).first == Some(Unroutable(code))
    {
      SettledOnce({id}, tag, fs, p);
      assert FirstReturn(id, fs[..p], r, code);
      MarkIsFirstReturn(id, tag, fs[..p], code);
    }
  }

  /** The frames that say something about a message. */
  function Relevant(names: set<string>, tag: nat, fs: seq<Frame>): seq<Frame>
  {
    if fs == [] then []
    else
      var n := |fs| - 1;
      Relevant(names, tag, fs[..n]) + if Settles(tag, fs[n]) || Names(names, fs[n]) then [fs[n]] else []
  }

  /** The rest, among them the returns and the confirms of all other messages, changes nothing. */
  lemma {:induction false} OthersDoNotMatter(names: set<string>, tag: nat, fs: seq<Frame>)
    ensures Wire(names, tag, fs) == Wire(names, tag, Relevant(names, tag, fs))
  {
    if fs != [] {
      var n := |fs| - 1;
      OthersDoNotMatter(names, tag, fs[..n]);
      WireNext(names, tag, Relevant(names, tag, fs[..n]), fs[n]);
      assert Relevant(names, tag, fs[..n]) + [] == Relevant(names, tag, fs[..n]);
    }
  }

  /** Names no return uses do not matter either. */
  lemma {:induction false} UnusedNames(names: set<string>, fewer: set<string>, tag: nat, fs: seq<Frame>)
    requires fewer <= names && forall q :: 0 <= q < |fs| && Names(names, fs[q]) ==> fs[q].msgId in fewer
    ensures Wire(names, tag, fs).first == Wire(fewer, tag, fs).first
    ensures Wire(names, tag, fs).mark == Wire(fewer, tag, fs).mark
    ensures Wire(fewer, tag, fs).left == Wire(names, tag, fs).left * fewer
  {
    if fs != [] {
      UnusedNames(names, fewer, tag, fs[..|fs| - 1]);
    }
  }

  // ------------------------------------------------------------------------------------------
  // The tracker keeps to the frames
  // ------------------------------------------------------------------------------------------

  /** A tracker, the map returns are looked up in, and the frames handled so far. */
  datatype Book = Book(spec: Spec, tags: map<string, nat>, log: seq<Frame>)

  /** A registered message: its waiter, how many frames had been handled when it was registered,
      the MessageIDs that led to its tag then, and whether no other message will take those over. If
      one does, a return may miss the message, and nothing else changes. */
  datatype Msg = Msg(tag: nat, waiter: nat, since: nat, names: set<string>, own: bool)

  /** What the frames handled since its registration say about a message. */
  function Heard(m: Msg, log: seq<Frame>): Seen
    requires m.since <= |log|
  {
    Wire(m.names, m.tag, log[m.since..])
  }

  /** The message's waiter is still to be waited for, and stands exactly as the frames say. */
  ghost predicate Tied(b: Book, m: Msg)
  {
    && m.since <= |b.log| && m.waiter < |b.spec.slots| && b.spec.slots[m.waiter].tag == m.tag && m.waiter !in b.spec.taken
    && (m.tag in b.spec.pending <==> b.spec.slots[m.waiter].first != Some(ChannelClosed))
    && (m.tag in b.spec.pending ==> b.spec.pending[m.tag] == m.waiter)
    && Alike(b.spec.slots[m.waiter].first, Heard(m, b.log).first)
    && (m.own ==> Agrees(b.spec.slots[m.waiter], b.tags, Heard(m, b.log)))
  }

  /** The same verdict, up to what a return makes of an ack. */
  predicate Alike(v: Option<Verdict>, w: Option<Verdict>)
  {
    v == w || (Acked(v) && Acked(w))
  }

  ghost predicate Agrees(slot: Slot, tags: map<string, nat>, w: Seen)
  {
    && slot.first == w.first
    && (w.first.None? ==>
          && slot.returned == w.mark.Some? && (w.mark.Some? ==> slot.returnCode == w.mark.value)
          && Leading(tags, slot.tag, w.left))
  }

  /** `left` are the MessageIDs that lead to the tag. */
  ghost predicate Leading(tags: map<string, nat>, tag: nat, left: set<string>)
  {
    forall id :: id in left <==> id in tags && tags[id] == tag
  }

  /** What the demux goroutine makes of a frame. */
  function Handled(s: Spec, tags: map<string, nat>, f: Frame): (r: Spec)
    requires WellFormed(s)
    ensures WellFormed(r)
  {
    match f
    case Return(msgId, code) =>
      if msgId != "" && msgId in tags then Step(s, MarkReturned(tags[msgId], code)) else s
    case Confirm(tag, ack) => Step(s, Settle(tag, false, ack))
    case Closed => Step(s, CloseAll)
  }

  function Consumed(tags: map<string, nat>, f: Frame): map<string, nat>
  {
    if f.Return? && f.msgId != "" then tags - {f.msgId} else tags
  }

  function Next(b: Book, f: Frame): Book
    requires WellFormed(b.spec)
  {
    Book(Handled(b.spec, b.tags, f), Consumed(b.tags, f), b.log + [f])
  }

  lemma HeardNext(m: Msg, log: seq<Frame>, f: Frame)
    requires m.since <= |log|
    ensures Heard(m, log + [f]) == See(m.tag, Heard(m, log), f)
  {
    assert (log + [f])[m.since..] == log[m.since..] + [f];
    WireNext(m.names, m.tag, log[m.since..], f);
  }

  lemma FrameTies(b: Book, f: Frame, m: Msg)
    requires WellFormed(b.spec) && Tied(b, m)
    ensures Tied(Next(b, f), m)
  {
    HeardNext(m, b.log, f);
  }

  /** A return in `fs` names `id`. */
  ghost predicate Returned(fs: seq<Frame>, id: string)
  {
    exists q :: 0 <= q < |fs| && Names({id}, fs[q])
  }

  /** The return map after the frames `fs`: the entries they named are gone. */
  ghost predicate UsedUp(was: map<string, nat>, fs: seq<Frame>, now: map<string, nat>)
  {
    && (forall id :: id in now <==> id in was && !Returned(fs, id))
    && (forall id :: id in now ==> now[id] == was[id])
  }

  lemma UsedUpNext(was: map<string, nat>, fs: seq<Frame>, now: map<string, nat>, f: Frame)
    requires UsedUp(was, fs, now)
    ensures UsedUp(was, fs + [f], Consumed(now, f))
  {
    var all := fs + [f];
    forall id ensures Returned(all, id) <==> Returned(fs, id) || Names({id}, f) {
      if Returned(fs, id) {
        var q :| 0 <= q < |fs| && Names({id}, fs[q]);
        assert Names({id}, all[q]);
      }
      if Names({id}, f) {
        assert Names({id}, all[|fs|]);
      }
    }
  }

  /** Frames keep every message tied and add nothing. */
  ghost predicate Drifts(b: Book, fs: seq<Frame>, c: Book)
  {
    && c.log == b.log + fs && UsedUp(b.tags, fs, c.tags)
    && (forall t :: t in c.spec.pending ==> t in b.spec.pending)
    && (forall m: Msg :: Tied(b, m) ==> Tied(c, m))
  }

  lemma DriftNext(b: Book, fs: seq<Frame>, c: Book, f: Frame)
    requires WellFormed(c.spec) && Drifts(b, fs, c)
    ensures Drifts(b, fs + [f], Next(c, f))
  {
    UsedUpNext(b.tags, fs, c.tags, f);
    forall m: Msg | Tied(b, m) ensures Tied(Next(c, f), m) {
      FrameTies(c, f, m);
    }
  }

  /** Whatever happened between the two concerned `tag` and the return map's entries for `ids`
      only, apart from frames. */
  ghost predicate Keeps(b: Book, c: Book, tag: nat, ids: set<string>)
  {
    && b.log <= c.log
    && (forall t :: t in c.spec.pending && t != tag ==> t in b.spec.pending)
    && (forall m: Msg :: m.tag != tag && (m.own ==> m.names !! ids) && Tied(b, m) ==> Tied(c, m))
  }

  lemma DriftKeeps(b: Book, c: Book, fs: seq<Frame>, d: Book, tag: nat, ids: set<string>)
    requires Keeps(b, c, tag, ids) && Drifts(c, fs, d)
    ensures Keeps(b, d, tag, ids)
  {
  }

  /** The calls of a publisher that is busy with `tag`. */
  predicate About(s: Spec, op: Op, tag: nat)
  {
    match op
    case Register(t) => t == tag
    case Cancel(t) => t == tag
    case Forget(t) => t == tag
    case Receive(id) => id < |s.slots| && s.slots[id].tag == tag
    case _ => false
  }

  lemma StepTies(b: Book, op: Op, tag: nat, m: Msg)
    requires WellFormed(b.spec) && About(b.spec, op, tag) && Tied(b, m) && m.tag != tag
    ensures Tied(b.(spec := Step(b.spec, op)), m)
  {
  }

  lemma StepKeeps(b: Book, c: Book, op: Op, tag: nat, ids: set<string>)
    requires WellFormed(c.spec) && About(c.spec, op, tag) && Keeps(b, c, tag, ids)
    ensures Keeps(b, c.(spec := Step(c.spec, op)), tag, ids)
  {
    forall m: Msg | m.tag != tag && Tied(c, m) ensures Tied(c.(spec := Step(c.spec, op)), m) {
      StepTies(c, op, tag, m);
    }
  }

  /** Storing the return tag of a message. */
  lemma StoreKeeps(b: Book, tag: nat, id: string)
    ensures Keeps(b, b.(tags := b.tags[id := tag]), tag, {id})
  {
  }

  lemma UnstoreKeeps(b: Book, c: Book, tag: nat, id: string)
    requires Keeps(b, c, tag, {id})
    ensures Keeps(b, c.(tags := c.tags - {id}), tag, {id})
  {
  }

  /** The MessageIDs that lead to `tag`. */
  function LeadingTo(tags: map<string, nat>, tag: nat): set<string>
  {
    set id | id in tags && tags[id] == tag
  }

  lemma RegisterTies(b: Book, tag: nat, own: bool)
    requires WellFormed(b.spec) && !b.spec.closed
    ensures Tied(b.(spec := Step(b.spec, Register(tag))), Msg(tag, |b.spec.slots|, |b.log|, LeadingTo(b.tags, tag), own))
  {
    var m := Msg(tag, |b.spec.slots|, |b.log|, LeadingTo(b.tags, tag), own);
    assert b.log[m.since..] == [];
    assert Heard(m, b.log) == Seen(None, None, m.names);
  }
}
