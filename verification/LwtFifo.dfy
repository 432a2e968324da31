/** What goes into a channel comes out of it, in order and once. */
module LwtFifo {
  import opened Options
  import opened Queues
  import opened Lwt
  import opened LwtShape
  import opened LwtCalls

  // ----- messages in flight -----

  /** The unread slots of the buffer, from head to tail. */
  function Unread(data: seq<Value>, head: nat, tail: nat): (r: seq<Value>)
    requires head <= tail <= head + |data|
  {
    seq(tail - head, i requires 0 <= i < tail - head => data[Slot(head + i, |data|)])
  }

  function Buffered(ch: Chan): seq<Value>
    requires ch.head <= ch.tail <= ch.head + ch.Size()
  {
    Unread(ch.data, ch.head, ch.tail)
  }

  /** The messages of queued senders, in queue order. */
  function Messages(threads: seq<Tcb>, queue: seq<Tid>): seq<Value>
    requires forall t :: t in queue ==> t < |threads|
  {
    seq(|queue|, i requires 0 <= i < |queue| => assert queue[i] in queue; threads[queue[i]].message)
  }

  /** The value given to a receiver that has not run since. */
  function Handed(s: State, c: Cid): seq<Value>
    requires Refs(s) && c < |s.chans|
  {
    var r := s.chans[c].receiver;
    if r.Some? && Receiving(s.threads[r.value].cont) == Some(c) && s.threads[r.value].state != BLOCKED
    then [s.threads[r.value].message] else []
  }

  ghost function InFlight(s: State, c: Cid): seq<Value>
    requires Refs(s)
  {
    if c < |s.chans| then Handed(s, c) + Buffered(s.chans[c]) + Messages(s.threads, s.rings[Senders(c)]) else []
  }

  // ----- what the log says about a channel -----

  function SentBy(e: Event, c: Cid): seq<Value> { if e.Accepted? && e.c == c then [e.v] else [] }

  function ReturnedBy(e: Event, c: Cid): seq<Value> { if e.Returned? && e.c == c then [e.v] else [] }

  function SentIn(log: seq<Event>, c: Cid): seq<Value> {
    if log == [] then [] else SentBy(log[0], c) + SentIn(log[1..], c)
  }

  function ReturnedIn(log: seq<Event>, c: Cid): seq<Value> {
    if log == [] then [] else ReturnedBy(log[0], c) + ReturnedIn(log[1..], c)
  }

  function StraysIn(log: seq<Event>, c: Cid): nat {
    if log == [] then 0 else (if log[0] == Stray(c) then 1 else 0) + StraysIn(log[1..], c)
  }

  lemma Associates<T>(x: seq<T>, y: seq<T>, z: seq<T>)
    ensures x + (y + z) == x + y + z
  {
  }

  lemma {:induction false} SentConcat(a: seq<Event>, b: seq<Event>, c: Cid)
    ensures SentIn(a + b, c) == SentIn(a, c) + SentIn(b, c)
  {
    hide SentBy;
    if a == [] {
      assert a + b == b;
    } else {
      SentConcat(a[1..], b, c);
      assert (a + b)[0] == a[0] && (a + b)[1..] == a[1..] + b;
      Associates(SentBy(a[0], c), SentIn(a[1..], c), SentIn(b, c));
    }
  }

  lemma {:induction false} ReturnedConcat(a: seq<Event>, b: seq<Event>, c: Cid)
    ensures ReturnedIn(a + b, c) == ReturnedIn(a, c) + ReturnedIn(b, c)
  {
    hide ReturnedBy;
    if a == [] {
      assert a + b == b;
    } else {
      ReturnedConcat(a[1..], b, c);
      assert (a + b)[0] == a[0] && (a + b)[1..] == a[1..] + b;
      Associates(ReturnedBy(a[0], c), ReturnedIn(a[1..], c), ReturnedIn(b, c));
    }
  }

  lemma {:induction false} StraysConcat(a: seq<Event>, b: seq<Event>, c: Cid)
    ensures StraysIn(a + b, c) == StraysIn(a, c) + StraysIn(b, c)
  {
    if a == [] {
      assert a + b == b;
    } else {
      StraysConcat(a[1..], b, c);
      assert (a + b)[1..] == a[1..] + b;
    }
  }

  /** One step conserves the channel's messages, unless it strays: then the message
      just accepted is in flight nowhere. */
  ghost predicate Flow(s: State, ev: seq<Event>, s': State, c: Cid)
    requires Refs(s) && Refs(s')
  {
    if StraysIn(ev, c) == 0 then InFlight(s, c) + SentIn(ev, c) == ReturnedIn(ev, c) + InFlight(s', c)
    else StraysIn(ev, c) == |SentIn(ev, c)| == 1 && ReturnedIn(ev, c) == [] && InFlight(s', c) == InFlight(s, c)
  }

  // ----- the buffer -----

  /** Indices less than size apart have different slots. */
  lemma SlotsDiffer(a: nat, b: nat, n: nat)
    requires n > 0 && a < b < a + n
    ensures Slot(a, n) != Slot(b, n)
  {
    var k := b / n - a / n;
    assert b - a == n * k + (b % n - a % n);
    assert k <= 0 ==> n * k <= 0;
    assert k >= 1 ==> n * k >= n;
  }

  /** Writing at tail touches no unread slot. */
  lemma PutBuffered(ch: Chan, v: Value)
    requires ch.head <= ch.tail < ch.head + ch.Size()
    ensures Buffered(Put(ch, v)) == Buffered(ch) + [v]
  {
    hide Slot;
    forall k: nat | ch.head <= k < ch.tail
      ensures Slot(k, ch.Size()) != Slot(ch.tail, ch.Size())
    {
      SlotsDiffer(k, ch.tail, ch.Size());
    }
    var before, after := Buffered(ch), Buffered(Put(ch, v));
    forall i | 0 <= i < |after|
      ensures after[i] == (before + [v])[i]
    {
      assert ch.head + i <= ch.tail;
    }
  }

  lemma TakeBuffered(ch: Chan)
    requires ch.head < ch.tail <= ch.head + ch.Size()
    ensures Buffered(ch) == [First(ch)] + Buffered(ch.(head := ch.head + 1))
  {
    hide Slot;
    var rest := Buffered(ch.(head := ch.head + 1));
    forall i | 0 <= i < |rest|
      ensures rest[i] == Buffered(ch)[i + 1]
    {
      assert ch.head + 1 + i == ch.head + (i + 1);
    }
  }

  // ----- frames -----

  /** Nothing the messages of c depend on changes. */
  ghost predicate SameFor(s: State, s': State, c: Cid)
    requires Refs(s) && Refs(s')
  {
    && c < |s.chans| && c < |s'.chans|
    && s'.chans[c].data == s.chans[c].data && s'.chans[c].head == s.chans[c].head && s'.chans[c].tail == s.chans[c].tail
    && s'.rings[Senders(c)] == s.rings[Senders(c)]
    && (forall t :: t in s.rings[Senders(c)] ==> s'.threads[t].message == s.threads[t].message)
    && Handed(s', c) == Handed(s, c)
  }

  lemma SameInFlight(s: State, s': State, c: Cid)
    requires Refs(s) && Refs(s') && SameFor(s, s', c)
    ensures InFlight(s', c) == InFlight(s, c)
  {
    assert Messages(s.threads, s.rings[Senders(c)]) == Messages(s'.threads, s'.rings[Senders(c)]);
  }

  /** The message field of a thread that is neither a queued sender nor a resumed
      receiver is nobody's: overwriting it loses nothing. */
  lemma MessageFree(s: State, t: Tid, v: Value, c: Cid)
    requires Shape(s) && t < |s.threads| && c < |s.chans|
    requires Home(s.threads[t]) != Senders(c)
    requires Receiving(s.threads[t].cont) == Some(c) ==> s.threads[t].state == BLOCKED
    requires Shape(WithMessage(s, t, v))
    ensures InFlight(WithMessage(s, t, v), c) == InFlight(s, c)
  {
    SameInFlight(s, WithMessage(s, t, v), c);
  }

  lemma ResumeInFlight(s: State, t: Tid, c: Cid)
    requires Shape(s) && t < |s.threads| && c < |s.chans| && Shape(Resume(s, t))
    requires Home(s.threads[t]) != Senders(c)
    requires Receiving(s.threads[t].cont) != Some(c)
    ensures InFlight(Resume(s, t), c) == InFlight(s, c)
  {
    assert t !in s.rings[Senders(c)];
    SameInFlight(s, Resume(s, t), c);
  }

  // ----- events -----

  lemma Single(e: Event, c: Cid)
    ensures SentIn([e], c) == SentBy(e, c)
    ensures ReturnedIn([e], c) == ReturnedBy(e, c)
    ensures StraysIn([e], c) == if e == Stray(c) then 1 else 0
  {
    assert [e][1..] == [];
  }

  lemma Pair(a: Event, b: Event, c: Cid)
    ensures SentIn([a, b], c) == SentBy(a, c) + SentBy(b, c)
    ensures ReturnedIn([a, b], c) == ReturnedBy(a, c) + ReturnedBy(b, c)
    ensures StraysIn([a, b], c) == (if a == Stray(c) then 1 else 0) + (if b == Stray(c) then 1 else 0)
  {
    assert [a, b][1..] == [b];
    Single(b, c);
  }

  /** Events that say nothing about messages. */
  ghost predicate Silent(ev: seq<Event>, c: Cid) {
    SentIn(ev, c) == [] && ReturnedIn(ev, c) == [] && StraysIn(ev, c) == 0
  }

  lemma SilentFlow(s: State, ev: seq<Event>, s': State, c: Cid)
    requires Refs(s) && Refs(s') && Silent(ev, c) && InFlight(s', c) == InFlight(s, c)
    ensures Flow(s, ev, s', c)
  {
  }

  // ----- lwt_snd -----

  /** A blocked group's owner is no queued sender and receives from no channel. */
  lemma OwnerApart(s: State, g: Gid, d: Cid)
    requires Shape(s) && g < |s.groups| && s.groups[g].blocked && d < |s.chans|
    ensures
      var owner := s.groups[g].owner;
      && owner < |s.threads| && s.threads[owner].cont == GroupWait(g)
      && Home(s.threads[owner]) != Senders(d) && Receiving(s.threads[owner].cont) == None
  {
    var owner := s.groups[g].owner;
    assert OwnerOk(s.groups, owner, s.threads[owner]);
  }

  lemma ReadyInFlight(s: State, c: Cid, d: Cid)
    requires Refs(s) && c < |s.chans| && Refs(WithChan(s, c, s.chans[c].(ready := true)))
    ensures InFlight(WithChan(s, c, s.chans[c].(ready := true)), d) == InFlight(s, d)
  {
    if d < |s.chans| {
      SameInFlight(s, WithChan(s, c, s.chans[c].(ready := true)), d);
    }
  }

  lemma SignalFlow(s: State, c: Cid, d: Cid)
    requires Inv(s) && c < |s.chans| && Calm(s, c)
    ensures Shape(Signal(s, c).s) && InFlight(Signal(s, c).s, d) == InFlight(s, d) && Silent(Signal(s, c).ev, d)
  {
    hide Calm, Contents, Placed, ThreadOk, GroupOk, OwnerOk, InFlight, TcbRefs, Resume;
    SignalGood(s, c);
    var o := Signal(s, c);
    if o.ev != [] { Single(o.ev[0], d); }
    ChanChanged(s, c, s.chans[c].(ready := true));
    ReadyInFlight(s, c, d);
    var g := s.chans[c].cgroup;
    if d < |s.chans| && g.Some? && s.groups[g.value].blocked {
      OwnerApart(s, g.value, d);
      ResumeInFlight(WithChan(s, c, s.chans[c].(ready := true)), s.groups[g.value].owner, d);
    }
    NoChannel(s, o.s, d);
  }

  /** Who is blocked receiving is in lwt_rcv on that very channel, which is then
      empty, or in lwt_cgrp_wait. */
  lemma WaiterFacts(s: State, r: Tid, c: Cid)
    requires Inv(s) && r < |s.threads| && c < |s.chans| && WaitsFor(s.threads[r], c)
    ensures Receiving(s.threads[r].cont) == Some(c) || s.threads[r].cont.GroupWait?
    ensures Receiving(s.threads[r].cont) == Some(c) ==> !s.chans[c].ready
  {
    assert ThreadOk(s, r);
    assert Waiting(s, r, c) ==> !s.chans[c].ready;
  }

  lemma DirectElsewhere(s: State, r: Tid, v: Value, d: Cid)
    requires Inv(s) && r < |s.threads| && s.threads[r].state == BLOCKED && s.threads[r].blockFor == RECEIVING
    requires Receiving(s.threads[r].cont) != Some(d) && d < |s.chans|
    requires Shape(Resume(WithMessage(s, r, v), r))
    ensures InFlight(Resume(WithMessage(s, r, v), r), d) == InFlight(s, d)
  {
    MessageGood(s, r, v);
    hide Contents, ThreadOk, GroupOk, OwnerOk, InFlight;
    MessageFree(s, r, v, d);
    ResumeInFlight(WithMessage(s, r, v), r, d);
  }

  lemma DirectEvents(s: State, c: Cid, v: Value, rest: Cont, d: Cid)
    requires Refs(s) && c < |s.chans| && s.chans[c].receiver.Some? && WaitsFor(s.threads[s.chans[c].receiver.value], c)
    ensures
      var o, r := SndBody(s, c, v, rest), s.chans[c].receiver.value;
      && o.s == Resume(WithMessage(s, r, v), r)
      && SentIn(o.ev, d) == (if d == c then [v] else []) && ReturnedIn(o.ev, d) == []
      && StraysIn(o.ev, d) == if d == c && s.threads[r].cont.GroupWait? then 1 else 0
  {
    hide TcbRefs, Resume, WithMessage, Signal, Put, Block;
    Single(Accepted(c, v), d);
    Pair(Accepted(c, v), Stray(c), d);
    assert [Accepted(c, v)] + [] == [Accepted(c, v)];
    assert [Accepted(c, v)] + [Stray(c)] == [Accepted(c, v), Stray(c)];
  }

  /** lwt_chl.c:127-136: the message is handed to the receiver waiting for it, or
      strays to a receiver that waits for a group. */
  lemma DirectFlow(s: State, c: Cid, v: Value, rest: Cont, d: Cid)
    requires Inv(s) && c < |s.chans| && s.chans[c].receiver.Some? && WaitsFor(s.threads[s.chans[c].receiver.value], c)
    requires Shape(SndBody(s, c, v, rest).s)
    ensures Flow(s, SndBody(s, c, v, rest).ev, SndBody(s, c, v, rest).s, d)
  {
    hide Contents, Placed, ThreadOk, GroupOk, OwnerOk, InFlight, Resume, WithMessage, TcbRefs, SndBody;
    hide SentIn, ReturnedIn, StraysIn;
    var r := s.chans[c].receiver.value;
    WaiterFacts(s, r, c);
    DirectEvents(s, c, v, rest, d);
    if Receiving(s.threads[r].cont) == Some(d) {
      HandedFlow(s, c, v, rest);
    } else if d < |s.chans| {
      DirectElsewhere(s, r, v, d);
    } else {
      NoChannel(s, SndBody(s, c, v, rest).s, d);
      SndKin(s, c, v, rest);
    }
  }

  lemma NoChannel(s: State, s': State, d: Cid)
    requires Refs(s) && Refs(s')
    ensures d >= |s.chans| ==> InFlight(s, d) == []
    ensures d >= |s'.chans| ==> InFlight(s', d) == []
  {
  }

  lemma HandedFlow(s: State, c: Cid, v: Value, rest: Cont)
    requires Inv(s) && c < |s.chans| && s.chans[c].receiver.Some? && WaitsFor(s.threads[s.chans[c].receiver.value], c)
    requires Receiving(s.threads[s.chans[c].receiver.value].cont) == Some(c) && !s.chans[c].ready
    requires Shape(SndBody(s, c, v, rest).s)
    ensures InFlight(s, c) == [] && InFlight(SndBody(s, c, v, rest).s, c) == [v]
  {
    hide ThreadOk, GroupOk, OwnerOk, TcbRefs, Signal, Put, Block;
    assert ChanOk(s.chans[c], s.rings[Senders(c)]);
    var r := s.chans[c].receiver.value;
    assert r !in s.rings[Senders(c)];
  }

  lemma PutFlow(s: State, c: Cid, v: Value, d: Cid)
    requires Shape(s) && c < |s.chans| && s.chans[c].tail - s.chans[c].head < s.chans[c].Size() &&
      s.rings[Senders(c)] == []
    requires Shape(WithChan(s, c, Put(s.chans[c], v)))
    ensures InFlight(WithChan(s, c, Put(s.chans[c], v)), d) == InFlight(s, d) + if d == c then [v] else []
  {
    var s' := WithChan(s, c, Put(s.chans[c], v));
    if d == c {
      PutBuffered(s.chans[c], v);
    } else if d < |s.chans| {
      SameInFlight(s, s', d);
    }
  }

  lemma BlockFlow(s: State, c: Cid, v: Value, rest: Cont, d: Cid)
    requires Shape(s) && c < |s.chans| && s.Cur().cont == Idle && s.Cur().state == RUNNING && Sending(rest) == Some(c)
    requires Shape(Block(WithMessage(s, s.current, v), SENDING, c, rest))
    ensures
      var s' := Block(WithMessage(s, s.current, v), SENDING, c, rest);
      InFlight(s', d) == InFlight(s, d) + if d == c then [v] else []
  {
    hide ThreadOk, GroupOk, OwnerOk, Contents, Buffered;
    var t, s1 := s.current, WithMessage(s, s.current, v);
    MessageGood(s, t, v);
    var s' := Block(s1, SENDING, c, rest);
    BlockRings(s1, c, rest);
    if d < |s.chans| {
      assert t !in s.rings[Senders(d)];
      assert Handed(s, d) == Handed(s', d);
      if d == c {
        MessagesSnoc(s.threads, s.rings[Senders(c)], s'.threads, t);
      } else {
        SameInFlight(s, s', d);
      }
    }
  }

  lemma MessagesSnoc(threads: seq<Tcb>, queue: seq<Tid>, threads': seq<Tcb>, t: Tid)
    requires forall u :: u in queue ==> u < |threads| && u < |threads'| && threads'[u].message == threads[u].message
    requires t < |threads'|
    ensures Messages(threads', queue + [t]) == Messages(threads, queue) + [threads'[t].message]
  {
  }

  lemma SndFlow(s: State, c: Cid, v: Value, rest: Cont, d: Cid)
    requires Inv(s) && c < |s.chans| && Sending(rest) == Some(c) && ContOk(s, rest) && s.Cur().cont == Idle
    ensures Good(SndBody(s, c, v, rest)) && Flow(s, SndBody(s, c, v, rest).ev, SndBody(s, c, v, rest).s, d)
  {
    hide Placed, ThreadOk, GroupOk, OwnerOk, TcbRefs, Calm, Signal, Resume, Put, Block, InFlight;
    hide SentIn, ReturnedIn, StraysIn;
    var ch := s.chans[c];
    SndGood(s, c, v, rest);
    Single(Failed, d);
    if ch.receiver != None {
      if WaitsFor(s.threads[ch.receiver.value], c) {
        DirectFlow(s, c, v, rest, d);
      } else {
        NobodyWaits(s, c);
        SignalGood(s, c);
        SignalFlow(s, c, d);
        var o := Signal(s, c);
        assert ChanOk(ch, s.rings[Senders(c)]);
        AcceptedEvents(o.ev, c, v, d);
        if ch.tail - ch.head != ch.Size() {
          PutFlow(o.s, c, v, d);
        } else {
          BlockFlow(o.s, c, v, rest, d);
        }
      }
    }
  }

  lemma AcceptedEvents(ev: seq<Event>, c: Cid, v: Value, d: Cid)
    requires Silent(ev, d)
    ensures SentIn(ev + [Accepted(c, v)], d) == (if d == c then [v] else [])
    ensures ReturnedIn(ev + [Accepted(c, v)], d) == [] && StraysIn(ev + [Accepted(c, v)], d) == 0
  {
    Single(Accepted(c, v), d);
    SentConcat(ev, [Accepted(c, v)], d);
    ReturnedConcat(ev, [Accepted(c, v)], d);
    StraysConcat(ev, [Accepted(c, v)], d);
  }

  // ----- lwt_rcv -----

  /** Whose call is over holds no value handed to it. */
  lemma IdleHoldsNothing(s: State, c: Cid)
    requires Refs(s) && c < |s.chans| && s.chans[c].receiver == Some(s.current) && s.Cur().cont == Idle
    ensures Handed(s, c) == []
  {
  }

  /** Taking the first queued sender's message out of its field. */
  lemma SenderFlow(s: State, c: Cid, d: Cid)
    requires Shape(s) && c < |s.chans| && d < |s.chans| && s.rings[Senders(c)] != [] && Calm(s, c)
    ensures
      var t := s.rings[Senders(c)][0];
      && t < |s.threads| && Shape(Resume(s, t))
      && Handed(Resume(s, t), d) == Handed(s, d)
      && Messages(s.threads, s.rings[Senders(d)])
         == (if d == c then [s.threads[t].message] else [])
            + Messages(Resume(s, t).threads, Resume(s, t).rings[Senders(d)])
  {
    ResumeSender(s, c);
    hide Calm, GroupOk, OwnerOk;
    var t, s' := s.rings[Senders(c)][0], Resume(s, s.rings[Senders(c)][0]);
    assert ThreadOk(s, t);
    assert Handed(s', d) == Handed(s, d);
    if d == c {
      MessagesCons(s.threads, s.rings[Senders(c)], s'.threads);
    } else {
      assert t !in s.rings[Senders(d)];
      assert s'.rings[Senders(d)] == s.rings[Senders(d)];
      MessagesSame(s.threads, s.rings[Senders(d)], s'.threads);
    }
  }

  lemma MessagesSame(threads: seq<Tcb>, queue: seq<Tid>, threads': seq<Tcb>)
    requires forall u :: u in queue ==> u < |threads| && u < |threads'| && threads'[u].message == threads[u].message
    ensures Messages(threads', queue) == Messages(threads, queue)
  {
  }

  lemma MessagesCons(threads: seq<Tcb>, queue: seq<Tid>, threads': seq<Tcb>)
    requires queue != []
    requires forall u :: u in queue ==> u < |threads| && u < |threads'| && threads'[u].message == threads[u].message
    ensures queue[0] in queue && forall u :: u in queue[1..] ==> u < |threads'|
    ensures Messages(threads, queue) == [threads[queue[0]].message] + Messages(threads', queue[1..])
  {
    assert forall u :: u in queue[1..] ==> u in queue;
  }

  /** Only channel c's buffer changes. */
  lemma BufferFlow(s: State, c: Cid, ch: Chan, d: Cid)
    requires Refs(s) && c < |s.chans| && d < |s.chans| && Refs(WithChan(s, c, ch)) && ch.receiver == s.chans[c].receiver
    requires ch.head <= ch.tail <= ch.head + ch.Size()
    requires s.chans[d].head <= s.chans[d].tail <= s.chans[d].head + s.chans[d].Size()
    ensures InFlight(WithChan(s, c, ch), d) ==
      Handed(s, d) + Buffered(if d == c then ch else s.chans[d]) + Messages(s.threads, s.rings[Senders(d)])
  {
  }

  /** The oldest message of channel c comes out, when none is handed over already. */
  lemma OutFlow(s: State, c: Cid, v: Value, s': State, d: Cid,
                b: seq<Value>, q: seq<Value>, b': seq<Value>, q': seq<Value>)
    requires Refs(s) && Refs(s') && d < |s.chans| && (d == c ==> Handed(s, d) == [])
    requires InFlight(s, d) == Handed(s, d) + b + q && InFlight(s', d) == Handed(s, d) + b' + q'
    requires b + q == (if d == c then [v] else []) + (b' + q')
    ensures Flow(s, [Returned(c, v)], s', d)
  {
    hide Refs, InFlight, Handed;
    var h := Handed(s, d);
    Single(Returned(c, v), d);
    assert h + b + q == h + (b + q) && h + b' + q' == h + (b' + q');
    if d != c {
      assert [] + (b' + q') == b' + q';
    }
  }

  /** Nobody is queued behind a non-empty buffer. */
  lemma OnlyBody(s: State, c: Cid, rest: Cont)
    requires Refs(s) && c < |s.chans| && s.rings[Senders(c)] == []
    requires s.chans[c].head < s.chans[c].tail <= s.chans[c].head + s.chans[c].Size()
    ensures
      var o, ch := RcvBody(s, c, rest), s.chans[c];
      && |o.s.chans| == |s.chans| && o.s == WithChan(s, c, o.s.chans[c]) && o.ev == [Returned(c, First(ch))]
      && o.s.chans[c] == ch.(head := ch.head + 1, ready := o.s.chans[c].ready)
  {
    hide TcbRefs, First;
  }

  /** lwt_chl.c:225-244 with no sender queued. */
  lemma TakeOnly(s: State, c: Cid, rest: Cont, d: Cid)
    requires Refs(s) && c < |s.chans| && d < |s.chans|
    requires s.chans[c].head < s.chans[c].tail <= s.chans[c].head + s.chans[c].Size() && s.rings[Senders(c)] == []
    requires s.chans[d].head <= s.chans[d].tail <= s.chans[d].head + s.chans[d].Size()
    requires s.chans[c].receiver == Some(s.current) && s.Cur().cont == Idle
    requires Refs(RcvBody(s, c, rest).s)
    ensures Flow(s, RcvBody(s, c, rest).ev, RcvBody(s, c, rest).s, d)
  {
    hide TcbRefs, Buffered, Messages, First, RcvBody, Handed, Flow, InFlight;
    IdleHoldsNothing(s, c);
    OnlyBody(s, c, rest);
    var o, ch := RcvBody(s, c, rest), s.chans[c];
    BufferFlow(s, c, o.s.chans[c], d);
    TakeBuffered(ch);
    BufferedAt(o.s.chans[c], ch.(head := ch.head + 1));
    var b, b', q := Buffered(s.chans[d]), Buffered(o.s.chans[d]), Messages(s.threads, s.rings[Senders(d)]);
    if d == c {
      assert [First(ch)] + b' + q == [First(ch)] + (b' + q);
    } else {
      assert b + q == [] + (b' + q);
    }
    InFlightOf(s, d);
    OutFlow(s, c, First(ch), o.s, d, b, q, b', q);
  }

  /** The contents depend on nothing but the buffer's own fields. */
  lemma BufferedAt(a: Chan, b: Chan)
    requires a.data == b.data && a.head == b.head && a.tail == b.tail && a.head <= a.tail <= a.head + a.Size()
    ensures Buffered(a) == Buffered(b) && (a.head == a.tail ==> Buffered(a) == [])
  {
  }

  /** A sender is queued behind a non-empty buffer. */
  lemma RefillBody(s: State, c: Cid, rest: Cont)
    requires Refs(s) && c < |s.chans| && s.rings[Senders(c)] != []
    requires s.chans[c].head < s.chans[c].tail <= s.chans[c].head + s.chans[c].Size()
    ensures s.rings[Senders(c)][0] < |s.threads|
    ensures
      var o, ch, t := RcvBody(s, c, rest), s.chans[c], s.rings[Senders(c)][0];
      var full := Put(ch.(head := ch.head + 1), s.threads[t].message);
      && |o.s.chans| == |s.chans| && o.s == WithChan(Resume(s, t), c, o.s.chans[c]) && o.ev == [Returned(c, First(ch))]
      && o.s.chans[c].receiver == ch.receiver
      && o.s.chans[c].data == full.data && o.s.chans[c].head == full.head && o.s.chans[c].tail == full.tail
  {
    hide TcbRefs, First, MoveBeforeLast;
    assert s.rings[Senders(c)][0] in s.rings[Senders(c)];
  }

  /** lwt_chl.c:225-244 with a sender queued: its message enters the freed slot. */
  lemma TakeAndRefill(s: State, c: Cid, rest: Cont, d: Cid)
    requires Shape(s) && Calm(s, c) && c < |s.chans| && d < |s.chans|
    requires s.chans[c].head < s.chans[c].tail <= s.chans[c].head + s.chans[c].Size() && s.rings[Senders(c)] != []
    requires s.chans[d].head <= s.chans[d].tail <= s.chans[d].head + s.chans[d].Size()
    requires s.chans[c].receiver == Some(s.current) && s.Cur().cont == Idle
    requires Refs(RcvBody(s, c, rest).s)
    ensures Flow(s, RcvBody(s, c, rest).ev, RcvBody(s, c, rest).s, d)
  {
    hide TcbRefs, Buffered, Messages, First, RcvBody, Resume, Calm, Put, Placed, ThreadOk, GroupOk, OwnerOk;
    hide Handed, Flow, InFlight;
    SenderFlow(s, c, d);
    IdleHoldsNothing(s, c);
    RefillBody(s, c, rest);
    var o, ch, t := RcvBody(s, c, rest), s.chans[c], s.rings[Senders(c)][0];
    var s1, taken, m := Resume(s, t), ch.(head := ch.head + 1), s.threads[t].message;
    ResumeChans(s, t);
    PutFields(taken, m);
    BufferFlow(s1, c, o.s.chans[c], d);
    TakeBuffered(ch);
    PutBuffered(taken, m);
    BufferedAt(o.s.chans[c], Put(taken, m));
    var b, b' := Buffered(s.chans[d]), Buffered(o.s.chans[d]);
    var q, q' := Messages(s.threads, s.rings[Senders(d)]), Messages(s1.threads, s1.rings[Senders(d)]);
    if d == c {
      assert [First(ch)] + Buffered(taken) + ([m] + q') == [First(ch)] + (Buffered(taken) + [m] + q');
    } else {
      assert b + q == [] + (b' + q');
    }
    InFlightOf(s, d);
    OutFlow(s, c, First(ch), o.s, d, b, q, b', q');
  }

  lemma InFlightOf(s: State, d: Cid)
    requires Refs(s) && d < |s.chans|
    requires s.chans[d].head <= s.chans[d].tail <= s.chans[d].head + s.chans[d].Size()
    ensures InFlight(s, d) == Handed(s, d) + Buffered(s.chans[d]) + Messages(s.threads, s.rings[Senders(d)])
  {
  }

  lemma ResumeChans(s: State, t: Tid)
    requires t < |s.threads| && RUN < |s.rings|
    ensures Resume(s, t).chans == s.chans && |Resume(s, t).threads| == |s.threads|
  {
  }

  lemma PutFields(ch: Chan, v: Value)
    requires ch.Size() > 0
    ensures Put(ch, v).head == ch.head && Put(ch, v).tail == ch.tail + 1 && Put(ch, v).Size() == ch.Size()
    ensures Put(ch, v).receiver == ch.receiver
  {
  }

  /** A sender is queued and the buffer is empty. */
  lemma DirectBody(s: State, c: Cid, rest: Cont)
    requires Refs(s) && c < |s.chans| && s.rings[Senders(c)] != [] && s.chans[c].head == s.chans[c].tail
    ensures s.rings[Senders(c)][0] < |s.threads|
    ensures
      var o, ch, t := RcvBody(s, c, rest), s.chans[c], s.rings[Senders(c)][0];
      && |o.s.chans| == |s.chans| && o.s == WithChan(Resume(s, t), c, o.s.chans[c])
      && o.ev == [Returned(c, s.threads[t].message)]
      && o.s.chans[c] == ch.(ready := o.s.chans[c].ready)
  {
    hide TcbRefs, First, MoveBeforeLast;
    assert s.rings[Senders(c)][0] in s.rings[Senders(c)];
  }

  /** lwt_chl.c:247-255: the message goes from sender to receiver directly. */
  lemma TakeDirect(s: State, c: Cid, rest: Cont, d: Cid)
    requires Shape(s) && Calm(s, c) && c < |s.chans| && d < |s.chans|
    requires s.chans[c].head == s.chans[c].tail && s.rings[Senders(c)] != []
    requires s.chans[d].head <= s.chans[d].tail <= s.chans[d].head + s.chans[d].Size()
    requires s.chans[c].receiver == Some(s.current) && s.Cur().cont == Idle
    requires Refs(RcvBody(s, c, rest).s)
    ensures Flow(s, RcvBody(s, c, rest).ev, RcvBody(s, c, rest).s, d)
  {
    hide TcbRefs, Buffered, Messages, First, RcvBody, Resume, Calm, Put, Placed, ThreadOk, GroupOk, OwnerOk;
    hide Handed, Flow, InFlight;
    SenderFlow(s, c, d);
    IdleHoldsNothing(s, c);
    DirectBody(s, c, rest);
    var o, t := RcvBody(s, c, rest), s.rings[Senders(c)][0];
    var s1, m := Resume(s, t), s.threads[t].message;
    ResumeChans(s, t);
    BufferFlow(s1, c, o.s.chans[c], d);
    BufferedAt(o.s.chans[c], s.chans[c]);
    var b, b' := Buffered(s.chans[d]), Buffered(o.s.chans[d]);
    var q, q' := Messages(s.threads, s.rings[Senders(d)]), Messages(s1.threads, s1.rings[Senders(d)]);
    if d == c {
      assert b == b' == [];
      assert [] + ([m] + q') == [m] + ([] + q');
    } else {
      assert b + q == [] + (b' + q');
    }
    InFlightOf(s, d);
    OutFlow(s, c, m, o.s, d, b, q, b', q');
  }

  lemma RcvBlockFlow(s: State, c: Cid, rest: Cont, d: Cid)
    requires Inv(s) && c < |s.chans| && d < |s.chans| && !s.chans[c].ready && Receiving(rest) == Some(c)
    requires s.chans[c].receiver == Some(s.current) && s.Cur().cont == Idle
    requires Refs(RcvBody(s, c, rest).s)
    ensures Flow(s, RcvBody(s, c, rest).ev, RcvBody(s, c, rest).s, d)
  {
    assert ChanOk(s.chans[c], s.rings[Senders(c)]);
    assert s.current !in s.rings[Senders(d)];
    SameInFlight(s, RcvBody(s, c, rest).s, d);
  }

  lemma RcvFlow(s: State, c: Cid, rest: Cont, d: Cid)
    requires Inv(s) && c < |s.chans| && s.chans[c].receiver == Some(s.current)
    requires Receiving(rest) == Some(c) && ContOk(s, rest) && s.Cur().cont == Idle
    ensures Good(RcvBody(s, c, rest)) && Flow(s, RcvBody(s, c, rest).ev, RcvBody(s, c, rest).s, d)
  {
    hide RcvBody, InFlight, Placed, ThreadOk, GroupOk, OwnerOk, Calm, TcbRefs;
    RcvGood(s, c, rest);
    assert ChanOk(s.chans[c], s.rings[Senders(c)]);
    if d < |s.chans| {
      if !s.chans[c].ready {
        RcvBlockFlow(s, c, rest, d);
      } else {
        NobodyWaits(s, c);
        if s.chans[c].head == s.chans[c].tail {
          TakeDirect(s, c, rest, d);
        } else if s.rings[Senders(c)] == [] {
          TakeOnly(s, c, rest, d);
        } else {
          TakeAndRefill(s, c, rest, d);
        }
      }
    } else {
      RcvElsewhere(s, c, rest, d);
    }
  }

  lemma RcvElsewhere(s: State, c: Cid, rest: Cont, d: Cid)
    requires Refs(s) && c < |s.chans| <= d && Refs(RcvBody(s, c, rest).s)
    ensures Flow(s, RcvBody(s, c, rest).ev, RcvBody(s, c, rest).s, d)
  {
    RcvKin(s, c, rest);
    var o := RcvBody(s, c, rest);
    if o.ev != [] { Single(o.ev[0], d); }
  }

  // ----- calls that move no message -----

  lemma YieldFlow(s: State, to: Option<Tid>, d: Cid)
    requires Shape(s) && (to.Some? ==> to.value < |s.threads|) && Shape(YieldBody(s, to).s)
    ensures InFlight(YieldBody(s, to).s, d) == InFlight(s, d) && YieldBody(s, to).ev == []
  {
    var s' := YieldBody(s, to).s;
    if d < |s.chans| && YieldBody(s, to).schedules {
      var t := if to.Some? then to.value else s.current;
      assert Queued(s.threads[t]) ==> t !in s.rings[Senders(d)];
      SameInFlight(s, s', d);
    }
  }

  lemma ScheduleFlow(s: State, d: Cid)
    requires Shape(s) && CanSchedule(s)
    ensures Refs(Schedule(s)) && InFlight(Schedule(s), d) == InFlight(s, d)
  {
    ScheduleShape(s);
    assert s.rings[RUN][0] in s.rings[RUN];
    if d < |s.chans| {
      SameInFlight(s, Schedule(s), d);
    }
  }

  lemma NewChanFlow(s: State, size: nat, private: bool, d: Cid)
    requires Shape(s) && Shape(NewChan(s, size, private))
    ensures InFlight(NewChan(s, size, private), d) == InFlight(s, d)
  {
    var s' := NewChan(s, size, private);
    if d < |s.chans| {
      SameInFlight(s, s', d);
    } else if d == |s.chans| {
      assert ThreadOk(s, s.current) && TcbRefs(s, s.Cur());
      assert Handed(s', d) == [];
    }
  }

  lemma CreateFlow(s: State, nojoin: bool, d: Cid)
    requires Inv(s) && Good(CreateBody(s, nojoin))
    ensures InFlight(CreateBody(s, nojoin).s, d) == InFlight(s, d) && CreateBody(s, nojoin).ev == []
  {
    hide CreateBody, Contents, Placed, GroupOk, OwnerOk, Buffered, Messages, InFlight;
    var s', t, s1 := CreateBody(s, nojoin).s, Created(s), NewChan(s, 0, true);
    NewChanGood(s, 0, true);
    NewChanFlow(s, 0, true, d);
    CreateFacts(s, nojoin);
    CreateNothing(s, nojoin);
    if d < |s1.chans| {
      CreateRings(s, nojoin, d);
      assert forall u :: 0 <= u < |s.threads| ==> ThreadOk(s, u);
      SameInFlight(s1, s', d);
    } else {
      NoChannel(s1, s', d);
    }
  }

  lemma CreateNothing(s: State, nojoin: bool)
    requires Inv(s)
    ensures CreateBody(s, nojoin).ev == []
    ensures s.rings[RECYCLE] != [] ==> Created(s) < |s.threads| && s.threads[Created(s)].state == ZOMBIES
  {
    if s.rings[RECYCLE] != [] {
      assert Created(s) in s.rings[RECYCLE];
    }
  }

  lemma CreateRings(s: State, nojoin: bool, d: Cid)
    requires Inv(s) && d <= |s.chans|
    ensures Senders(d) < |CreateBody(s, nojoin).s.rings|
    ensures CreateBody(s, nojoin).s.rings[Senders(d)] == NewChan(s, 0, true).rings[Senders(d)]
    ensures CreateBody(s, nojoin).s.chans == NewChan(s, 0, true).chans
    ensures Created(s) !in NewChan(s, 0, true).rings[Senders(d)]
  {
    var s1, t := NewChan(s, 0, true), Created(s);
    assert s.rings[RECYCLE] != [] ==> t in s.rings[RECYCLE];
    assert t !in s1.rings[Senders(d)];
  }

  /** Only who receives from c, or how many may send, changes. */
  lemma CountFlow(s: State, c: Cid, ch: Chan, d: Cid)
    requires Refs(s) && c < |s.chans| && Refs(WithChan(s, c, ch))
    requires ch == s.chans[c].(receiver := ch.receiver, sndCnt := ch.sndCnt, freed := ch.freed)
    requires ch.receiver == s.chans[c].receiver ||
             (ch.receiver == None && s.chans[c].receiver == Some(s.current) && s.Cur().cont == Idle)
    ensures InFlight(WithChan(s, c, ch), d) == InFlight(s, d)
  {
    if d < |s.chans| {
      SameInFlight(s, WithChan(s, c, ch), d);
    }
  }

  lemma ExitFlow(s: State, d: Cid)
    requires Shape(s) && Queued(s.Cur()) && (s.Cur().cont == Idle || s.Cur().cont.DieSnd?) && Shape(ExitBody(s).s)
    ensures InFlight(ExitBody(s).s, d) == InFlight(s, d) && Silent(ExitBody(s).ev, d)
  {
    hide ThreadOk, GroupOk, OwnerOk, Buffered, Messages, InFlight, SentIn, ReturnedIn, StraysIn;
    Single(ExitBody(s).ev[0], d);
    NoChannel(s, ExitBody(s).s, d);
    if d < |s.chans| {
      assert s.current !in s.rings[Senders(d)];
      SameInFlight(s, ExitBody(s).s, d);
    }
  }

  lemma WaitFlow(s: State, g: Gid, d: Cid)
    requires Inv(s) && g < |s.groups| && (s.Cur().cont == Idle || s.Cur().cont == GroupWait(g)) && Good(WaitBody(s, g))
    ensures InFlight(WaitBody(s, g).s, d) == InFlight(s, d) && Silent(WaitBody(s, g).ev, d)
  {
    hide ThreadOk, GroupOk, OwnerOk, FirstReady, Contents, TcbRefs;
    var o := WaitBody(s, g);
    if o.ev != [] { Single(o.ev[0], d); }
    if d < |s.chans| {
      assert s.current !in s.rings[Senders(d)];
      SameInFlight(s, o.s, d);
    }
  }

  /** Only groups and memberships change. */
  lemma GroupFlow(s: State, s': State, d: Cid)
    requires Refs(s) && Refs(s') && s'.threads == s.threads && s'.rings == s.rings && |s'.chans| == |s.chans|
    requires forall c :: 0 <= c < |s.chans| ==> s'.chans[c] == s.chans[c].(cgroup := s'.chans[c].cgroup)
    ensures InFlight(s', d) == InFlight(s, d)
  {
    if d < |s.chans| {
      SameInFlight(s, s', d);
    }
  }

  // ----- lwt_die, lwt_join and the rest of blocked calls -----

  lemma DieFlow(s: State, v: Value, d: Cid)
    requires Inv(s) && s.Cur().cont == Idle && Good(DieBody(s, v))
    ensures Flow(s, DieBody(s, v).ev, DieBody(s, v).s, d)
  {
    hide InFlight, Placed, ThreadOk, GroupOk, OwnerOk, TcbRefs, SndBody, ExitBody, Contents;
    var c := s.Cur().chl;
    DieBodyRefs(s);
    var s1 := WithMessage(s.(zombieCounter := s.zombieCounter + 1), s.current, v);
    DieStarts(s, v, d);
    var rest := DieSnd(c);
    var o := SndBody(s1, c, v, rest);
    SndFlow(s1, c, v, rest, d);
    SndKeepsCurrent(s1, c, v, rest);
    var died := Died(s.current, c, v);
    Single(died, d);
    FlowBetween(s, [died], s1, o.ev, o.s, [], o.s, d);
    assert [died] + o.ev + [] == [died] + o.ev;
    if !o.schedules {
      ExitGood(o.s);
      ExitFlow(o.s, d);
      FlowBetween(s, [died], s1, o.ev, o.s, ExitBody(o.s).ev, ExitBody(o.s).s, d);
    }
  }

  /** A step between silent ones. */
  lemma FlowBetween(s: State, a: seq<Event>, s1: State, ev: seq<Event>, s2: State, b: seq<Event>, s': State, d: Cid)
    requires Refs(s) && Refs(s1) && Refs(s2) && Refs(s') && Silent(a, d) && Silent(b, d) && Flow(s1, ev, s2, d)
    requires InFlight(s1, d) == InFlight(s, d) && InFlight(s', d) == InFlight(s2, d)
    ensures Flow(s, a + ev + b, s', d)
  {
    hide Refs, InFlight;
    Joins(a, ev, d);
    Joins(a + ev, b, d);
    assert [] + SentIn(ev, d) + [] == SentIn(ev, d);
    assert [] + ReturnedIn(ev, d) + [] == ReturnedIn(ev, d);
  }

  lemma DieStarts(s: State, v: Value, d: Cid)
    requires Inv(s) && s.Cur().cont == Idle
    ensures
      var s1 := WithMessage(s.(zombieCounter := s.zombieCounter + 1), s.current, v);
      && Inv(s1) && InFlight(s1, d) == InFlight(s, d) && s1.Cur().cont == Idle && Queued(s1.Cur())
  {
    var s0 := s.(zombieCounter := s.zombieCounter + 1);
    CountersFree(s, s0);
    MessageGood(s0, s.current, v);
    if d < |s.chans| {
      SameInFlight(s, s0, d);
      MessageFree(s0, s.current, v, d);
    }
  }

  lemma Joins(a: seq<Event>, b: seq<Event>, d: Cid)
    ensures SentIn(a + b, d) == SentIn(a, d) + SentIn(b, d)
    ensures ReturnedIn(a + b, d) == ReturnedIn(a, d) + ReturnedIn(b, d)
    ensures StraysIn(a + b, d) == StraysIn(a, d) + StraysIn(b, d)
  {
    SentConcat(a, b, d);
    ReturnedConcat(a, b, d);
    StraysConcat(a, b, d);
  }

  lemma JoinFlow(s: State, child: Tid, d: Cid)
    requires Inv(s) && child < |s.threads| && s.Cur().cont == Idle && Good(JoinBody(s, child))
    requires s.threads[child].parent == Some(s.current) ==> s.chans[s.threads[child].chl].receiver == Some(s.current)
    ensures Flow(s, JoinBody(s, child).ev, JoinBody(s, child).s, d)
  {
    hide InFlight, Placed, ThreadOk, GroupOk, OwnerOk, RcvBody, YieldBody, Contents, TcbRefs, ChanRefs, Flow;
    hide Silent, SentIn, ReturnedIn, StraysIn;
    var x := s.threads[child];
    DieBodyRefs(s);
    ChlRefs(s, child);
    if x.parent == Some(s.current) && !x.nojoin {
      var rest := JoinReturn(child, x.chl);
      var o := RcvBody(s, x.chl, rest);
      RcvFlow(s, x.chl, rest, d);
      RcvKin(s, x.chl, rest);
      RcvEvents(s, x.chl, rest);
      if !o.schedules {
        YieldFlow(o.s, Some(child), d);
        var joined, y := Joined(child, x.chl, o.ev[0].v), YieldBody(o.s, Some(child));
        JoinedSilent(joined, d);
        FlowBetween(s, [], s, o.ev, o.s, [joined], y.s, d);
        assert [] + o.ev + [joined] == o.ev + [joined];
      }
    } else {
      JoinedSilent(Failed, d);
      SilentFlow(s, [Failed], s, d);
    }
  }

  lemma JoinedSilent(e: Event, d: Cid)
    requires e.Joined? || e == Failed
    ensures Silent([e], d) && Silent([], d)
  {
    Single(e, d);
  }

  lemma ContinueFlow(s: State, d: Cid)
    requires Inv(s) && s.Cur().cont != Idle && Good(ContinueBody(s))
    ensures Flow(s, ContinueBody(s).ev, ContinueBody(s).s, d)
  {
    hide InFlight, Placed, GroupOk, OwnerOk, YieldBody, ExitBody, WaitBody, Contents;
    var x := s.Cur();
    if x.cont.DieSnd? {
      ExitFlow(s, d);
    } else if x.cont.GroupWait? {
      WaitFlow(s, x.cont.g, d);
    } else {
      FinishFlow(s, d);
    }
  }

  lemma FinishFlow(s: State, d: Cid)
    requires Inv(s) && s.Cur().cont != Idle && !s.Cur().cont.DieSnd? && !s.Cur().cont.GroupWait? &&
      Good(ContinueBody(s))
    ensures Flow(s, ContinueBody(s).ev, ContinueBody(s).s, d)
  {
    hide InFlight, Placed, ThreadOk, GroupOk, OwnerOk, YieldBody, Contents, ExitBody, WaitBody;
    var x := s.Cur();
    var idle := s.(threads := s.threads[s.current := x.(cont := Idle)]);
    IdleFlow(s, d);
    DieBodyRefs(s);
    var o := ContinueBody(s);
    if x.cont.SndReturn? {
    } else if x.cont.RcvReturn? {
      Single(o.ev[0], d);
    } else {
      Pair(o.ev[0], o.ev[1], d);
      ChildRefs(s);
      YieldFlow(idle, Some(x.cont.child), d);
    }
  }

  lemma ChildRefs(s: State)
    requires Refs(s) && s.Cur().cont.JoinReturn?
    ensures s.Cur().cont.child < |s.threads|
  {
    assert TcbRefs(s, s.Cur());
  }

  /** Returning from a blocked call takes the value that was handed over. */
  lemma IdleFlow(s: State, d: Cid)
    requires Inv(s) && (Receiving(s.Cur().cont).Some? || s.Cur().cont.SndReturn?)
    ensures
      var idle := s.(threads := s.threads[s.current := s.Cur().(cont := Idle)]);
      && Shape(idle)
      && InFlight(s, d) == (if Receiving(s.Cur().cont) == Some(d) then [s.Cur().message] else []) + InFlight(idle, d)
  {
    hide Contents, GroupOk, Buffered, Messages;
    var t, x := s.current, s.Cur();
    var idle := s.(threads := s.threads[t := x.(cont := Idle)]);
    IdleShape(s);
    if d < |s.chans| {
      assert ThreadOk(s, t);
      MessagesSame(s.threads, s.rings[Senders(d)], idle.threads);
      if Receiving(x.cont) == Some(d) {
        assert Handed(s, d) == [x.message] && Handed(idle, d) == [];
        assert [x.message] + ([] + Buffered(s.chans[d])) == [x.message] + [] + Buffered(s.chans[d]);
      } else {
        assert Handed(s, d) == Handed(idle, d) && [] + InFlight(idle, d) == InFlight(idle, d);
      }
    }
  }

  lemma IdleShape(s: State)
    requires Inv(s) && (Receiving(s.Cur().cont).Some? || s.Cur().cont.SndReturn?)
    ensures Shape(s.(threads := s.threads[s.current := s.Cur().(cont := Idle)]))
  {
    hide Contents, GroupOk, ChanRefs;
    var t, x := s.current, s.Cur();
    assert TcbRefs(s, x) && ThreadOk(s, t) && OwnerOk(s.groups, t, x);
    ThreadChanged(s, t, x.(cont := Idle), s.(threads := s.threads[t := x.(cont := Idle)]));
  }

  // ----- every call -----

  predicate MovesMessages(call: Call) { call.Snd? || call.Rcv? || call.Die? || call.Join? || call.Continue? }

  lemma GroupCallFlow(s: State, call: Call, d: Cid)
    requires Inv(s) && Enabled(s, call) && Good(Body(s, call)) && (call.NewGroup? || call.GroupAdd? || call.GroupRem?)
    ensures InFlight(Body(s, call).s, d) == InFlight(s, d) && Silent(Body(s, call).ev, d)
  {
    hide InFlight, Contents, Placed, ThreadOk, GroupOk, OwnerOk, TcbRefs, ChanRefs, Permitted, Silent;
    JoinedSilent(Failed, d);
    GroupFlow(s, Body(s, call).s, d);
  }

  lemma CountCallFlow(s: State, call: Call, d: Cid)
    requires Inv(s) && Enabled(s, call) && Good(Body(s, call)) && (call.Deref? || call.Share?)
    ensures InFlight(Body(s, call).s, d) == InFlight(s, d) && Silent(Body(s, call).ev, d)
  {
    hide InFlight, Contents, Placed, ThreadOk, GroupOk, OwnerOk, TcbRefs, ChanRefs, Silent;
    JoinedSilent(Failed, d);
    CountFlow(s, call.c, Body(s, call).s.chans[call.c], d);
  }

  lemma QuietFlow(s: State, call: Call, d: Cid)
    requires Inv(s) && Kin(s) && Enabled(s, call) && Good(Body(s, call)) && !MovesMessages(call)
    ensures InFlight(Body(s, call).s, d) == InFlight(s, d) && Silent(Body(s, call).ev, d)
  {
    hide InFlight, YieldBody, CreateBody, WaitBody, Contents, Placed, ThreadOk, GroupOk, OwnerOk, TcbRefs, ChanRefs;
    hide SndBody, RcvBody, DerefBody, ShareBody, GroupAddBody, GroupRemBody, Silent, Kin, CanSchedule;
    JoinedSilent(Failed, d);
    if call.Yield? {
      YieldFlow(s, call.to, d);
    } else if call.Create? {
      CreateFlow(s, call.nojoin, d);
    } else if call.MakeChan? {
      NewChanFlow(s, call.size, false, d);
    } else if call.Wait? {
      if s.groups[call.g].members != [] { WaitFlow(s, call.g, d); }
    } else if call.Deref? || call.Share? {
      CountCallFlow(s, call, d);
    } else {
      GroupCallFlow(s, call, d);
    }
  }

  lemma BodyFlow(s: State, call: Call, d: Cid)
    requires Inv(s) && Kin(s) && Enabled(s, call)
    ensures Good(Body(s, call)) && Flow(s, Body(s, call).ev, Body(s, call).s, d)
  {
    hide InFlight, SndBody, RcvBody, DieBody, JoinBody, ContinueBody, Contents, Placed, ThreadOk, GroupOk;
    hide OwnerOk, TcbRefs;
    BodyGood(s, call);
    if !MovesMessages(call) {
      hide Body;
      QuietFlow(s, call, d);
      SilentFlow(s, Body(s, call).ev, Body(s, call).s, d);
    } else {
      MessageFlow(s, call, d);
    }
  }

  lemma MessageFlow(s: State, call: Call, d: Cid)
    requires Inv(s) && Kin(s) && Enabled(s, call) && Good(Body(s, call)) && MovesMessages(call)
    ensures Flow(s, Body(s, call).ev, Body(s, call).s, d)
  {
    hide InFlight, SndBody, RcvBody, DieBody, JoinBody, ContinueBody, Contents, Placed, ThreadOk, GroupOk;
    hide OwnerOk, TcbRefs;
    if call.Snd? {
      SndFlow(s, call.c, call.v, SndReturn(call.c), d);
    } else if call.Rcv? {
      RcvFlow(s, call.c, RcvReturn(call.c), d);
    } else if call.Die? {
      DieFlow(s, call.v, d);
    } else if call.Join? {
      JoinFlow(s, call.child, d);
    } else {
      ContinueFlow(s, d);
    }
  }

  /** One call, with its switch. */
  lemma StepFlow(s: State, call: Call, d: Cid)
    requires Inv(s) && Kin(s) && Enabled(s, call)
    ensures Inv(Exec(s, call)) && Flow(s, Body(s, call).ev, Exec(s, call), d)
  {
    hide InFlight, Body, Contents, Placed, ThreadOk, GroupOk, OwnerOk, TcbRefs, Schedule;
    ExecInv(s, call);
    BodyFlow(s, call, d);
    if Body(s, call).schedules {
      ScheduleFlow(Body(s, call).s, d);
    }
  }

  // ----- every run -----

  /** Counting lost messages in, the numbers always agree; and as long as none is
      lost, so do the sequences. */
  lemma {:induction false} RunFlow(worlds: seq<World>, calls: seq<Call>, i: nat, c: Cid)
    requires Run(worlds, calls) && i < |worlds|
    ensures Inv(worlds[i].s)
    ensures
      var (s, log) := (worlds[i].s, worlds[i].log);
      && |SentIn(log, c)| == |ReturnedIn(log, c)| + |InFlight(s, c)| + StraysIn(log, c)
      && (StraysIn(log, c) == 0 ==> SentIn(log, c) == ReturnedIn(log, c) + InFlight(s, c))
  {
    hide Kin, CallRefs, Permitted, CanSchedule, Body, Exec, Start, InFlight, Flow, Refs, SentIn, ReturnedIn, StraysIn;
    hide Placed, ThreadOk, GroupOk, OwnerOk, Contents;
    RunInv(worlds, calls, i);
    if i == 0 {
      StartFlow(c);
    } else {
      RunFlow(worlds, calls, i - 1, c);
      RunInv(worlds, calls, i - 1);
      var s, log, ev := worlds[i - 1].s, worlds[i - 1].log, Body(worlds[i - 1].s, calls[i - 1]).ev;
      StepFlow(s, calls[i - 1], c);
      Joins(log, ev, c);
      Extend(s, log, ev, worlds[i].s, c);
    }
  }

  lemma StartFlow(c: Cid)
    ensures Refs(Start()) && InFlight(Start(), c) == []
    ensures SentIn([], c) == ReturnedIn([], c) == [] && StraysIn([], c) == 0
  {
    StartInv();
  }

  lemma Extend(s: State, log: seq<Event>, ev: seq<Event>, s': State, c: Cid)
    requires Refs(s) && Refs(s') && Flow(s, ev, s', c)
    requires |SentIn(log, c)| == |ReturnedIn(log, c)| + |InFlight(s, c)| + StraysIn(log, c)
    requires StraysIn(log, c) == 0 ==> SentIn(log, c) == ReturnedIn(log, c) + InFlight(s, c)
    ensures |SentIn(log + ev, c)| == |ReturnedIn(log + ev, c)| + |InFlight(s', c)| + StraysIn(log + ev, c)
    ensures StraysIn(log + ev, c) == 0 ==> SentIn(log + ev, c) == ReturnedIn(log + ev, c) + InFlight(s', c)
  {
    hide InFlight, Refs, SentIn, ReturnedIn, StraysIn;
    Joins(log, ev, c);
    Balance(SentIn(log, c), ReturnedIn(log, c), InFlight(s, c), StraysIn(log, c),
            SentIn(ev, c), ReturnedIn(ev, c), InFlight(s', c), StraysIn(ev, c));
  }

  lemma Balance(sent: seq<Value>, back: seq<Value>, f: seq<Value>, strays: nat,
                sent': seq<Value>, back': seq<Value>, f': seq<Value>, strays': nat)
    requires |sent| == |back| + |f| + strays && (strays == 0 ==> sent == back + f)
    requires if strays' == 0 then f + sent' == back' + f' else strays' == |sent'| == 1 && back' == [] && f' == f
    ensures |sent + sent'| == |back + back'| + |f'| + strays + strays'
    ensures strays + strays' == 0 ==> sent + sent' == back + back' + f'
  {
    if strays' == 0 {
      assert |f + sent'| == |back' + f'|;
      assert back + f + sent' == back + (f + sent') && back + back' + f' == back + (back' + f');
    }
  }

  /** The receiver waits for a group, and the last lwt_rcv it blocked in was on c:
      lwt_cgrp_wait leaves now_rcving as it was. */
  ghost predicate StaleWait(s: State, c: Cid)
    requires Refs(s) && c < |s.chans|
  {
    && s.chans[c].receiver.Some?
    && var x := s.threads[s.chans[c].receiver.value];
       x.state == BLOCKED && x.cont.GroupWait? && x.nowRcving == Some(c)
  }

  /** The same as the fields show it: the receiver passes the test of lwt_chl.c:127
      and owns a group that is marked blocked. */
  ghost predicate StaleReceiver(s: State, c: Cid)
    requires Refs(s) && c < |s.chans|
  {
    && s.chans[c].receiver.Some?
    && WaitsFor(s.threads[s.chans[c].receiver.value], c)
    && exists g :: 0 <= g < |s.groups| && s.groups[g].owner == s.chans[c].receiver.value && s.groups[g].blocked
  }

  lemma StaleFields(s: State, c: Cid)
    requires Inv(s) && c < |s.chans|
    ensures StaleReceiver(s, c) <==> StaleWait(s, c)
  {
    hide Placed, GroupOk, Contents;
    if s.chans[c].receiver.Some? {
      var r := s.chans[c].receiver.value;
      assert ThreadOk(s, r) && OwnerOk(s.groups, r, s.threads[r]) && TcbRefs(s, s.threads[r]);
    }
  }

  function SendsTo(s: State, call: Call): Option<Cid>
    requires s.current < |s.threads|
  {
    if call.Snd? then Some(call.c) else if call.Die? then Some(s.Cur().chl) else None
  }

  lemma SndStrays(s: State, c: Cid, v: Value, rest: Cont, d: Cid)
    requires Inv(s) && c < |s.chans|
    ensures StraysIn(SndBody(s, c, v, rest).ev, d) == if d == c && StaleWait(s, c) then 1 else 0
  {
    hide Placed, GroupOk, OwnerOk, Contents, TcbRefs, ThreadOk, SndBody, StraysIn;
    if s.chans[c].receiver.Some? && WaitsFor(s.threads[s.chans[c].receiver.value], c) {
      DirectEvents(s, c, v, rest, d);
    } else {
      if StaleWait(s, c) { WaiterIsBlocked(s, c); }
      NoStrays(s, c, v, rest, d);
    }
  }

  lemma WaiterIsBlocked(s: State, c: Cid)
    requires Inv(s) && c < |s.chans| && StaleWait(s, c)
    ensures s.chans[c].receiver.Some? && WaitsFor(s.threads[s.chans[c].receiver.value], c)
  {
    assert ThreadOk(s, s.chans[c].receiver.value);
  }

  lemma NoStrays(s: State, c: Cid, v: Value, rest: Cont, d: Cid)
    requires Refs(s) && c < |s.chans|
    requires s.chans[c].receiver.Some? ==> !WaitsFor(s.threads[s.chans[c].receiver.value], c)
    ensures StraysIn(SndBody(s, c, v, rest).ev, d) == 0
  {
    hide TcbRefs, Resume, Block, Put;
    Single(Failed, d);
    Single(Accepted(c, v), d);
    var o := Signal(s, c);
    if o.ev != [] { Single(o.ev[0], d); }
    StraysConcat(o.ev, [Accepted(c, v)], d);
  }

  /** The call sends on channel d, whose receiver only seems to be receiving from it. */
  ghost predicate StraySend(s: State, call: Call, d: Cid)
    requires Refs(s)
  {
    SendsTo(s, call) == Some(d) && d < |s.chans| && StaleReceiver(s, d)
  }

  /** A message strays exactly in such a send. */
  lemma StraysWhen(s: State, call: Call, d: Cid)
    requires Inv(s) && Kin(s) && Enabled(s, call)
    ensures StraysIn(Body(s, call).ev, d) > 0 <==> StraySend(s, call, d)
  {
    hide Inv, Kin, Body, StaleReceiver, StaleWait, StraysIn, Permitted, CanSchedule, Placed, ThreadOk, GroupOk, OwnerOk;
    BodyStrays(s, call, d);
    if d < |s.chans| {
      StaleFields(s, d);
    }
  }

  lemma BodyStrays(s: State, call: Call, d: Cid)
    requires Inv(s) && Kin(s) && Enabled(s, call)
    ensures StraysIn(Body(s, call).ev, d) > 0 <==>
      SendsTo(s, call) == Some(d) && d < |s.chans| && StaleWait(s, d)
  {
    hide Placed, GroupOk, OwnerOk, Contents, TcbRefs, InFlight, SndBody, RcvBody, ExitBody, YieldBody;
    hide WaitBody, StaleWait;
    if !MovesMessages(call) {
      BodyGood(s, call);
      QuietFlow(s, call, d);
    } else if call.Snd? {
      SndStrays(s, call.c, call.v, SndReturn(call.c), d);
    } else if call.Die? {
      DieStrays(s, call.v, d);
    } else {
      OtherStrays(s, call, d);
    }
  }

  lemma DieStrays(s: State, v: Value, d: Cid)
    requires Inv(s) && s.Cur().cont == Idle
    ensures s.Cur().chl < |s.chans|
    ensures StraysIn(DieBody(s, v).ev, d) > 0 <==> d == s.Cur().chl && StaleWait(s, d)
  {
    hide Placed, GroupOk, OwnerOk, Contents, TcbRefs, InFlight, SndBody, Signal;
    var c := s.Cur().chl;
    DieBodyRefs(s);
    DieStarts(s, v, d);
    var s1 := WithMessage(s.(zombieCounter := s.zombieCounter + 1), s.current, v);
    SndStrays(s1, c, v, DieSnd(c), d);
    var o := SndBody(s1, c, v, DieSnd(c));
    SndKin(s1, c, v, DieSnd(c));
    Single(Died(s.current, c, v), d);
    StraysConcat([Died(s.current, c, v)], o.ev, d);
    if !o.schedules {
      Single(ExitBody(o.s).ev[0], d);
      StraysConcat([Died(s.current, c, v)] + o.ev, ExitBody(o.s).ev, d);
    }
  }

  lemma OtherStrays(s: State, call: Call, d: Cid)
    requires Inv(s) && Enabled(s, call) && (call.Rcv? || call.Join? || call.Continue?)
    ensures StraysIn(Body(s, call).ev, d) == 0
  {
    hide Placed, GroupOk, OwnerOk, Contents, TcbRefs, InFlight, SndBody, RcvBody, YieldBody;
    DieBodyRefs(s);
    if call.Rcv? {
      var o := Body(s, call);
      RcvEvents(s, call.c, RcvReturn(call.c));
      if o.ev != [] { Single(o.ev[0], d); }
    } else if call.Join? {
      ChlRefs(s, call.child);
      RcvEvents(s, s.threads[call.child].chl, JoinReturn(call.child, s.threads[call.child].chl));
      var o := Body(s, call);
      if |o.ev| == 2 {
        assert o.ev == [o.ev[0], o.ev[1]];
        Pair(o.ev[0], o.ev[1], d);
      } else if |o.ev| == 1 {
        Single(o.ev[0], d);
      }
    } else {
      var o := Body(s, call);
      if |o.ev| == 2 {
        Pair(o.ev[0], o.ev[1], d);
      } else if |o.ev| == 1 {
        Single(o.ev[0], d);
      }
    }
  }

  // ----- the law -----

  /** No such send has been made in the first i calls of the run. */
  ghost predicate NeverStray(worlds: seq<World>, calls: seq<Call>, i: nat, c: Cid)
    requires Run(worlds, calls) && i < |worlds|
  {
    forall j {:trigger calls[j]} :: 0 <= j < i ==> !StraySend(worlds[j].s, calls[j], c)
  }

  lemma {:induction false} RunStrays(worlds: seq<World>, calls: seq<Call>, i: nat, c: Cid)
    requires Run(worlds, calls) && i < |worlds|
    ensures StraysIn(worlds[i].log, c) == 0 <==> NeverStray(worlds, calls, i, c)
  {
    hide Inv, Kin, CallRefs, Permitted, CanSchedule, Body, Exec, Start, StraySend, Refs, StraysIn;
    if i == 0 {
      StartFlow(c);
    } else {
      var call, ev := calls[i - 1], Body(worlds[i - 1].s, calls[i - 1]).ev;
      RunStrays(worlds, calls, i - 1, c);
      RunInv(worlds, calls, i - 1);
      StraysWhen(worlds[i - 1].s, call, c);
      StraysConcat(worlds[i - 1].log, ev, c);
    }
  }

  /** The exact law, in every state of every interleaving: what was accepted for a
      channel is what has been returned from it followed by what is in flight, if
      and only if nobody has sent on it while its receiver, with a stale now_rcving,
      waited for a group. */
  lemma Fifo(worlds: seq<World>, calls: seq<Call>, i: nat, c: Cid)
    requires Run(worlds, calls) && i < |worlds|
    ensures Refs(worlds[i].s)
    ensures
      SentIn(worlds[i].log, c) == ReturnedIn(worlds[i].log, c) + InFlight(worlds[i].s, c)
      <==> NeverStray(worlds, calls, i, c)
  {
    hide NeverStray;
    FifoLog(worlds, calls, i, c);
    RunStrays(worlds, calls, i, c);
  }

  /** The same, by what the log says. */
  lemma FifoLog(worlds: seq<World>, calls: seq<Call>, i: nat, c: Cid)
    requires Run(worlds, calls) && i < |worlds|
    ensures Refs(worlds[i].s)
    ensures
      SentIn(worlds[i].log, c) == ReturnedIn(worlds[i].log, c) + InFlight(worlds[i].s, c)
      <==> StraysIn(worlds[i].log, c) == 0
  {
    RunFlow(worlds, calls, i, c);
  }
}
