/** Where threads are and what queues and channels look like, in every state. */
module LwtShape {
  import opened Options
  import opened Queues
  import opened Lwt

  const NOWHERE: int := -1

  /** The channel a thread in the middle of a call sends to, or receives from. */
  function Sending(k: Cont): Option<Cid> {
    match k
    case SndReturn(c) => Some(c)
    case DieSnd(c) => Some(c)
    case _ => None
  }

  function Receiving(k: Cont): Option<Cid> {
    match k
    case RcvReturn(c) => Some(c)
    case JoinReturn(_, c) => Some(c)
    case _ => None
  }

  /** The ring a thread's state says its node is in. */
  function Home(x: Tcb): int {
    if Queued(x) then RUN
    else if x.state == ZOMBIES then RECYCLE
    else if x.blockFor == SENDING && Sending(x.cont).Some? then Senders(Sending(x.cont).value)
    else NOWHERE
  }

  /** Every node is in exactly the ring its thread's state calls for, once. */
  ghost predicate Placed(threads: seq<Tcb>, rings: seq<seq<Tid>>) {
    && (forall r :: 0 <= r < |rings| ==> NoDup(rings[r]))
    && (forall r, t: Tid {:trigger t in rings[r]} :: 0 <= r < |rings| ==>
          (t in rings[r] <==> t < |threads| && Home(threads[t]) == r))
  }

  /** What a thread's place in a call says about its fields. */
  ghost predicate TcbOk(s: State, t: Tid, x: Tcb)
    requires TcbRefs(s, x)
  {
    && (x.cont == Idle ==> x.state != BLOCKED)
    && (x.cont != Idle ==> x.state != ZOMBIES)
    && (x.cont.GroupWait? ==> x.blockFor == RECEIVING && s.groups[x.cont.g].owner == t)
    && (Sending(x.cont).Some? && x.state == BLOCKED ==> x.blockFor == SENDING)
    && (Receiving(x.cont).Some? ==>
          && s.chans[Receiving(x.cont).value].receiver == Some(t)
          && x.nowRcving == Receiving(x.cont)
          && (x.state == BLOCKED ==> x.blockFor == RECEIVING))
  }

  ghost predicate ThreadOk(s: State, t: Tid)
    requires Refs(s) && t < |s.threads|
  {
    TcbOk(s, t, s.threads[t])
  }

  /** A group is marked blocked only while its owner is in lwt_cgrp_wait, and is
      whenever the owner is blocked there. */
  ghost predicate OwnerOk(groups: seq<Group>, t: Tid, x: Tcb) {
    forall g :: 0 <= g < |groups| && groups[g].owner == t ==>
      && (groups[g].blocked ==> x.cont == GroupWait(g))
      && (x.cont == GroupWait(g) && x.state == BLOCKED ==> groups[g].blocked)
  }

  ghost predicate GroupOk(s: State, g: Gid)
    requires Refs(s) && g < |s.groups|
  {
    var grp := s.groups[g];
    && NoDup(grp.members)
    && (forall c: Cid :: c in grp.members <==> c < |s.chans| && s.chans[c].cgroup == Some(g))
  }

  /** The parts of the invariant that do not look into channels. */
  ghost predicate Shape(s: State) {
    && Refs(s)
    && Placed(s.threads, s.rings)
    && (forall t :: 0 <= t < |s.threads| ==> ThreadOk(s, t) && OwnerOk(s.groups, t, s.threads[t]))
    && (forall g :: 0 <= g < |s.groups| ==> GroupOk(s, g))
    && (forall c :: 0 <= c < |s.chans| && s.chans[c].private ==> s.chans[c].cgroup == None)
  }

  /** The ring holds at most size messages, senders queue only when it is full, and
      ready says whether there is anything to receive. */
  ghost predicate ChanOk(ch: Chan, queue: seq<Tid>) {
    && (queue != [] ==> ch.tail - ch.head == ch.Size())
    && (ch.ready <==> ch.tail > ch.head || queue != [])
  }

  /** Whoever is blocked in lwt_rcv waits on a channel with nothing to receive. */
  ghost predicate Waiting(s: State, t: Tid, c: Cid)
    requires t < |s.threads|
  {
    s.threads[t].state == BLOCKED && Receiving(s.threads[t].cont) == Some(c)
  }

  ghost predicate Contents(s: State)
    requires Refs(s)
  {
    && (forall c :: 0 <= c < |s.chans| ==> ChanOk(s.chans[c], s.rings[Senders(c)]))
    && (forall t, c :: 0 <= t < |s.threads| && 0 <= c < |s.chans| && Waiting(s, t, c) ==> !s.chans[c].ready)
  }

  ghost predicate Inv(s: State) {
    Shape(s) && Contents(s) && s.Cur().state == RUNNING
  }

  // ----- moving a thread from ring to ring -----

  lemma Unlinked(threads: seq<Tcb>, rings: seq<seq<Tid>>, t: Tid)
    requires Placed(threads, rings)
    ensures
      var u := Unlink(rings, t);
      forall r :: 0 <= r < |rings| ==> NoDup(u[r]) && t !in u[r] && forall y :: y in u[r] <==> y in rings[r] && y != t
  {
    forall r | 0 <= r < |rings|
      ensures NoDup(Unlink(rings, t)[r]) && forall y :: y in Unlink(rings, t)[r] <==> y in rings[r] && y != t
    {
      WithoutMembers(rings[r], t);
    }
  }

  /** A thread whose fields change and whose node moves accordingly. */
  lemma Moved(threads: seq<Tcb>, rings: seq<seq<Tid>>, t: Tid, x: Tcb, q: seq<Tid>)
    requires Placed(threads, rings) && t < |threads|
    requires 0 <= Home(x) < |rings| && Inserted(Unlink(rings, t)[Home(x)], t, q)
    ensures Placed(threads[t := x], Unlink(rings, t)[Home(x) := q])
  {
    Unlinked(threads, rings, t);
    InsertedMembers(Unlink(rings, t)[Home(x)], t, q);
  }

  lemma MovedNowhere(threads: seq<Tcb>, rings: seq<seq<Tid>>, t: Tid, x: Tcb)
    requires Placed(threads, rings) && t < |threads| && Home(x) == NOWHERE
    ensures Placed(threads[t := x], Unlink(rings, t))
  {
    Unlinked(threads, rings, t);
  }

  lemma MovedToEnd(threads: seq<Tcb>, rings: seq<seq<Tid>>, t: Tid, x: Tcb)
    requires Placed(threads, rings) && t < |threads| && 0 <= Home(x) < |rings|
    ensures Placed(threads[t := x], MoveToEnd(rings, t, Home(x)))
  {
    LastInserts(Unlink(rings, t)[Home(x)], t);
    Moved(threads, rings, t, x, Unlink(rings, t)[Home(x)] + [t]);
  }

  lemma MovedBeforeLast(threads: seq<Tcb>, rings: seq<seq<Tid>>, t: Tid, x: Tcb)
    requires Placed(threads, rings) && t < |threads| && 0 <= Home(x) < |rings|
    ensures Placed(threads[t := x], MoveBeforeLast(rings, t, Home(x)))
  {
    BeforeLastInserts(Unlink(rings, t)[Home(x)], t);
    Moved(threads, rings, t, x, BeforeLast(Unlink(rings, t)[Home(x)], t));
  }

  // ----- the primitives keep the shape -----

  lemma PlacedRefs(s: State)
    requires Placed(s.threads, s.rings)
    ensures forall r, t: Tid {:trigger t in s.rings[r]} :: 0 <= r < |s.rings| && t in s.rings[r] ==> t < |s.threads|
  {
  }

  lemma ThreadRefs(s: State, t: Tid, x: Tcb, s': State)
    requires Refs(s) && t < |s.threads| && TcbRefs(s, x)
    requires s'.threads == s.threads[t := x] && s'.chans == s.chans && s'.groups == s.groups && s'.current < |s.threads|
    requires |s'.rings| == |s.rings| && Placed(s'.threads, s'.rings)
    ensures Refs(s')
  {
    PlacedRefs(s');
    assert forall u :: 0 <= u < |s.threads| ==> TcbRefs(s, s.threads[u]) && TcbRefs(s', s'.threads[u]);
    assert forall c :: 0 <= c < |s.chans| ==> ChanRefs(s, s.chans[c]) && ChanRefs(s', s'.chans[c]);
  }

  lemma ThreadStays(s: State, t: Tid, x: Tcb, s': State, u: Tid)
    requires Refs(s) && Refs(s') && t < |s.threads| && u < |s.threads|
    requires s'.threads == s.threads[t := x] && s'.chans == s.chans && s'.groups == s.groups
    requires TcbRefs(s, x) && TcbOk(s, t, x) && OwnerOk(s.groups, t, x)
    requires ThreadOk(s, u) && OwnerOk(s.groups, u, s.threads[u])
    ensures ThreadOk(s', u) && OwnerOk(s'.groups, u, s'.threads[u])
  {
  }

  /** One thread's fields and rings change, nothing else does. */
  lemma ThreadChanged(s: State, t: Tid, x: Tcb, s': State)
    requires Shape(s) && t < |s.threads|
    requires s'.threads == s.threads[t := x] && s'.chans == s.chans && s'.groups == s.groups && s'.current < |s.threads|
    requires |s'.rings| == |s.rings| && Placed(s'.threads, s'.rings)
    requires TcbRefs(s, x) && TcbOk(s, t, x) && OwnerOk(s.groups, t, x)
    ensures Shape(s')
  {
    hide TcbRefs, ChanRefs, ThreadOk, OwnerOk;
    ThreadRefs(s, t, x, s');
    forall u | 0 <= u < |s.threads|
      ensures ThreadOk(s', u) && OwnerOk(s'.groups, u, s'.threads[u])
    {
      ThreadStays(s, t, x, s', u);
    }
    forall g | 0 <= g < |s.groups|
      ensures GroupOk(s', g)
    {
      assert GroupOk(s, g);
    }
  }

  /** One channel's buffer, ready flag or receiver changes, nothing else does. */
  lemma ChanChanged(s: State, c: Cid, ch: Chan)
    requires Shape(s) && c < |s.chans| && ChanRefs(s, ch)
    requires ch.cgroup == s.chans[c].cgroup && ch.private == s.chans[c].private
    requires ch.receiver == s.chans[c].receiver ||
             forall t :: 0 <= t < |s.threads| ==> Receiving(s.threads[t].cont) != Some(c)
    ensures Shape(WithChan(s, c, ch))
  {
    var s' := WithChan(s, c, ch);
    assert forall u :: 0 <= u < |s.threads| ==> TcbRefs(s, s.threads[u]) && TcbRefs(s', s'.threads[u]);
    assert forall d :: 0 <= d < |s.chans| ==> ChanRefs(s, s.chans[d]) && ChanRefs(s', s'.chans[d]);
    forall u | 0 <= u < |s.threads|
      ensures ThreadOk(s', u)
    {
      assert ThreadOk(s, u);
    }
    forall g | 0 <= g < |s.groups|
      ensures GroupOk(s', g)
    {
      assert GroupOk(s, g);
    }
  }

  lemma ResumeShape(s: State, t: Tid)
    requires Shape(s) && t < |s.threads|
    ensures Shape(Resume(s, t))
  {
    assert ThreadOk(s, t);
    var x := s.threads[t].(state := RUNNABLE);
    MovedBeforeLast(s.threads, s.rings, t, x);
    ThreadChanged(s, t, x, Resume(s, t));
  }

  lemma BlockShape(s: State, why: BlockFor, c: Cid, rest: Cont)
    requires Shape(s) && (why == SENDING ==> c < |s.chans|) && ContOk(s, rest)
    requires why == SENDING ==> Sending(rest) == Some(c)
    requires why == RECEIVING ==> Receiving(rest).Some? || rest.GroupWait?
    requires Receiving(rest).Some? ==>
      s.chans[Receiving(rest).value].receiver == Some(s.current) && s.Cur().nowRcving == Receiving(rest)
    requires rest.GroupWait? ==> s.groups[rest.g].owner == s.current
    requires forall g :: 0 <= g < |s.groups| && s.groups[g].owner == s.current ==>
      (s.groups[g].blocked <==> rest == GroupWait(g))
    ensures Shape(Block(s, why, c, rest))
  {
    var t, s' := s.current, Block(s, why, c, rest);
    var x := s'.threads[t];
    assert TcbRefs(s, s.threads[t]);
    if why == RECEIVING {
      MovedNowhere(s.threads, s.rings, t, x);
    } else {
      MovedToEnd(s.threads, s.rings, t, x);
    }
    ThreadChanged(s, t, x, s');
  }

  lemma ScheduleShape(s: State)
    requires Shape(s) && CanSchedule(s)
    ensures Shape(Schedule(s)) && Schedule(s).Cur().state == RUNNING
  {
    var t := s.rings[RUN][0];
    assert t in s.rings[RUN];
    assert ThreadOk(s, t);
    ThreadChanged(s, t, s.threads[t].(state := RUNNING), Schedule(s));
  }
}
