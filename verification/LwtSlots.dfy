/** One message_data field serves sending, receiving and dying; nobody overwrites
    a value it still holds. */
module LwtSlots {
  import opened Options
  import opened Queues
  import opened Lwt
  import opened LwtShape
  import opened LwtCalls
  import opened LwtFifo

  /** A blocked sender's message, or the value given to a receiver that has not
      returned yet. */
  ghost predicate Holds(x: Tcb) {
    || (x.state == BLOCKED && x.blockFor == SENDING)
    || (x.state != BLOCKED && Receiving(x.cont).Some?)
  }

  ghost predicate Kept(s: State, s': State) {
    && |s.threads| <= |s'.threads|
    && forall t :: 0 <= t < |s.threads| && Holds(s.threads[t]) ==> s'.threads[t].message == s.threads[t].message
  }

  lemma SignalKept(s: State, c: Cid)
    requires Refs(s) && c < |s.chans|
    ensures forall t :: 0 <= t < |s.threads| ==> Signal(s, c).s.threads[t].message == s.threads[t].message
  {
    hide TcbRefs, MoveBeforeLast;
  }

  lemma SndKept(s: State, c: Cid, v: Value, rest: Cont)
    requires Inv(s) && c < |s.chans| && s.Cur().cont == Idle
    ensures Kept(s, SndBody(s, c, v, rest).s)
  {
    hide Signal, TcbRefs, Placed, GroupOk, OwnerOk, Contents, MoveBeforeLast, MoveToEnd, Unlink;
    SignalKin(s, c);
    SignalKept(s, c);
    if s.chans[c].receiver.Some? {
      assert ThreadOk(s, s.chans[c].receiver.value);
    }
  }

  lemma RcvKept(s: State, c: Cid, rest: Cont)
    requires Refs(s) && c < |s.chans|
    ensures Kept(s, RcvBody(s, c, rest).s)
  {
    hide TcbRefs, MoveBeforeLast, Unlink, Put, First;
    if s.rings[Senders(c)] != [] {
      assert s.rings[Senders(c)][0] in s.rings[Senders(c)];
    }
  }

  lemma YieldKept(s: State, to: Option<Tid>)
    requires s.current < |s.threads| && RUN < |s.rings| && (to.Some? ==> to.value < |s.threads|)
    ensures YieldBody(s, to).s.threads == s.threads
  {
  }

  lemma DieKept(s: State, v: Value)
    requires Inv(s) && s.Cur().cont == Idle
    ensures Kept(s, DieBody(s, v).s)
  {
    hide SndBody, TcbRefs, Placed, ThreadOk, GroupOk, OwnerOk, Contents;
    var c := s.Cur().chl;
    DieBodyRefs(s);
    DieStarts(s, v, c);
    var s1 := WithMessage(s.(zombieCounter := s.zombieCounter + 1), s.current, v);
    SndKept(s1, c, v, DieSnd(c));
    SndKin(s1, c, v, DieSnd(c));
  }

  lemma JoinKept(s: State, child: Tid)
    requires Inv(s) && child < |s.threads|
    ensures Kept(s, JoinBody(s, child).s)
  {
    hide RcvBody, YieldBody, TcbRefs, Placed, ThreadOk, GroupOk, OwnerOk, Contents;
    var c := s.threads[child].chl;
    ChlRefs(s, child);
    RcvKept(s, c, JoinReturn(child, c));
    RcvKin(s, c, JoinReturn(child, c));
    var o := RcvBody(s, c, JoinReturn(child, c));
    if s.threads[child].parent == Some(s.current) && !s.threads[child].nojoin && !o.schedules {
      YieldKept(o.s, Some(child));
    }
  }

  lemma ContinueKept(s: State)
    requires Inv(s)
    ensures Kept(s, ContinueBody(s).s)
  {
    hide TcbRefs, Placed, ThreadOk, GroupOk, OwnerOk, Contents, MoveToEnd, MoveBeforeLast, Unlink, FirstReady;
    ContRefs(s, s.current);
  }

  lemma CreateKept(s: State, nojoin: bool)
    requires Inv(s)
    ensures Kept(s, CreateBody(s, nojoin).s)
  {
    CreateFacts(s, nojoin);
    if s.rings[RECYCLE] != [] {
      assert s.rings[RECYCLE][0] in s.rings[RECYCLE];
      assert ThreadOk(s, s.rings[RECYCLE][0]);
    }
  }

  /** No call by any thread touches a value somebody holds. */
  lemma SlotProtected(s: State, call: Call)
    requires Inv(s) && Enabled(s, call)
    ensures Kept(s, Exec(s, call))
  {
    hide TcbRefs, Placed, ThreadOk, GroupOk, OwnerOk, Contents;
    hide SndBody, RcvBody, DieBody, JoinBody, YieldBody, ContinueBody, CreateBody;
    match call {
      case Yield(to) => YieldKept(s, to);
      case Create(nojoin) => CreateKept(s, nojoin);
      case Snd(c, v) => SndKept(s, c, v, SndReturn(c));
      case Rcv(c) => RcvKept(s, c, RcvReturn(c));
      case Die(v) => DieKept(s, v);
      case Join(child) => JoinKept(s, child);
      case Continue => ContinueKept(s);
      case _ =>
    }
  }

  /** Over any stretch of a run through which a thread holds a value, the value is
      the same, whatever the other threads do. */
  lemma {:induction false} SlotKept(worlds: seq<World>, calls: seq<Call>, i: nat, j: nat, t: Tid)
    requires Run(worlds, calls) && i <= j < |worlds| && t < |worlds[i].s.threads|
    requires forall k :: i <= k <= j ==> t < |worlds[k].s.threads| && Holds(worlds[k].s.threads[t])
    ensures worlds[j].s.threads[t].message == worlds[i].s.threads[t].message
    decreases j
  {
    hide Inv, Kin, Holds, CanSchedule, Body, Permitted, Refs, Exec;
    if i < j {
      SlotKept(worlds, calls, i, j - 1, t);
      RunInv(worlds, calls, j - 1);
      SlotProtected(worlds[j - 1].s, calls[j - 1]);
    }
  }
}
