/** Waiting for a channel group: no wakeup is lost, and what lwt_cgrp_wait returns
    can be received from without blocking. */
module LwtGroups {
  import opened Options
  import opened Queues
  import opened Lwt
  import opened LwtShape
  import opened LwtCalls
  import opened LwtFifo
  import opened LwtFrames

  /** The group's owner is blocked in lwt_cgrp_wait. */
  ghost predicate Asleep(s: State, g: Gid) {
    && g < |s.groups| && s.groups[g].owner < |s.threads|
    && var x := s.threads[s.groups[g].owner];
       x.state == BLOCKED && x.cont == GroupWait(g)
  }

  /** Nobody sleeps through an event: an owner blocked in lwt_cgrp_wait has no ready
      channel in its group. */
  ghost predicate NoneMissed(s: State) {
    forall c :: 0 <= c < |s.chans| && s.chans[c].ready && s.chans[c].cgroup.Some? ==>
      !Asleep(s, s.chans[c].cgroup.value)
  }

  /** The same as the fields show it: the group is marked blocked and its owner is. */
  ghost predicate Sleeps(s: State, g: Gid) {
    && g < |s.groups| && s.groups[g].owner < |s.threads|
    && s.groups[g].blocked && s.threads[s.groups[g].owner].state == BLOCKED
  }

  lemma SleepFields(s: State, g: Gid)
    requires Shape(s)
    ensures Sleeps(s, g) <==> Asleep(s, g)
  {
    hide Placed, ThreadOk, GroupOk;
    if g < |s.groups| {
      var owner := s.groups[g].owner;
      assert OwnerOk(s.groups, owner, s.threads[owner]);
    }
  }

  /** A ready channel enters a group while the group's owner sleeps. */
  ghost predicate LateAdd(s: State, call: Call) {
    call.GroupAdd? && call.c < |s.chans| && s.chans[call.c].ready && s.chans[call.c].cgroup == None && Sleeps(s, call.g)
  }

  // ----- what a call does to groups and ready flags -----

  ghost predicate SameGroups(s: State, s': State) {
    && s'.groups == s.groups && |s'.chans| == |s.chans|
    && forall d :: 0 <= d < |s.chans| ==> s'.chans[d].cgroup == s.chans[d].cgroup
  }

  /** The same groups, and at most channel on has become ready, at most channel off
      has ceased to be. */
  ghost predicate ReadyBut(s: State, s': State, on: Option<Cid>, off: Option<Cid>) {
    && SameGroups(s, s')
    && (forall d :: 0 <= d < |s.chans| && Some(d) != on && s'.chans[d].ready ==> s.chans[d].ready)
    && (forall d :: 0 <= d < |s.chans| && Some(d) != off && s.chans[d].ready ==> s'.chans[d].ready)
  }

  lemma SignalReady(s: State, c: Cid)
    requires Refs(s) && c < |s.chans|
    ensures ReadyBut(s, Signal(s, c).s, Some(c), None) && Signal(s, c).s.chans[c].ready
  {
    hide TcbRefs;
    SignalKin(s, c);
  }

  lemma SndReady(s: State, c: Cid, v: Value, rest: Cont)
    requires Refs(s) && c < |s.chans|
    ensures ReadyBut(s, SndBody(s, c, v, rest).s, Some(c), None)
  {
    hide Signal, TcbRefs;
    SignalReady(s, c);
    SignalKin(s, c);
  }

  lemma RcvReady(s: State, c: Cid, rest: Cont)
    requires Inv(s) && c < |s.chans|
    ensures ReadyBut(s, RcvBody(s, c, rest).s, None, Some(c))
    ensures s.chans[c].ready <==> !RcvBody(s, c, rest).schedules
  {
    hide Placed, ThreadOk, GroupOk, OwnerOk, TcbRefs, MoveBeforeLast, First;
    assert ChanOk(s.chans[c], s.rings[Senders(c)]);
  }

  lemma DieReady(s: State, v: Value)
    requires Refs(s)
    ensures s.Cur().chl < |s.chans| && ReadyBut(s, DieBody(s, v).s, Some(s.Cur().chl), None)
  {
    hide SndBody, TcbRefs;
    DieBodyRefs(s);
    var s1 := WithMessage(s.(zombieCounter := s.zombieCounter + 1), s.current, v);
    MessageRefs(s, s1);
    SndReady(s1, s.Cur().chl, v, DieSnd(s.Cur().chl));
    SndKin(s1, s.Cur().chl, v, DieSnd(s.Cur().chl));
  }

  lemma JoinReady(s: State, child: Tid)
    requires Inv(s) && child < |s.threads|
    ensures ReadyBut(s, JoinBody(s, child).s, None, Some(s.threads[child].chl))
  {
    hide RcvBody, TcbRefs, Placed, ThreadOk, GroupOk, OwnerOk, Contents;
    var c := s.threads[child].chl;
    ChlRefs(s, child);
    RcvReady(s, c, JoinReturn(child, c));
    RcvKin(s, c, JoinReturn(child, c));
  }

  /** The channel whose messages the call takes. */
  ghost function TakesFrom(s: State, call: Call): Option<Cid>
    requires call.Join? ==> call.child < |s.threads|
  {
    if call.Rcv? then Some(call.c) else if call.Join? then Some(s.threads[call.child].chl) else None
  }

  /** Calls that only send, receive or reorder. */
  predicate Plain(call: Call) {
    call.Yield? || call.Snd? || call.Rcv? || call.Deref? || call.Share? || call.Die? || call.Join?
  }

  lemma PlainReady(s: State, call: Call)
    requires Inv(s) && Enabled(s, call) && Plain(call)
    ensures ReadyBut(s, Body(s, call).s, SendsTo(s, call), TakesFrom(s, call))
  {
    hide Placed, ThreadOk, GroupOk, OwnerOk, Contents, TcbRefs;
    hide SndBody, RcvBody, DieBody, JoinBody;
    match call {
      case Snd(c, v) => SndReady(s, c, v, SndReturn(c));
      case Rcv(c) => RcvReady(s, c, RcvReturn(c));
      case Die(v) => DieReady(s, v);
      case Join(child) => JoinReady(s, child);
      case _ =>
    }
  }

  // ----- who falls asleep -----

  /** Only the current thread can fall asleep, by waiting. */
  ghost predicate Waits(s: State, call: Call, g: Gid)
    requires s.current < |s.threads|
  {
    call == Wait(g) || (call == Continue && s.Cur().cont == GroupWait(g))
  }

  lemma PlainSleepers(s: State, call: Call, g: Gid)
    requires Inv(s) && Enabled(s, call) && Plain(call) && Asleep(Body(s, call).s, g)
    ensures Asleep(s, g)
  {
    hide Placed, ThreadOk, GroupOk, OwnerOk, Contents, TcbRefs, Body, Permitted;
    PlainReady(s, call);
    BodyThreads(s, call);
  }

  lemma SignalWakes(s: State, c: Cid, g: Gid)
    requires Inv(s) && c < |s.chans| && s.chans[c].cgroup == Some(g)
    ensures !Asleep(Signal(s, c).s, g)
  {
    hide Placed, ThreadOk, GroupOk, Contents, TcbRefs, MoveBeforeLast;
    var owner := s.groups[g].owner;
    assert OwnerOk(s.groups, owner, s.threads[owner]);
  }

  /** A send that makes the channel ready leaves its group's owner awake. */
  lemma SndWakes(s: State, c: Cid, v: Value, rest: Cont, g: Gid)
    requires Inv(s) && c < |s.chans| && s.chans[c].cgroup == Some(g) && Sending(rest) == Some(c)
    requires !s.chans[c].ready && SndBody(s, c, v, rest).s.chans[c].ready
    ensures !Asleep(SndBody(s, c, v, rest).s, g)
  {
    hide Placed, ThreadOk, GroupOk, OwnerOk, Contents, TcbRefs, Signal;
    SignalWakes(s, c, g);
    SignalKin(s, c);
    SignalReady(s, c);
  }

  lemma PlainMissesNone(s: State, call: Call)
    requires Inv(s) && Kin(s) && Enabled(s, call) && Plain(call) && NoneMissed(s)
    ensures NoneMissed(Body(s, call).s)
  {
    hide Placed, ThreadOk, GroupOk, OwnerOk, Contents, TcbRefs, Asleep, SndBody, DieBody, RcvBody, JoinBody, YieldBody;
    var s' := Body(s, call).s;
    PlainReady(s, call);
    forall c | 0 <= c < |s'.chans| && s'.chans[c].ready && s'.chans[c].cgroup.Some?
      ensures !Asleep(s', s'.chans[c].cgroup.value)
    {
      var g := s.chans[c].cgroup.value;
      if Asleep(s', g) {
        PlainSleepers(s, call, g);
        if call.Snd? {
          SndWakes(s, c, call.v, SndReturn(c), g);
        }
      }
    }
  }

  lemma CreateMissesNone(s: State, nojoin: bool)
    requires Inv(s) && NoneMissed(s)
    ensures NoneMissed(CreateBody(s, nojoin).s)
  {
    CreateGroups(s, nojoin);
    hide CreateBody, Placed, ThreadOk, GroupOk, OwnerOk, Contents, TcbRefs;
    CreateFacts(s, nojoin);
    CreateTurns(s, nojoin);
  }

  lemma CreateGroups(s: State, nojoin: bool)
    requires Refs(s)
    ensures CreateBody(s, nojoin).s.groups == s.groups
  {
  }

  /** Waiting blocks only when no member is ready. */
  lemma WaitMissesNone(s: State, g: Gid)
    requires Inv(s) && g < |s.groups| && s.groups[g].owner == s.current && NoneMissed(s)
    ensures NoneMissed(WaitBody(s, g).s)
  {
    hide Placed, ThreadOk, OwnerOk, Contents, TcbRefs, Unlink;
    assert GroupOk(s, g);
    WaitStays(s, g);
    var o := WaitBody(s, g);
    assert forall h :: Asleep(o.s, h) ==> Asleep(s, h) || (h == g && o.schedules);
  }

  lemma ContinueMissesNone(s: State)
    requires Inv(s) && s.Cur().cont != Idle && NoneMissed(s)
    ensures NoneMissed(ContinueBody(s).s)
  {
    hide Placed, GroupOk, OwnerOk, Contents, WaitBody;
    assert TcbRefs(s, s.Cur()) && ThreadOk(s, s.current);
    ContinueStays(s);
    if s.Cur().cont.GroupWait? {
      WaitMissesNone(s, s.Cur().cont.g);
    } else {
      var o := ContinueBody(s);
      assert o.s.chans == s.chans && o.s.groups == s.groups;
      assert forall h :: Asleep(o.s, h) ==> Asleep(s, h);
    }
  }

  lemma AddMisses(s: State, g: Gid, c: Cid)
    requires Inv(s) && g < |s.groups| && c < |s.chans| && NoneMissed(s)
    ensures NoneMissed(GroupAddBody(s, g, c).s) <==> !LateAdd(s, GroupAdd(g, c))
  {
    hide Placed, ThreadOk, GroupOk, OwnerOk, Contents, TcbRefs;
    var s' := GroupAddBody(s, g, c).s;
    SleepFields(s, g);
    assert forall h :: Asleep(s', h) <==> Asleep(s, h);
    if LateAdd(s, GroupAdd(g, c)) {
      assert s'.chans[c].ready && s'.chans[c].cgroup == Some(g);
    }
  }

  lemma BodyMisses(s: State, call: Call)
    requires Inv(s) && Kin(s) && Enabled(s, call) && NoneMissed(s)
    ensures NoneMissed(Body(s, call).s) <==> !LateAdd(s, call)
  {
    hide Placed, ThreadOk, GroupOk, OwnerOk, Contents, TcbRefs, CreateBody, GroupAddBody, WaitBody;
    hide ContinueBody, DieBody, JoinBody, RcvBody, SndBody, Asleep, NoneMissed, YieldBody;
    if Plain(call) {
      hide Body;
      PlainMissesNone(s, call);
    } else if call.Create? {
      CreateMissesNone(s, call.nojoin);
    } else if call.GroupAdd? {
      AddMisses(s, call.g, call.c);
    } else if call.Continue? {
      ContinueMissesNone(s);
    } else if call.Wait? {
      if s.groups[call.g].members != [] { WaitMissesNone(s, call.g); }
    } else {
      OtherMissesNone(s, call);
    }
  }

  lemma OtherMissesNone(s: State, call: Call)
    requires Inv(s) && Enabled(s, call) && NoneMissed(s) && (call.MakeChan? || call.NewGroup? || call.GroupRem?)
    ensures NoneMissed(Body(s, call).s)
  {
    hide Placed, ThreadOk, GroupOk, OwnerOk, Contents, TcbRefs;
    var s' := Body(s, call).s;
    assert s'.threads == s.threads;
    assert forall h: Gid :: h < |s.groups| && Asleep(s', h) ==> Asleep(s, h);
    assert forall c :: 0 <= c < |s.chans| ==> ChanRefs(s, s.chans[c]);
  }

  /** One call makes somebody sleep through an event exactly when it is the late
      addition of a ready channel. */
  lemma StepMisses(s: State, call: Call)
    requires Inv(s) && Kin(s) && Enabled(s, call) && NoneMissed(s)
    ensures NoneMissed(Exec(s, call)) <==> !LateAdd(s, call)
  {
    hide Body, Placed, ThreadOk, GroupOk, OwnerOk, Contents, TcbRefs;
    BodyMisses(s, call);
    BodyGood(s, call);
    var o := Body(s, call);
    if o.schedules {
      ScheduleSleepers(o.s);
    }
  }

  /** Who is dispatched was queued, so not asleep. */
  lemma ScheduleSleepers(s: State)
    requires Shape(s) && CanSchedule(s)
    ensures forall g :: Asleep(Schedule(s), g) <==> Asleep(s, g)
    ensures NoneMissed(Schedule(s)) <==> NoneMissed(s)
  {
    assert s.rings[RUN][0] in s.rings[RUN];
  }

  // ----- every run -----

  ghost predicate NeverMissed(worlds: seq<World>, i: nat)
    requires i < |worlds|
  {
    forall j :: 0 <= j <= i ==> NoneMissed(worlds[j].s)
  }

  ghost predicate NeverLate(worlds: seq<World>, calls: seq<Call>, i: nat)
    requires i <= |calls| < |worlds|
  {
    forall j :: 0 <= j < i ==> !LateAdd(worlds[j].s, calls[j])
  }

  /** No wakeup is lost in any state of a run so far, if and only if no ready channel
      has been added to a group whose owner slept. */
  lemma {:induction false} NoLostWakeup(worlds: seq<World>, calls: seq<Call>, i: nat)
    requires Run(worlds, calls) && i < |worlds|
    ensures NeverMissed(worlds, i) <==> NeverLate(worlds, calls, i)
  {
    hide Inv, Kin, Exec, CanSchedule, Body, Permitted, NoneMissed, LateAdd, NeverMissed, NeverLate;
    MissedSoFar(worlds, i);
    LateSoFar(worlds, calls, i);
    if i == 0 {
      StartMisses();
    } else {
      NoLostWakeup(worlds, calls, i - 1);
      RunInv(worlds, calls, i - 1);
      if NeverMissed(worlds, i - 1) {
        MissedSoFar(worlds, i - 1);
        StepMisses(worlds[i - 1].s, calls[i - 1]);
      }
    }
  }

  lemma MissedSoFar(worlds: seq<World>, i: nat)
    requires i < |worlds|
    ensures NeverMissed(worlds, i) <==> NoneMissed(worlds[i].s) && (i > 0 ==> NeverMissed(worlds, i - 1))
  {
    hide NoneMissed;
  }

  lemma LateSoFar(worlds: seq<World>, calls: seq<Call>, i: nat)
    requires i <= |calls| < |worlds|
    ensures NeverLate(worlds, calls, i) <==>
      i == 0 || (NeverLate(worlds, calls, i - 1) && !LateAdd(worlds[i - 1].s, calls[i - 1]))
  {
    hide LateAdd;
  }

  lemma StartMisses()
    ensures NoneMissed(Start())
  {
  }

  /** An owner that adds channels itself is awake, so its additions are never late;
      and then an owner blocked in lwt_cgrp_wait has no ready member, ever. */
  lemma OwnerAddsMissNothing(worlds: seq<World>, calls: seq<Call>, i: nat, g: Gid, c: Cid)
    requires Run(worlds, calls) && i < |worlds|
    requires forall j :: 0 <= j < i && calls[j].GroupAdd? ==>
      worlds[j].s.groups[calls[j].g].owner == worlds[j].s.current
    ensures Inv(worlds[i].s)
    ensures
      var s := worlds[i].s;
      Sleeps(s, g) && c in s.groups[g].members ==> c < |s.chans| && !s.chans[c].ready
  {
    hide Exec, CanSchedule, Body, Permitted, NoneMissed, Placed, ThreadOk, OwnerOk, Contents, TcbRefs;
    forall j | 0 <= j < i
      ensures !LateAdd(worlds[j].s, calls[j])
    {
      RunInv(worlds, calls, j);
    }
    NoLostWakeup(worlds, calls, i);
    RunInv(worlds, calls, i);
    SleepFields(worlds[i].s, g);
    if Asleep(worlds[i].s, g) && c in worlds[i].s.groups[g].members {
      MembersMissNothing(worlds[i].s, g, c);
    }
  }

  lemma MembersMissNothing(s: State, g: Gid, c: Cid)
    requires Inv(s) && NoneMissed(s) && Asleep(s, g) && c in s.groups[g].members
    ensures c < |s.chans| && !s.chans[c].ready
  {
    assert GroupOk(s, g);
  }

  // ----- receiving from what lwt_cgrp_wait returned -----

  /** What lwt_cgrp_wait returns is a member with something to receive. */
  lemma WaitReturnsReady(s: State, call: Call, g: Gid, c: Cid)
    requires Inv(s) && Enabled(s, call) && Ready(g, c) in Body(s, call).ev
    ensures Waits(s, call, g) && g < |s.groups| && c in s.groups[g].members
    ensures c < |s.chans| && s.chans[c].ready && Exec(s, call).chans == s.chans && Exec(s, call).current == s.current
  {
    hide Placed, ThreadOk, GroupOk, OwnerOk, Contents, TcbRefs, SndBody, RcvBody, YieldBody, DieBody;
    hide JoinBody, CreateBody;
    if !call.Wait? && !call.Continue? {
      NoReady(s, call, g, c);
    }
    ContRefs(s, s.current);
  }

  lemma SndNoReady(s: State, c: Cid, v: Value, rest: Cont)
    requires Inv(s) && c < |s.chans|
    ensures forall e :: e in SndBody(s, c, v, rest).ev ==> !e.Ready?
  {
    hide Placed, ThreadOk, GroupOk, OwnerOk, Contents, TcbRefs, Signal, Resume, Block, Put;
    SignalStays(s, c);
  }

  lemma DieNoReady(s: State, v: Value)
    requires Inv(s) && s.Cur().cont == Idle
    ensures forall e :: e in DieBody(s, v).ev ==> !e.Ready?
  {
    hide Placed, ThreadOk, GroupOk, OwnerOk, Contents, SndBody, TcbRefs;
    var c := s.Cur().chl;
    DieBodyRefs(s);
    DieStarts(s, v, c);
    var s1 := WithMessage(s.(zombieCounter := s.zombieCounter + 1), s.current, v);
    SndNoReady(s1, c, v, DieSnd(c));
    SndKin(s1, c, v, DieSnd(c));
  }

  lemma NoReady(s: State, call: Call, g: Gid, c: Cid)
    requires Inv(s) && Enabled(s, call) && !call.Wait? && !call.Continue?
    ensures Ready(g, c) !in Body(s, call).ev
  {
    hide Placed, ThreadOk, GroupOk, OwnerOk, Contents, TcbRefs, SndBody, RcvBody, JoinBody, DieBody;
    hide CreateBody, YieldBody;
    match call {
      case Yield(to) => YieldSays(s, to);
      case Create(nojoin) => CreateSays(s, nojoin);
      case Snd(d, v) => SndNoReady(s, d, v, SndReturn(d));
      case Rcv(d) => RcvEvents(s, d, RcvReturn(d));
      case Die(v) => DieNoReady(s, v);
      case Join(child) => JoinEvents(s, child);
      case _ =>
    }
  }

  ghost predicate IsReady(s: State, c: Cid) { c < |s.chans| && s.chans[c].ready && !s.chans[c].private }

  lemma StaysReady(s: State, call: Call, c: Cid)
    requires Inv(s) && Kin(s) && Enabled(s, call) && IsReady(s, c) && call != Rcv(c)
    ensures IsReady(Body(s, call).s, c)
  {
    hide Placed, ThreadOk, GroupOk, OwnerOk, Contents, TcbRefs, SndBody, RcvBody, DieBody, JoinBody;
    hide CreateBody, YieldBody;
    if call.Create? {
      CreateFacts(s, call.nojoin);
    } else {
      if Plain(call) { PlainReady(s, call); }
      if call.Continue? { ContinueChans(s); }
      if !call.MakeChan? { BodyKin(s, call); }
    }
  }

  lemma ContinueChans(s: State)
    requires Refs(s)
    ensures ContinueBody(s).s.chans == s.chans
  {
    hide TcbRefs;
    ContRefs(s, s.current);
  }

  /** From a ready channel lwt_rcv returns at once. */
  lemma RcvReturns(s: State, c: Cid)
    requires Inv(s) && Enabled(s, Rcv(c)) && IsReady(s, c)
    ensures !Body(s, Rcv(c)).schedules && exists v :: Body(s, Rcv(c)).ev == [Returned(c, v)]
  {
    hide RcvBody;
    RcvReady(s, c, RcvReturn(c));
    RcvEvents(s, c, RcvReturn(c));
    var ev := RcvBody(s, c, RcvReturn(c)).ev;
    assert ev == [Returned(c, ev[0].v)];
  }

  lemma {:induction false} ReadyUntilTaken(worlds: seq<World>, calls: seq<Call>, i: nat, j: nat, c: Cid)
    requires Run(worlds, calls) && i <= j < |worlds| && IsReady(worlds[i].s, c)
    requires forall k :: i <= k < j ==> calls[k] != Rcv(c)
    ensures IsReady(worlds[j].s, c)
    decreases j
  {
    hide Inv, Kin, CanSchedule, Body, Permitted, Refs;
    if i < j {
      ReadyUntilTaken(worlds, calls, i, j - 1, c);
      RunInv(worlds, calls, j - 1);
      StaysReady(worlds[j - 1].s, calls[j - 1], c);
    }
  }

  /** Whatever happens in between, the first lwt_rcv on a channel that lwt_cgrp_wait
      returned does not block. */
  lemma RcvAfterWait(worlds: seq<World>, calls: seq<Call>, i: nat, j: nat, g: Gid, c: Cid)
    requires Run(worlds, calls) && i < j < |calls| && Ready(g, c) in Body(worlds[i].s, calls[i]).ev
    requires calls[j] == Rcv(c) && forall k :: i < k < j ==> calls[k] != Rcv(c)
    ensures !Body(worlds[j].s, calls[j]).schedules && exists v :: Body(worlds[j].s, calls[j]).ev == [Returned(c, v)]
  {
    hide CanSchedule, Body, Permitted, Refs, Exec;
    RunInv(worlds, calls, i);
    WaitReturnsReady(worlds[i].s, calls[i], g, c);
    assert GroupOk(worlds[i].s, g);
    assert IsReady(worlds[i].s, c) && IsReady(worlds[i + 1].s, c);
    ReadyUntilTaken(worlds, calls, i + 1, j, c);
    RunInv(worlds, calls, j);
    RcvReturns(worlds[j].s, c);
  }

  // ----- the order of a group's members -----

  /** What an accepted lwt_cgrp_add or lwt_cgrp_rem is. */
  ghost predicate Adds(s: State, call: Call, g: Gid) {
    call.GroupAdd? && call.g == g && call.c < |s.chans| && s.chans[call.c].cgroup == None
  }

  ghost predicate Removes(s: State, call: Call, g: Gid) {
    && call.GroupRem? && call.g == g
    && call.c < |s.chans| && s.chans[call.c].cgroup == Some(g) && !s.chans[call.c].ready
  }

  /** The new member stands in front of the last, the others keep their order. */
  lemma AddKeepsOrder(s: State, g: Gid, c: Cid)
    requires Inv(s) && Enabled(s, GroupAdd(g, c)) && Adds(s, GroupAdd(g, c), g)
    ensures
      var m, m' := s.groups[g].members, Exec(s, GroupAdd(g, c)).groups[g].members;
      && c !in m && Without(m', c) == m && |m'| == |m| + 1
      && (m != [] ==> m'[|m'| - 1] == m[|m| - 1] && m'[|m'| - 2] == c)
  {
    hide Placed, ThreadOk, OwnerOk, Contents, TcbRefs;
    assert GroupOk(s, g);
    PutBack(s.groups[g].members, c);
  }

  /** Taking a member out leaves the others in their order. */
  lemma RemoveKeepsOrder(s: State, g: Gid, c: Cid)
    requires Inv(s) && Enabled(s, GroupRem(g, c)) && Removes(s, GroupRem(g, c), g)
    ensures
      var m, m' := s.groups[g].members, Exec(s, GroupRem(g, c)).groups[g].members;
      c !in m' && Inserted(m', c, m)
  {
    hide Placed, ThreadOk, OwnerOk, Contents, TcbRefs, ChanRefs, CanSchedule, NoDup, Inserted;
    assert GroupOk(s, g);
    WithoutInserts(s.groups[g].members, c);
  }

  /** No other call changes a group's members, and none its owner. */
  lemma MembersStay(s: State, call: Call, g: Gid)
    requires Inv(s) && Kin(s) && Enabled(s, call) && g < |s.groups|
    ensures g < |Exec(s, call).groups| && Exec(s, call).groups[g].owner == s.groups[g].owner
    ensures !Adds(s, call, g) && !Removes(s, call, g) ==> Exec(s, call).groups[g].members == s.groups[g].members
    ensures Adds(s, call, g) ==> Exec(s, call).groups[g].members == BeforeLast(s.groups[g].members, call.c)
  {
    hide Placed, ThreadOk, GroupOk, OwnerOk, Contents, TcbRefs;
    hide SndBody, RcvBody, DieBody, JoinBody, CreateBody, YieldBody;
    hide ContinueBody, WaitBody;
    if Plain(call) {
      hide Body;
      PlainReady(s, call);
    } else if call.Create? {
      CreateGroups(s, call.nojoin);
    } else if call.Continue? {
      ContinueMembers(s, g);
    } else if call.Wait? {
      WaitMembers(s, call.g, g);
    }
  }

  lemma WaitMembers(s: State, g: Gid, h: Gid)
    requires Refs(s) && g < |s.groups| && h < |s.groups|
    ensures
      var s' := WaitBody(s, g).s;
      && |s'.groups| == |s.groups|
      && s'.groups[h].members == s.groups[h].members && s'.groups[h].owner == s.groups[h].owner
  {
    hide TcbRefs, FirstReady;
  }

  lemma ContinueMembers(s: State, h: Gid)
    requires Refs(s) && h < |s.groups|
    ensures
      var s' := ContinueBody(s).s;
      && |s'.groups| == |s.groups|
      && s'.groups[h].members == s.groups[h].members && s'.groups[h].owner == s.groups[h].owner
  {
    hide TcbRefs, WaitBody;
    ContRefs(s, s.current);
    if s.Cur().cont.GroupWait? {
      WaitMembers(s, s.Cur().cont.g, h);
    }
  }

  /** Who made a group owns it. */
  lemma {:induction false} OwnerKept(worlds: seq<World>, calls: seq<Call>, i: nat, j: nat)
    requires Run(worlds, calls) && i < j < |worlds| && calls[i] == NewGroup
    ensures |worlds[i].s.groups| < |worlds[j].s.groups|
    ensures worlds[j].s.groups[|worlds[i].s.groups|].owner == worlds[i].s.current
    decreases j
  {
    hide Inv, Kin, CanSchedule, Permitted, Refs, Body, Exec;
    var g := |worlds[i].s.groups|;
    assert worlds[j - 1 + 1] == Next(worlds[j - 1], calls[j - 1]);
    if j == i + 1 {
      GroupMade(worlds[i].s);
    } else {
      OwnerKept(worlds, calls, i, j - 1);
      RunInv(worlds, calls, j - 1);
      MembersStay(worlds[j - 1].s, calls[j - 1], g);
    }
  }

  /** The channels added to group g by the calls from i up to j, in that order. */
  ghost function Added(worlds: seq<World>, calls: seq<Call>, i: nat, j: nat, g: Gid): seq<Cid>
    requires Run(worlds, calls) && i <= j <= |calls|
  {
    if i == j then []
    else Added(worlds, calls, i, j - 1, g) + AddedBy(worlds[j - 1].s, calls[j - 1], g)
  }

  ghost function AddedBy(s: State, call: Call, g: Gid): seq<Cid> { if Adds(s, call, g) then [call.c] else [] }

  /** c1, c2, .., cn are listed as c2, .., cn, c1: the first stays last. */
  function Listing(cs: seq<Cid>): seq<Cid> { if cs == [] then [] else cs[1..] + [cs[0]] }

  lemma ListingAdds(cs: seq<Cid>, c: Cid)
    ensures BeforeLast(Listing(cs), c) == Listing(cs + [c])
  {
    if cs != [] {
      assert (cs + [c])[1..] == cs[1..] + [c];
      assert Listing(cs)[..|cs| - 1] == cs[1..];
      assert cs[1..] + [c] + [cs[0]] == cs[1..] + [c, cs[0]];
    }
  }

  /** Channels c1, .., cn added to a new group are listed as c2, .., cn, c1. */
  lemma {:induction false} MembersInOrder(worlds: seq<World>, calls: seq<Call>, i: nat, j: nat)
    requires Run(worlds, calls) && i < j < |worlds| && calls[i] == NewGroup
    requires forall k {:trigger calls[k]} :: i < k < j ==> !Removes(worlds[k].s, calls[k], |worlds[i].s.groups|)
    ensures |worlds[i].s.groups| < |worlds[j].s.groups|
    ensures
      var g := |worlds[i].s.groups|;
      worlds[j].s.groups[g].members == Listing(Added(worlds, calls, i + 1, j, g))
    decreases j
  {
    hide Inv, Kin, CanSchedule, Permitted, Refs, Removes, Body, Exec, AddedBy, Listing, Start;
    var g := |worlds[i].s.groups|;
    assert worlds[j - 1 + 1] == Next(worlds[j - 1], calls[j - 1]);
    if j == i + 1 {
      GroupMade(worlds[i].s);
    } else {
      MembersInOrder(worlds, calls, i, j - 1);
      RunInv(worlds, calls, j - 1);
      ListingStep(worlds[j - 1].s, calls[j - 1], g, Added(worlds, calls, i + 1, j - 1, g));
    }
  }

  lemma GroupMade(s: State)
    requires Enabled(s, NewGroup)
    ensures
      var s' := Exec(s, NewGroup);
      && |s'.groups| == |s.groups| + 1 && s'.groups[|s.groups|].members == Listing([])
      && s'.groups[|s.groups|].owner == s.current
  {
    hide TcbRefs, CanSchedule;
  }

  lemma ListingStep(s: State, call: Call, g: Gid, cs: seq<Cid>)
    requires Inv(s) && Kin(s) && Enabled(s, call) && g < |s.groups| && !Removes(s, call, g)
    requires s.groups[g].members == Listing(cs)
    ensures g < |Exec(s, call).groups| && Exec(s, call).groups[g].members == Listing(cs + AddedBy(s, call, g))
  {
    hide Inv, Kin, CanSchedule, Permitted, Refs, CallRefs, Adds, Removes, BeforeLast, Listing, Body, Exec;
    MembersStay(s, call, g);
    if Adds(s, call, g) {
      AddsOne(s, call, g);
      ListingAdds(cs, call.c);
    } else {
      assert cs + [] == cs;
    }
  }

  lemma AddsOne(s: State, call: Call, g: Gid)
    requires Adds(s, call, g)
    ensures call.GroupAdd?
  {
  }

  predicate HasEvent(chans: seq<Chan>, c: Cid) { c < |chans| && chans[c].ready }

  /** c is the first of the list with an event. */
  ghost predicate FirstOf(chans: seq<Chan>, members: seq<Cid>, c: Cid) {
    exists k :: 0 <= k < |members| && FirstAt(chans, members, c, k)
  }

  ghost predicate FirstAt(chans: seq<Chan>, members: seq<Cid>, c: Cid, k: nat)
    requires k < |members|
  {
    members[k] == c && HasEvent(chans, c) && forall m :: 0 <= m < k ==> !HasEvent(chans, members[m])
  }

  lemma {:induction false} FindsFirst(chans: seq<Chan>, members: seq<Cid>)
    requires forall c :: c in members ==> c < |chans|
    ensures FirstReady(chans, members).Some? ==> FirstOf(chans, members, FirstReady(chans, members).value)
  {
    if members != [] {
      assert members[0] in members && forall c :: c in members[1..] ==> c in members;
      FindsFirst(chans, members[1..]);
      var r := FirstReady(chans, members);
      if HasEvent(chans, members[0]) {
        assert FirstAt(chans, members, members[0], 0);
      } else if r.Some? {
        var k :| 0 <= k < |members[1..]| && FirstAt(chans, members[1..], r.value, k);
        assert forall m :: 0 < m < k + 1 ==> members[m] == members[1..][m - 1];
        assert FirstAt(chans, members, r.value, k + 1);
      }
    }
  }

  /** lwt_cgrp_wait returns the first ready member. */
  lemma WaitReturnsFirst(s: State, call: Call, g: Gid, c: Cid)
    requires Inv(s) && Enabled(s, call) && Ready(g, c) in Body(s, call).ev
    ensures g < |s.groups| && FirstOf(s.chans, s.groups[g].members, c)
  {
    hide Placed, ThreadOk, GroupOk, OwnerOk, Contents, TcbRefs;
    hide SndBody, RcvBody, YieldBody, DieBody, JoinBody, CreateBody;
    hide FirstReady, FirstOf;
    if !call.Wait? && !call.Continue? {
      NoReady(s, call, g, c);
    }
    ContRefs(s, s.current);
    WaitReturnsReady(s, call, g, c);
    FindsFirst(s.chans, s.groups[g].members);
  }

  /** Of channels c1, .., cn added to a new group, lwt_cgrp_wait returns the first ready
      one of c2, .., cn, c1. */
  lemma WaitInOrder(worlds: seq<World>, calls: seq<Call>, i: nat, j: nat, c: Cid)
    requires Run(worlds, calls) && i < j < |calls| && calls[i] == NewGroup
    requires forall k {:trigger calls[k]} :: i < k < j ==> !Removes(worlds[k].s, calls[k], |worlds[i].s.groups|)
    requires Ready(|worlds[i].s.groups|, c) in Body(worlds[j].s, calls[j]).ev
    ensures FirstOf(worlds[j].s.chans, Listing(Added(worlds, calls, i + 1, j, |worlds[i].s.groups|)), c)
  {
    hide Inv, Kin, CanSchedule, Permitted, Refs, Adds, Removes, FirstOf, Listing, Body, Exec;
    MembersInOrder(worlds, calls, i, j);
    RunInv(worlds, calls, j);
    WaitReturnsFirst(worlds[j].s, calls[j], |worlds[i].s.groups|, c);
  }
}
