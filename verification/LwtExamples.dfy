/** Three runs in which the library does not do what one would expect, each the
    smallest of the family that an exact condition elsewhere describes. */
module LwtExamples {
  import opened Options
  import opened Queues
  import opened Lwt
  import opened LwtShape
  import opened LwtCalls
  import opened LwtFifo
  import opened LwtCounters
  import opened LwtGroups

  /** A run goes on with one more call. */
  lemma GoOn(worlds: seq<World>, calls: seq<Call>, call: Call, s': State)
    returns (worlds': seq<World>, calls': seq<Call>)
    requires Run(worlds, calls) && Enabled(worlds[|calls|].s, call) && Exec(worlds[|calls|].s, call) == s'
    ensures Run(worlds', calls') && calls' == calls + [call] && worlds'[..|worlds|] == worlds
    ensures worlds'[|calls'|].s == s' && Inv(s')
    ensures worlds'[|calls'|].log == worlds[|calls|].log + Body(worlds[|calls|].s, call).ev
  {
    hide Enabled, Exec, Body, Inv, Kin;
    worlds' := worlds + [Next(worlds[|calls|], call)];
    calls' := calls + [call];
    RunInv(worlds', calls', |calls'|);
  }

  // ----- a common beginning: main and one child, a plain channel and one in a group -----

  function Plain0(receiver: Tid, data: seq<Value>, private: bool): Chan {
    Chan.Chan(Some(receiver), data, 0, 0, false, None, private, One(private), false)
  }

  function Main(): Tcb { Tcb(RUNNING, RECEIVING, None, 0, 0, None, false, Idle) }

  function Child(): Tcb { Tcb(RUNNING, RECEIVING, Some(0), 0, 3, None, false, Idle) }

  function Grouped(): Chan { Plain0(0, [0, 0], false).(cgroup := Some(0)) }

  function Chans(): seq<Chan> { [Plain0(0, [], true), Plain0(0, [], false), Grouped(), Plain0(0, [], true)] }

  function Begun(): State {
    State([Main(), Child()], Chans(), [Group([2], 0, false)], [[0, 1], [], [], [], [], []], 0, 0, 0, 0, 0)
  }

  function Before1(): State {
    State([Main()], Chans()[..2], [], [[0], [], [], []], 0, 0, 0, 0, 0)
  }

  function Before2(): State { Before1().(groups := [Group([], 0, false)]) }

  function Before3(): State {
    Before2().(chans := Chans()[..2] + [Plain0(0, [0, 0], false)], rings := [[0], [], [], [], []])
  }

  function Before4(): State { Before3().(chans := Chans()[..3], groups := [Group([2], 0, false)]) }

  /** The call leads from s to s' without any event. */
  ghost predicate Silently(s: State, call: Call, s': State) {
    Enabled(s, call) && Exec(s, call) == s' && Body(s, call).ev == []
  }

  lemma Begin1()
    requires Refs(Start())
    ensures Silently(Start(), MakeChan(0), Before1())
  {
    assert seq(0, _ => 0) == [];
  }

  lemma Begin2()
    requires Refs(Before1())
    ensures Silently(Before1(), NewGroup, Before2())
  {
  }

  lemma Begin3()
    requires Refs(Before2())
    ensures Silently(Before2(), MakeChan(2), Before3())
  {
    assert seq(2, _ => 0) == [0, 0];
  }

  lemma Begin4()
    requires Refs(Before3())
    ensures Silently(Before3(), GroupAdd(0, 2), Before4())
  {
  }

  lemma Absent(rings: seq<seq<Tid>>, t: Tid, r: nat)
    requires r < |rings| && forall i :: 0 <= i < |rings| ==> t !in rings[i]
    ensures MoveToEnd(rings, t, r) == rings[r := rings[r] + [t]]
    ensures MoveBeforeLast(rings, t, r) == rings[r := BeforeLast(rings[r], t)]
  {
    assert Unlink(rings, t) == rings;
  }

  lemma Begin5()
    requires Refs(Before4())
    ensures Silently(Before4(), Create(false), Begun())
  {
    hide Refs;
    assert seq(0, _ => 0) == [];
    Absent(Before4().rings + [[]], 1, RUN);
    assert [0] + [1] == [0, 1];
    assert Begun().rings == (Before4().rings + [[]])[RUN := [0, 1]];
  }

  lemma Begin() returns (worlds: seq<World>, calls: seq<Call>)
    ensures Run(worlds, calls) && worlds[|calls|].s == Begun() && worlds[|calls|].log == [] && Inv(Begun())
    ensures forall i :: 0 <= i < |calls| ==> !calls[i].Wait?
  {
    hide Enabled, Exec, Body, Inv, Silently, Start, Begun, Before1, Before2, Before3, Before4, Refs;
    worlds, calls := [World(Start(), [], 0)], [];
    StartRefs();
    Begin1();
    worlds, calls := GoOnSilently(worlds, calls, MakeChan(0), Before1());
    Begin2();
    worlds, calls := GoOnSilently(worlds, calls, NewGroup, Before2());
    Begin3();
    worlds, calls := GoOnSilently(worlds, calls, MakeChan(2), Before3());
    Begin4();
    worlds, calls := GoOnSilently(worlds, calls, GroupAdd(0, 2), Before4());
    Begin5();
    worlds, calls := GoOnSilently(worlds, calls, Create(false), Begun());
  }

  lemma GoOnSilently(worlds: seq<World>, calls: seq<Call>, call: Call, s': State)
    returns (worlds': seq<World>, calls': seq<Call>)
    requires Run(worlds, calls) && Silently(worlds[|calls|].s, call, s')
    ensures Run(worlds', calls') && calls' == calls + [call]
    ensures worlds'[|calls'|].s == s' && worlds'[|calls'|].log == worlds[|calls|].log
    ensures Inv(s') && Refs(s')
  {
    hide Enabled, Exec, Body, Refs;
    worlds', calls' := GoOn(worlds, calls, call, s');
  }

  // ----- main waits for its group -----

  function Waiting0(): State {
    Begun().(threads := [Main().(state := BLOCKED, cont := GroupWait(0)), Child()], groups := [Group([2], 0, true)],
             rings := [[1], [], [], [], [], []], current := 1, blockCounter := 1, nrcving := 1)
  }

  lemma Waits0()
    requires Refs(Begun())
    ensures Silently(Begun(), Wait(0), Waiting0())
  {
    hide Refs;
    assert Unlink(Begun().rings, 0) == Waiting0().rings;
  }

  // ----- lwt_cgrp_add while the owner sleeps -----

  function Made4(): State {
    Waiting0().(chans := Chans() + [Plain0(1, [0], false)], rings := [[1], [], [], [], [], [], []])
  }

  function Sent4(): State {
    Made4().(chans := Chans() + [Plain0(1, [7], false).(tail := 1, ready := true)])
  }

  function Added4(): State {
    Sent4().(chans := Chans() + [Plain0(1, [7], false).(tail := 1, ready := true, cgroup := Some(0))],
             groups := [Group([4, 2], 0, true)])
  }

  lemma Make4()
    requires Refs(Waiting0())
    ensures Silently(Waiting0(), MakeChan(1), Made4())
  {
    hide Refs;
    assert seq(1, _ => 0) == [0];
  }

  lemma Send4()
    requires Refs(Made4())
    ensures Enabled(Made4(), Snd(4, 7)) && Exec(Made4(), Snd(4, 7)) == Sent4()
  {
    hide Refs;
    assert [0][0 := 7] == [7];
    assert Exec(Made4(), Snd(4, 7)).chans == Sent4().chans;
  }

  lemma Add4()
    requires Refs(Sent4())
    ensures Silently(Sent4(), GroupAdd(0, 4), Added4())
    ensures !NoneMissed(Added4())
  {
    hide Refs;
    assert BeforeLast([2], 4) == [4, 2];
    assert Exec(Sent4(), GroupAdd(0, 4)).chans == Added4().chans;
    assert Exec(Sent4(), GroupAdd(0, 4)).groups == Added4().groups;
    assert Asleep(Added4(), 0) && Added4().chans[4].ready;
  }

  /** A channel with a message enters the group of a sleeping owner: nothing wakes
      the owner, although its group has a ready member. */
  lemma LostWakeup() returns (worlds: seq<World>, calls: seq<Call>)
    ensures Run(worlds, calls) && !NoneMissed(worlds[|calls|].s)
  {
    hide Enabled, Exec, Body, Inv, Silently, Begun, Waiting0, Made4, Sent4, Added4, Refs, NoneMissed;
    worlds, calls := Begin();
    InvRefs(Begun());
    Waits0();
    worlds, calls := GoOnSilently(worlds, calls, Wait(0), Waiting0());
    Make4();
    worlds, calls := GoOnSilently(worlds, calls, MakeChan(1), Made4());
    Send4();
    worlds, calls := GoOn(worlds, calls, Snd(4, 7), Sent4());
    InvRefs(Sent4());
    Add4();
    worlds, calls := GoOnSilently(worlds, calls, GroupAdd(0, 4), Added4());
  }

  lemma InvRefs(s: State)
    requires Inv(s)
    ensures Refs(s)
  {
  }

  // ----- two sends to a sleeping owner's group -----

  function SentOnce(): State {
    Waiting0().(threads := [Main().(state := RUNNABLE, cont := GroupWait(0)), Child()],
                chans := Chans()[2 := Grouped().(data := [5, 0], tail := 1, ready := true)],
                rings := [[0, 1], [], [], [], [], []], blockCounter := 0, nrcving := 0)
  }

  function SentTwice(): State {
    SentOnce().(chans := Chans()[2 := Grouped().(data := [5, 6], tail := 2, ready := true)],
                blockCounter := -1, nrcving := -1)
  }

  lemma SendOnce()
    requires Refs(Waiting0())
    ensures Enabled(Waiting0(), Snd(2, 5)) && Exec(Waiting0(), Snd(2, 5)) == SentOnce()
  {
    hide Refs;
    Absent(Waiting0().rings, 0, RUN);
    assert BeforeLast([1], 0) == [0, 1];
    assert [0, 0][0 := 5] == [5, 0];
    var s' := Exec(Waiting0(), Snd(2, 5));
    assert s'.chans == SentOnce().chans && s'.threads == SentOnce().threads && s'.rings == SentOnce().rings;
  }

  lemma SendTwice()
    requires Refs(SentOnce())
    ensures Enabled(SentOnce(), Snd(2, 6)) && Exec(SentOnce(), Snd(2, 6)) == SentTwice()
    ensures Count(SentTwice().threads, IsReceiving) == 0
  {
    hide Refs;
    assert Unlink(SentOnce().rings, 0) == Waiting0().rings;
    assert BeforeLast([1], 0) == [0, 1];
    assert [5, 0][1 := 6] == [5, 6];
    var s' := Exec(SentOnce(), Snd(2, 6));
    assert s'.chans == SentTwice().chans && s'.threads == SentTwice().threads && s'.rings == SentTwice().rings;
    assert SentTwice().threads[1..] == [Child()] && SentTwice().threads[1..][1..] == [];
  }

  /** A second send before the owner has run counts it out once more: no thread is
      blocked, and the kernel thread counts -1 receivers. */
  lemma CountedTwice() returns (worlds: seq<World>, calls: seq<Call>)
    ensures Run(worlds, calls)
    ensures
      var s := worlds[|calls|].s;
      s.nrcving == s.blockCounter == -1 && Count(s.threads, IsReceiving) == 0
  {
    hide Enabled, Exec, Body, Inv, Silently, Begun, Waiting0, SentOnce, Refs;
    worlds, calls := Begin();
    InvRefs(Begun());
    Waits0();
    worlds, calls := GoOnSilently(worlds, calls, Wait(0), Waiting0());
    SendOnce();
    worlds, calls := GoOn(worlds, calls, Snd(2, 5), SentOnce());
    InvRefs(SentOnce());
    SendTwice();
    worlds, calls := GoOn(worlds, calls, Snd(2, 6), SentTwice());
  }

  // ----- a message for a thread that has gone on to wait for its group -----

  function Rcving(): State {
    Begun().(threads := [Main().(state := BLOCKED, cont := RcvReturn(1), nowRcving := Some(1)), Child()],
             rings := [[1], [], [], [], [], []], current := 1, blockCounter := 1, nrcving := 1)
  }

  function Given(): State {
    Begun().(threads := [Main().(state := RUNNABLE, cont := RcvReturn(1), nowRcving := Some(1), message := 5), Child()],
             current := 1)
  }

  function Dispatched(): State {
    Begun().(threads := [Main().(cont := RcvReturn(1), nowRcving := Some(1), message := 5), Child()])
  }

  function Got(): State { Begun().(threads := [Main().(nowRcving := Some(1), message := 5), Child()]) }

  function WaitsStale(): State {
    Waiting0().(threads := [Main().(state := BLOCKED, cont := GroupWait(0), nowRcving := Some(1), message := 5),
                            Child()])
  }

  function Strayed(): State {
    Begun().(threads := [Main().(state := RUNNABLE, cont := GroupWait(0), nowRcving := Some(1), message := 6), Child()],
             groups := [Group([2], 0, true)], current := 1)
  }

  lemma Receive1()
    requires Refs(Begun())
    ensures Silently(Begun(), Rcv(1), Rcving())
  {
    hide Refs;
    assert Unlink(Begun().rings, 0) == Rcving().rings;
    assert Exec(Begun(), Rcv(1)).threads == Rcving().threads;
  }

  lemma Send1()
    requires Refs(Rcving())
    ensures Enabled(Rcving(), Snd(1, 5)) && Exec(Rcving(), Snd(1, 5)) == Given()
  {
    hide Refs;
    Absent(Rcving().rings, 0, RUN);
    assert BeforeLast([1], 0) == [0, 1];
    var s' := Exec(Rcving(), Snd(1, 5));
    assert s'.threads == Given().threads && s'.rings == Given().rings;
  }

  lemma Yield1()
    requires Refs(Given())
    ensures Silently(Given(), Yield(None), Dispatched())
  {
    hide Refs;
    assert [0, 1][1..] == [1] && Without([0, 1], 1) == [0];
    var u := Unlink(Given().rings, 1);
    assert u == [[0], [], [], [], [], []];
    assert [0] + [1] == [0, 1];
    var s' := Exec(Given(), Yield(None));
    assert s'.rings == Dispatched().rings && s'.threads == Dispatched().threads;
  }

  lemma Return1()
    requires Refs(Dispatched())
    ensures Enabled(Dispatched(), Continue) && Exec(Dispatched(), Continue) == Got()
  {
    hide Refs;
    assert Exec(Dispatched(), Continue).threads == Got().threads;
  }

  lemma WaitStale()
    requires Refs(Got())
    ensures Silently(Got(), Wait(0), WaitsStale())
  {
    hide Refs;
    assert Unlink(Got().rings, 0) == WaitsStale().rings;
    assert Exec(Got(), Wait(0)).threads == WaitsStale().threads;
  }

  lemma SendStale()
    requires Refs(WaitsStale())
    ensures Enabled(WaitsStale(), Snd(1, 6)) && Exec(WaitsStale(), Snd(1, 6)) == Strayed()
    ensures Body(WaitsStale(), Snd(1, 6)).ev == [Accepted(1, 6), Stray(1)]
  {
    hide Refs;
    Absent(WaitsStale().rings, 0, RUN);
    assert BeforeLast([1], 0) == [0, 1];
    var s' := Exec(WaitsStale(), Snd(1, 6));
    assert s'.threads == Strayed().threads && s'.rings == Strayed().rings;
  }

  lemma Stale() returns (worlds: seq<World>, calls: seq<Call>)
    ensures Run(worlds, calls) && worlds[|calls|].s == WaitsStale() && Refs(WaitsStale())
  {
    hide Enabled, Exec, Body, Inv, Silently, Begun, Rcving, Given, Dispatched, Got, WaitsStale, Refs;
    worlds, calls := Begin();
    InvRefs(Begun());
    Receive1();
    worlds, calls := GoOnSilently(worlds, calls, Rcv(1), Rcving());
    Send1();
    worlds, calls := GoOn(worlds, calls, Snd(1, 5), Given());
    InvRefs(Given());
    Yield1();
    worlds, calls := GoOnSilently(worlds, calls, Yield(None), Dispatched());
    Return1();
    worlds, calls := GoOn(worlds, calls, Continue, Got());
    InvRefs(Got());
    WaitStale();
    worlds, calls := GoOnSilently(worlds, calls, Wait(0), WaitsStale());
  }

  /** lwt_cgrp_wait leaves now_rcving as it was: a message sent on a channel that
      belongs to no group is handed to its receiver, which is in lwt_cgrp_wait and
      will never return it. */
  lemma LostMessage() returns (worlds: seq<World>, calls: seq<Call>)
    ensures Run(worlds, calls) && Refs(worlds[|calls|].s)
    ensures
      var (s, log) := (worlds[|calls|].s, worlds[|calls|].log);
      && 1 < |s.chans| && s.chans[1].cgroup == None
      && SentIn(log, 1) != ReturnedIn(log, 1) + InFlight(s, 1)
  {
    hide Enabled, Exec, Body, Inv, WaitsStale, Refs, InFlight, SentIn, ReturnedIn;
    worlds, calls := Stale();
    SendStale();
    var log := worlds[|calls|].log;
    worlds, calls := GoOn(worlds, calls, Snd(1, 6), Strayed());
    StraysConcat(log, [Accepted(1, 6), Stray(1)], 1);
    Pair(Accepted(1, 6), Stray(1), 1);
    FifoLog(worlds, calls, |calls|, 1);
  }
}
