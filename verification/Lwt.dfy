/** One kernel thread of the light-weight thread library with its local channels
    and channel groups (lwt.c, lwt_chl.c), as a machine on values: a state, and
    what each API call does to it up to the point where it returns or switches. */
module Lwt {
  import opened Options
  import opened Queues

  type Tid = nat   // a struct _lwt_t
  type Cid = nat   // a struct _lwt_channel
  type Gid = nat   // a struct _lwt_cgrp
  type Value = int

  datatype Status = RUNNABLE | BLOCKED | ZOMBIES | RUNNING

  datatype BlockFor = RECEIVING | SENDING

  /** What a thread has left to do when it is dispatched again: nothing, or the
      rest of the call in which it blocked. */
  datatype Cont =
    | Idle
    | SndReturn(c: Cid)
    | RcvReturn(c: Cid)
    | JoinReturn(child: Tid, c: Cid)
    | DieSnd(c: Cid)
    | GroupWait(g: Gid)

  datatype Tcb = Tcb(state: Status, blockFor: BlockFor, parent: Option<Tid>, message: Value,
                     chl: Cid, nowRcving: Option<Cid>, nojoin: bool, cont: Cont)

  /** private marks the channel a thread is created with, which the API keeps to
      lwt_die and lwt_join; freed one whose memory has been given back. */
  datatype Chan = Chan(receiver: Option<Tid>, data: seq<Value>, head: nat, tail: nat,
                       ready: bool, cgroup: Option<Gid>, private: bool, sndCnt: int, freed: bool)
  {
    function Size(): nat { |data| }
  }

  datatype Group = Group(members: seq<Cid>, owner: Tid, blocked: bool)

  /** rings: the run queue, the recycle queue, then the sender queue of each channel. */
  datatype State = State(threads: seq<Tcb>, chans: seq<Chan>, groups: seq<Group>, rings: seq<seq<Tid>>, current: Tid,
                         blockCounter: int, zombieCounter: int, nrcving: int, nsnding: int)
  {
    function Cur(): Tcb
      requires current < |threads|
    {
      threads[current]
    }
  }

  const RUN: nat := 0
  const RECYCLE: nat := 1

  function Senders(c: Cid): nat { c + 2 }

  datatype Event =
    | Accepted(c: Cid, v: Value)          // lwt_snd or lwt_die took v for c
    | Returned(c: Cid, v: Value)          // lwt_rcv or lwt_join returned v from c
    | Stray(c: Cid)                       // the message went to a thread that waits for a group
    | Rewoken(t: Tid)                     // a thread that was not blocked was resumed
    | Died(t: Tid, c: Cid, v: Value)      // t called lwt_die(v), its channel is c
    | Exited(t: Tid, c: Cid)              // t entered the recycle queue
    | Joined(child: Tid, c: Cid, v: Value)
    | Ready(g: Gid, c: Cid)               // lwt_cgrp_wait(g) returned c
    | Failed                              // an error code or NULL was returned

  /** The state when a call returns (or is about to schedule), and what happened. */
  datatype Outcome = Outcome(s: State, ev: seq<Event>, schedules: bool)

  // ----- well-formed references -----

  ghost predicate ContOk(s: State, k: Cont) {
    match k
    case Idle => true
    case SndReturn(c) => c < |s.chans|
    case RcvReturn(c) => c < |s.chans|
    case JoinReturn(child, c) => child < |s.threads| && c < |s.chans|
    case DieSnd(c) => c < |s.chans|
    case GroupWait(g) => g < |s.groups|
  }

  ghost predicate TcbRefs(s: State, x: Tcb) {
    && x.chl < |s.chans| && ContOk(s, x.cont)
    && (x.parent.Some? ==> x.parent.value < |s.threads|)
  }

  ghost predicate ChanRefs(s: State, ch: Chan) {
    && ch.head <= ch.tail <= ch.head + ch.Size()
    && (ch.receiver.Some? ==> ch.receiver.value < |s.threads|)
    && (ch.cgroup.Some? ==> ch.cgroup.value < |s.groups|)
  }

  ghost predicate Refs(s: State) {
    && |s.rings| == |s.chans| + 2 && s.current < |s.threads|
    && (forall t :: 0 <= t < |s.threads| ==> TcbRefs(s, s.threads[t]))
    && (forall c :: 0 <= c < |s.chans| ==> ChanRefs(s, s.chans[c]))
    && (forall g :: 0 <= g < |s.groups| ==> s.groups[g].owner < |s.threads|)
    && (forall g, c :: 0 <= g < |s.groups| && c in s.groups[g].members ==> c < |s.chans|)
    && (forall r, t: Tid {:trigger t in s.rings[r]} :: 0 <= r < |s.rings| && t in s.rings[r] ==> t < |s.threads|)
  }

  // ----- queues and thread states -----

  function One(b: bool): int { if b then 1 else 0 }

  /** __resume_thread */
  function Resume(s: State, t: Tid): State
    requires t < |s.threads| && RUN < |s.rings|
  {
    var x := s.threads[t];
    s.(nrcving := s.nrcving - One(x.blockFor == RECEIVING),
       nsnding := s.nsnding - One(x.blockFor == SENDING),
       blockCounter := s.blockCounter - 1,
       rings := MoveBeforeLast(s.rings, t, RUN),
       threads := s.threads[t := x.(state := RUNNABLE)])
  }

  /** __block_thread on the current thread, up to its lwt_yield(NULL). */
  function Block(s: State, why: BlockFor, c: Cid, rest: Cont): State
    requires s.current < |s.threads| && (why == SENDING ==> Senders(c) < |s.rings|)
  {
    var t := s.current;
    s.(nrcving := s.nrcving + One(why == RECEIVING),
       nsnding := s.nsnding + One(why == SENDING),
       blockCounter := s.blockCounter + 1,
       rings := if why == RECEIVING then Unlink(s.rings, t) else MoveToEnd(s.rings, t, Senders(c)),
       threads := s.threads[t := s.Cur().(state := BLOCKED, blockFor := why, cont := rest)])
  }

  predicate CanSchedule(s: State) {
    |s.rings| > 0 && s.rings[RUN] != [] && s.rings[RUN][0] < |s.threads|
  }

  /** __lwt_schedule: the first of the run queue runs. */
  function Schedule(s: State): State
    requires CanSchedule(s)
  {
    var t := s.rings[RUN][0];
    s.(current := t, threads := s.threads[t := s.threads[t].(state := RUNNING)])
  }

  predicate Queued(x: Tcb) { x.state == RUNNABLE || x.state == RUNNING }

  /** lwt_yield, up to __lwt_schedule */
  function YieldBody(s: State, to: Option<Tid>): Outcome
    requires s.current < |s.threads| && RUN < |s.rings| && (to.Some? ==> to.value < |s.threads|)
  {
    if to == Some(s.current) || (to.Some? && !Queued(s.threads[to.value])) then Outcome(s, [], false)
    else if to.Some? then Outcome(s.(rings := MoveBeforeLast(s.rings, to.value, RUN)), [], true)
    else if Queued(s.Cur()) then Outcome(s.(rings := MoveToEnd(s.rings, s.current, RUN)), [], true)
    else Outcome(s, [], true)
  }

  // ----- channels -----

  /** lwt_chan, __init_chan: the caller is the receiver.  __init_thread counts the
      created thread as a sender of its own channel. */
  function NewChan(s: State, size: nat, private: bool): State {
    s.(chans := s.chans + [Chan(Some(s.current), seq(size, _ => 0), 0, 0, false, None, private, One(private), false)],
       rings := s.rings + [[]])
  }

  /** The buffer slot of the ever-growing index k. */
  function Slot(k: nat, size: nat): (i: nat)
    requires size > 0
    ensures i < size
  {
    k % size
  }

  function Put(ch: Chan, v: Value): Chan
    requires ch.Size() > 0
  {
    ch.(data := ch.data[Slot(ch.tail, ch.Size()) := v], tail := ch.tail + 1)
  }

  function First(ch: Chan): Value
    requires ch.Size() > 0
  {
    ch.data[Slot(ch.head, ch.Size())]
  }

  /** The test of lwt_chl.c:127. */
  predicate WaitsFor(x: Tcb, c: Cid) {
    x.state == BLOCKED && x.blockFor == RECEIVING && x.nowRcving == Some(c)
  }

  function WithMessage(s: State, t: Tid, v: Value): State
    requires t < |s.threads|
  {
    s.(threads := s.threads[t := s.threads[t].(message := v)])
  }

  function WithChan(s: State, c: Cid, ch: Chan): State
    requires c < |s.chans|
  {
    s.(chans := s.chans[c := ch])
  }

  /** lwt_chl.c:138-142: the channel has an event, a blocked group owner wakes up. */
  function Signal(s: State, c: Cid): Outcome
    requires Refs(s) && c < |s.chans|
  {
    var s1 := WithChan(s, c, s.chans[c].(ready := true));
    var g := s.chans[c].cgroup;
    if g.Some? && s.groups[g.value].blocked then
      var owner := s.groups[g.value].owner;
      Outcome(Resume(s1, owner), if s.threads[owner].state == BLOCKED then [] else [Rewoken(owner)], false)
    else Outcome(s1, [], false)
  }

  /** lwt_snd on a local channel, up to the switch if it blocks. */
  function SndBody(s: State, c: Cid, v: Value, rest: Cont): Outcome
    requires Refs(s) && c < |s.chans|
  {
    var ch := s.chans[c];
    if ch.receiver == None then Outcome(s, [Failed], false)
    else
      var r := ch.receiver.value;
      if WaitsFor(s.threads[r], c) then
        var stray := if s.threads[r].cont.GroupWait? then [Stray(c)] else [];
        Outcome(Resume(WithMessage(s, r, v), r), [Accepted(c, v)] + stray, false)
      else
        var o := Signal(s, c);
        var ev := o.ev + [Accepted(c, v)];
        if ch.tail - ch.head != ch.Size() then
          Outcome(WithChan(o.s, c, Put(o.s.chans[c], v)), ev, false)
        else
          Outcome(Block(WithMessage(o.s, s.current, v), SENDING, c, rest), ev, true)
  }

  /** lwt_rcv on a local channel, up to the switch if it blocks. */
  function RcvBody(s: State, c: Cid, rest: Cont): Outcome
    requires Refs(s) && c < |s.chans|
  {
    var ch, queue := s.chans[c], s.rings[Senders(c)];
    assert queue != [] ==> queue[0] in s.rings[Senders(c)];
    if ch.tail - ch.head != 0 then
      var taken := ch.(head := ch.head + 1);
      var ev := [Returned(c, First(ch))];
      if queue != [] then
        var full := Put(taken, s.threads[queue[0]].message);
        Outcome(WithChan(Resume(s, queue[0]), c, full.(ready := full.head != full.tail)), ev, false)
      else
        Outcome(WithChan(s, c, taken.(ready := taken.head != taken.tail)), ev, false)
    else if queue != [] then
      var s1 := Resume(s, queue[0]);
      Outcome(WithChan(s1, c, ch.(ready := s1.rings[Senders(c)] != [])),
              [Returned(c, s.threads[queue[0]].message)], false)
    else
      var s1 := s.(threads := s.threads[s.current := s.Cur().(nowRcving := Some(c))]);
      Outcome(Block(s1, RECEIVING, c, rest), [], true)
  }

  /** lwt_chan_deref: the receiver or a sender lets go; the last one frees the channel. */
  function DerefBody(s: State, c: Cid): Outcome
    requires c < |s.chans|
  {
    var ch := s.chans[c];
    var left := if ch.receiver == Some(s.current) then ch.(receiver := None) else ch.(sndCnt := ch.sndCnt - 1);
    Outcome(WithChan(s, c, left.(freed := left.sndCnt == 0 && left.receiver == None)), [], false)
  }

  /** What lwt_create_chan does after its lwt_create: one more sender is counted. */
  function ShareBody(s: State, c: Cid): Outcome
    requires c < |s.chans|
  {
    Outcome(WithChan(s, c, s.chans[c].(sndCnt := s.chans[c].sndCnt + 1)), [], false)
  }

  // ----- threads -----

  /** lwt_create, __init_thread.  A recycled structure keeps the fields that are not
      initialised; those of a fresh one start at zero. */
  function CreateBody(s: State, nojoin: bool): Outcome
    requires Refs(s)
  {
    var recycled := s.rings[RECYCLE] != [];
    assert recycled ==> s.rings[RECYCLE][0] in s.rings[RECYCLE];
    var t: Tid := if recycled then s.rings[RECYCLE][0] else |s.threads|;
    var was := if recycled then s.threads[t] else Tcb(RUNNING, RECEIVING, None, 0, 0, None, false, Idle);
    var x := was.(state := RUNNING, parent := Some(s.current), message := 0,
                  chl := |s.chans|, nojoin := nojoin, cont := Idle);
    var s1 := NewChan(s, 0, true);
    Outcome(s1.(threads := if recycled then s.threads[t := x] else s.threads + [x],
                rings := MoveToEnd(s1.rings, t, RUN)), [], false)
  }

  /** The end of lwt_die, after its lwt_snd. */
  function ExitBody(s: State): Outcome
    requires s.current < |s.threads| && RECYCLE < |s.rings|
  {
    Outcome(s.(zombieCounter := s.zombieCounter - 1,
               threads := s.threads[s.current := s.Cur().(state := ZOMBIES, cont := Idle)],
               rings := MoveToEnd(s.rings, s.current, RECYCLE)),
            [Exited(s.current, s.Cur().chl)], true)
  }

  /** lwt_die up to its first switch. */
  function DieBody(s: State, v: Value): Outcome
    requires Refs(s)
  {
    var c := s.Cur().chl;
    var s1 := WithMessage(s.(zombieCounter := s.zombieCounter + 1), s.current, v);
    MessageRefs(s, s1);
    var o := SndBody(s1, c, v, DieSnd(c));
    var ev := [Died(s.current, c, v)] + o.ev;
    if o.schedules then Outcome(o.s, ev, true)
    else
      var e := ExitBody(o.s);
      Outcome(e.s, ev + e.ev, true)
  }

  lemma MessageRefs(s: State, s': State)
    requires Refs(s) && exists v, z :: s' == WithMessage(s.(zombieCounter := z), s.current, v)
    ensures Refs(s')
  {
    assert forall t :: 0 <= t < |s.threads| ==> TcbRefs(s, s.threads[t]);
  }

  /** lwt_join: NULL unless the caller may join; otherwise lwt_rcv, then, when
      that has a value, lwt_yield to the child. */
  function JoinBody(s: State, child: Tid): Outcome
    requires Refs(s) && child < |s.threads|
  {
    var x := s.threads[child];
    if x.parent != Some(s.current) || x.nojoin then Outcome(s, [Failed], false)
    else
      var o := RcvBody(s, x.chl, JoinReturn(child, x.chl));
      if o.schedules then o
      else
        var y := YieldBody(o.s, Some(child));
        Outcome(y.s, o.ev + [Joined(child, x.chl, o.ev[0].v)], y.schedules)
  }

  // ----- channel groups -----

  function NewGroupBody(s: State): Outcome {
    Outcome(s.(groups := s.groups + [Group([], s.current, false)]), [], false)
  }

  function WithGroup(s: State, g: Gid, grp: Group): State
    requires g < |s.groups|
  {
    s.(groups := s.groups[g := grp])
  }

  /** lwt_cgrp_add */
  function GroupAddBody(s: State, g: Gid, c: Cid): Outcome
    requires g < |s.groups| && c < |s.chans|
  {
    if s.chans[c].cgroup.Some? then Outcome(s, [Failed], false)
    else
      var grp := s.groups[g];
      Outcome(WithChan(WithGroup(s, g, grp.(members := BeforeLast(grp.members, c))), c, s.chans[c].(cgroup := Some(g))),
              [], false)
  }

  /** lwt_cgrp_rem */
  function GroupRemBody(s: State, g: Gid, c: Cid): Outcome
    requires g < |s.groups| && c < |s.chans|
  {
    if s.chans[c].ready || s.chans[c].cgroup != Some(g) then Outcome(s, [Failed], false)
    else
      var grp := s.groups[g];
      Outcome(WithChan(WithGroup(s, g, grp.(members := Without(grp.members, c))), c, s.chans[c].(cgroup := None)),
              [], false)
  }

  /** The first channel of the list with an event. */
  function FirstReady(chans: seq<Chan>, members: seq<Cid>): (r: Option<Cid>)
    requires forall c :: c in members ==> c < |chans|
    ensures r.Some? ==> r.value in members && chans[r.value].ready
    ensures r == None ==> forall c :: c in members ==> !chans[c].ready
  {
    if members == [] then None
    else
      assert members[0] in members && forall c :: c in members[1..] ==> c in members;
      if chans[members[0]].ready then Some(members[0])
      else FirstReady(chans, members[1..])
  }

  /** The loop of lwt_cgrp_wait, up to its return or its switch. */
  function WaitBody(s: State, g: Gid): Outcome
    requires Refs(s) && g < |s.groups|
  {
    var grp := s.groups[g];
    var c := FirstReady(s.chans, grp.members);
    if c.Some? then
      var s1 := WithGroup(s, g, grp.(blocked := false));
      Outcome(s1.(threads := s.threads[s.current := s.Cur().(cont := Idle)]), [Ready(g, c.value)], false)
    else
      var s1 := WithGroup(s, g, grp.(blocked := true));
      Outcome(Block(s1, RECEIVING, 0, GroupWait(g)), [], true)
  }

  // ----- calls -----

  datatype Call =
    | Yield(to: Option<Tid>)
    | Create(nojoin: bool)
    | MakeChan(size: nat)
    | Snd(c: Cid, v: Value)
    | Rcv(c: Cid)
    | Deref(c: Cid)
    | Share(c: Cid)
    | Die(v: Value)
    | Join(child: Tid)
    | NewGroup
    | GroupAdd(g: Gid, c: Cid)
    | GroupRem(g: Gid, c: Cid)
    | Wait(g: Gid)
    | Continue

  /** The rest of the call in which the current thread had blocked. */
  function ContinueBody(s: State): Outcome
    requires Refs(s)
  {
    var x := s.Cur();
    var idle := s.(threads := s.threads[s.current := x.(cont := Idle)]);
    match x.cont
    case Idle => Outcome(s, [], false)
    case SndReturn(c) => Outcome(idle, [], false)
    case RcvReturn(c) => Outcome(idle, [Returned(c, x.message)], false)
    case JoinReturn(child, c) =>
      var y := YieldBody(idle, Some(child));
      Outcome(y.s, [Returned(c, x.message), Joined(child, c, x.message)], y.schedules)
    case DieSnd(c) => ExitBody(s)
    case GroupWait(g) => WaitBody(s, g)
  }

  ghost predicate CallRefs(s: State, call: Call) {
    match call
    case Yield(to) => to.Some? ==> to.value < |s.threads|
    case Snd(c, v) => c < |s.chans|
    case Rcv(c) => c < |s.chans|
    case Deref(c) => c < |s.chans|
    case Share(c) => c < |s.chans|
    case Join(child) => child < |s.threads|
    case GroupAdd(g, c) => g < |s.groups| && c < |s.chans|
    case GroupRem(g, c) => g < |s.groups| && c < |s.chans|
    case Wait(g) => g < |s.groups|
    case _ => true
  }

  /** The current thread's call, up to the point where it returns or schedules. */
  function Body(s: State, call: Call): Outcome
    requires Refs(s) && CallRefs(s, call)
  {
    match call
    case Yield(to) => YieldBody(s, to)
    case Create(nojoin) => CreateBody(s, nojoin)
    case MakeChan(size) => Outcome(NewChan(s, size, false), [], false)
    case Snd(c, v) => SndBody(s, c, v, SndReturn(c))
    case Rcv(c) => RcvBody(s, c, RcvReturn(c))
    case Deref(c) => DerefBody(s, c)
    case Share(c) => ShareBody(s, c)
    case Die(v) => DieBody(s, v)
    case Join(child) => JoinBody(s, child)
    case NewGroup => NewGroupBody(s)
    case GroupAdd(g, c) => GroupAddBody(s, g, c)
    case GroupRem(g, c) => GroupRemBody(s, g, c)
    case Wait(g) => if s.groups[g].members == [] then Outcome(s, [Failed], false) else WaitBody(s, g)
    case Continue => ContinueBody(s)
  }

  /** How the library may be used.  A dispatched thread first finishes the call it
      blocked in; thread-private channels are left to lwt_die and lwt_join; a
      freed one is given up; only the receiver receives from a channel, and only the
      owner waits for a group. */
  ghost predicate Permitted(s: State, call: Call)
    requires Refs(s) && CallRefs(s, call)
  {
    && (s.Cur().cont == Idle <==> call != Continue)
    && match call
       case Snd(c, v) => !s.chans[c].private
       case Rcv(c) => !s.chans[c].private && s.chans[c].receiver == Some(s.current)
       case Deref(c) => !s.chans[c].private && !s.chans[c].freed
       case Share(c) => !s.chans[c].private && !s.chans[c].freed
       case GroupAdd(g, c) => !s.chans[c].private
       case Wait(g) => s.groups[g].owner == s.current
       case _ => true
  }

  /** Permitted, and some thread is left to run whenever the call must switch. */
  ghost predicate Enabled(s: State, call: Call) {
    && Refs(s) && CallRefs(s, call) && Permitted(s, call)
    && var o := Body(s, call);
       (o.schedules ==> CanSchedule(o.s))
  }

  ghost function Exec(s: State, call: Call): State
    requires Enabled(s, call)
  {
    var o := Body(s, call);
    if o.schedules then Schedule(o.s) else o.s
  }

  /** __initiate: the main thread, receiver of its own channel. */
  function Start(): State {
    State([Tcb(RUNNING, RECEIVING, None, 0, 0, None, false, Idle)],
          [Chan.Chan(Some(0), [], 0, 0, false, None, true, 1, false)], [], [[0], [], []], 0, 0, 0, 0, 0)
  }

  /** A state with everything that has happened before, and how often the current
      thread has been switched. */
  datatype World = World(s: State, log: seq<Event>, switches: nat)

  ghost function Next(w: World, call: Call): World
    requires Enabled(w.s, call)
  {
    var o := Body(w.s, call);
    World(Exec(w.s, call), w.log + o.ev, if o.schedules then w.switches + 1 else w.switches)
  }

  /** Any interleaving: whichever thread is current, makes any call. */
  ghost predicate Run(worlds: seq<World>, calls: seq<Call>) {
    && |worlds| == |calls| + 1 && worlds[0] == World(Start(), [], 0)
    && forall i {:trigger calls[i]} :: 0 <= i < |calls| ==>
         Enabled(worlds[i].s, calls[i]) && worlds[i + 1] == Next(worlds[i], calls[i])
  }
}
