/** In which order threads are dispatched. */
module LwtRoundRobin {
  import opened Options
  import opened Queues
  import opened Lwt
  import opened LwtShape
  import opened LwtCalls
  import opened LwtFifo
  import opened LwtCounters
  import opened LwtJoin

  function RunQueue(s: State): seq<Tid> { if s.rings == [] then [] else s.rings[RUN] }

  // ----- lwt_yield(NULL) -----

  /** The calls of a stretch in which threads only yield to whoever is next, create
      threads, and return from sends and receives they had blocked in. */
  ghost predicate Turns(s: State, call: Call)
    requires s.current < |s.threads|
  {
    || call == Yield(None) || call.Create? || call.MakeChan?
    || (call.Continue? && (s.Cur().cont.SndReturn? || s.Cur().cont.RcvReturn?))
  }

  /** q's tail from y on is what comes first, and its first thread runs. */
  ghost predicate Ahead(s: State, q: seq<Tid>, y: nat) {
    && y < |q|
    && |q| - y <= |RunQueue(s)| && RunQueue(s)[..|q| - y] == q[y..]
    && s.current == q[y]
  }

  lemma FirstWithout(q: seq<Tid>)
    requires q != []
    ensures Without(q, q[0]) == q[1..]
  {
  }

  lemma YieldTurns(s: State, q: seq<Tid>, y: nat)
    requires Inv(s) && Enabled(s, Yield(None)) && Ahead(s, q, y) && y + 1 < |q|
    ensures Ahead(Exec(s, Yield(None)), q, y + 1)
  {
    var run := s.rings[RUN];
    FirstWithout(run);
    var s' := Exec(s, Yield(None));
    assert s'.rings[RUN] == run[1..] + [run[0]];
    assert run[..|q| - y][0] == run[0] == s.current;
    assert run[1..][..|q| - y - 1] == run[..|q| - y][1..] == q[y..][1..] == q[y + 1..];
    assert s'.rings[RUN][..|q| - y - 1] == q[y + 1..];
    assert s'.rings[RUN][..|q| - y - 1][0] == q[y + 1];
  }

  lemma CreateTurns(s: State, nojoin: bool, q: seq<Tid>, y: nat)
    requires Inv(s) && Ahead(s, q, y)
    ensures Ahead(CreateBody(s, nojoin).s, q, y) && !CreateBody(s, nojoin).schedules
  {
    var t, s' := Created(s), CreateBody(s, nojoin).s;
    assert s.rings[RECYCLE] != [] ==> t in s.rings[RECYCLE];
    assert t !in s.rings[RUN];
    assert s'.rings[RUN] == s.rings[RUN] + [t];
  }

  lemma OtherTurns(s: State, call: Call, q: seq<Tid>, y: nat)
    requires Inv(s) && Enabled(s, call) && Turns(s, call) && Ahead(s, q, y) && call != Yield(None)
    ensures Ahead(Exec(s, call), q, y)
  {
    hide CreateBody, Placed, ThreadOk, GroupOk, OwnerOk, Contents, TcbRefs;
    if call.Create? {
      CreateTurns(s, call.nojoin, q, y);
    }
  }

  function Yields(calls: seq<Call>): nat {
    if calls == [] then 0 else Yields(calls[..|calls| - 1]) + if calls[|calls| - 1] == Yield(None) then 1 else 0
  }

  /** Round robin, with its bound: the thread at index y of the run queue runs from
      the y-th lwt_yield(NULL) to the next one, whatever is created meanwhile and for
      every queue length. */
  lemma RoundRobin(worlds: seq<World>, calls: seq<Call>, i: nat, j: nat)
    requires Run(worlds, calls) && i <= j < |worlds|
    requires RunQueue(worlds[i].s) != [] && worlds[i].s.current == RunQueue(worlds[i].s)[0]
    requires forall k {:trigger calls[k]} :: i <= k < j ==> Turns(worlds[k].s, calls[k])
    requires Yields(calls[i..j]) < |RunQueue(worlds[i].s)|
    ensures worlds[j].s.current == RunQueue(worlds[i].s)[Yields(calls[i..j])]
  {
    RunAhead(worlds, calls, i, j);
  }

  lemma {:induction false} RunAhead(worlds: seq<World>, calls: seq<Call>, i: nat, j: nat)
    requires Run(worlds, calls) && i <= j < |worlds|
    requires RunQueue(worlds[i].s) != [] && worlds[i].s.current == RunQueue(worlds[i].s)[0]
    requires forall k {:trigger calls[k]} :: i <= k < j ==> Turns(worlds[k].s, calls[k])
    requires Yields(calls[i..j]) < |RunQueue(worlds[i].s)|
    ensures worlds[j].s.current == RunQueue(worlds[i].s)[Yields(calls[i..j])]
    ensures Ahead(worlds[j].s, RunQueue(worlds[i].s), Yields(calls[i..j]))
    decreases j
  {
    hide Inv, Kin, CanSchedule, Body, Permitted, Refs, Exec, Turns, Ahead;
    var q := RunQueue(worlds[i].s);
    if i == j {
      StartsNext(worlds[i].s);
    } else {
      var s, call := worlds[j - 1].s, calls[j - 1];
      assert calls[i..j][..j - i - 1] == calls[i..j - 1];
      RunAhead(worlds, calls, i, j - 1);
      RunInv(worlds, calls, j - 1);
      var y := Yields(calls[i..j - 1]);
      if call == Yield(None) {
        YieldTurns(s, q, y);
      } else {
        OtherTurns(s, call, q, y);
      }
      NextRuns(worlds[j].s, q, Yields(calls[i..j]));
    }
  }

  lemma StartsNext(s: State)
    requires RunQueue(s) != [] && s.current == RunQueue(s)[0]
    ensures Ahead(s, RunQueue(s), 0)
  {
  }

  lemma NextRuns(s: State, q: seq<Tid>, y: nat)
    requires Ahead(s, q, y)
    ensures s.current == q[y]
  {
  }

  // ----- any calls -----

  /** p's tail from y on comes first, and somebody comes after it. */
  ghost predicate Lead(s: State, p: seq<Tid>, y: nat) {
    y <= |p| && |p| - y < |RunQueue(s)| && RunQueue(s)[..|p| - y] == p[y..]
  }

  /** The current thread is y-th of p and at the head. */
  ghost predicate Leads(s: State, p: seq<Tid>, y: nat) {
    Lead(s, p, y) && y < |p| && s.current == p[y]
  }

  lemma HeadIsCurrent(s: State, p: seq<Tid>, y: nat)
    requires Leads(s, p, y)
    ensures RunQueue(s) != [] && RunQueue(s)[0] == s.current
  {
    assert RunQueue(s)[..|p| - y][0] == p[y..][0];
  }

  /** Where the call leaves p: one further on if it switches. */
  ghost predicate Goes(s: State, o: Outcome, p: seq<Tid>, y: nat) {
    if o.schedules then Lead(o.s, p, y + 1) else Leads(o.s, p, y)
  }

  lemma BeforeLastPrefix(q: seq<Tid>, t: Tid, n: nat)
    requires n < |q|
    ensures BeforeLast(q, t)[..n] == q[..n]
  {
    assert BeforeLast(q, t) == q[..|q| - 1] + [t, q[|q| - 1]];
  }

  /** A blocked thread that is resumed goes in behind p. */
  lemma ResumeLeads(s: State, t: Tid, p: seq<Tid>, y: nat)
    requires Leads(s, p, y) && t < |s.threads| && t !in RunQueue(s)
    ensures Leads(Resume(s, t), p, y)
  {
    var run, n := RunQueue(s), |p| - y;
    assert RunQueue(Resume(s, t)) == BeforeLast(run, t);
    BeforeLastPrefix(run, t, n);
  }

  /** The current thread leaves the run queue. */
  lemma LeaveLead(s: State, s': State, p: seq<Tid>, y: nat)
    requires Leads(s, p, y) && RunQueue(s') == Without(RunQueue(s), s.current)
    ensures Lead(s', p, y + 1)
  {
    HeadIsCurrent(s, p, y);
    var run, n := RunQueue(s), |p| - y;
    FirstWithout(run);
    assert run[1..][..n - 1] == run[..n][1..] == p[y..][1..] == p[y + 1..];
  }

  lemma BlockLead(s: State, why: BlockFor, c: Cid, rest: Cont, p: seq<Tid>, y: nat)
    requires Leads(s, p, y) && s.current < |s.threads| && (why == SENDING ==> Senders(c) < |s.rings|)
    ensures Lead(Block(s, why, c, rest), p, y + 1)
  {
    LeaveLead(s, Block(s, why, c, rest), p, y);
  }

  lemma ExitLead(s: State, p: seq<Tid>, y: nat)
    requires Leads(s, p, y) && s.current < |s.threads| && RECYCLE < |s.rings|
    ensures Lead(ExitBody(s).s, p, y + 1) && ExitBody(s).schedules
  {
    LeaveLead(s, ExitBody(s).s, p, y);
  }

  /** Only rings and the current thread matter. */
  lemma SameLeads(s: State, s': State, p: seq<Tid>, y: nat)
    requires Leads(s, p, y) && RunQueue(s') == RunQueue(s) && s'.current == s.current
    ensures Leads(s', p, y)
  {
  }

  lemma BlockedElsewhere(s: State, t: Tid)
    requires Shape(s) && t < |s.threads| && s.threads[t].state == BLOCKED
    ensures t !in RunQueue(s)
  {
    assert ThreadOk(s, t);
  }

  lemma SignalLeads(s: State, c: Cid, p: seq<Tid>, y: nat)
    requires Inv(s) && c < |s.chans| && Leads(s, p, y)
    requires s.chans[c].cgroup.Some? && s.groups[s.chans[c].cgroup.value].blocked ==>
      s.threads[s.groups[s.chans[c].cgroup.value].owner].state == BLOCKED
    ensures Leads(Signal(s, c).s, p, y)
  {
    hide Placed, ThreadOk, GroupOk, OwnerOk, Contents, TcbRefs, Resume, Leads;
    var s1, g := WithChan(s, c, s.chans[c].(ready := true)), s.chans[c].cgroup;
    SameLeads(s, s1, p, y);
    if g.Some? && s.groups[g.value].blocked {
      var owner := s.groups[g.value].owner;
      BlockedElsewhere(s, owner);
      ResumeLeads(s1, owner, p, y);
    }
  }

  lemma SndGoes(s: State, c: Cid, v: Value, rest: Cont, p: seq<Tid>, y: nat)
    requires Inv(s) && c < |s.chans| && Leads(s, p, y) && !SecondWake(s, Snd(c, v))
    ensures Goes(s, SndBody(s, c, v, rest), p, y)
  {
    hide Placed, ThreadOk, GroupOk, OwnerOk, Contents, TcbRefs, Resume, Signal, Block, Put, Lead, Leads;
    SignalKin(s, c);
    if s.chans[c].receiver.Some? {
      var r := s.chans[c].receiver.value;
      if WaitsFor(s.threads[r], c) {
        BlockedElsewhere(s, r);
        SameLeads(s, WithMessage(s, r, v), p, y);
        ResumeLeads(WithMessage(s, r, v), r, p, y);
      } else {
        SignalLeads(s, c, p, y);
        var s1 := Signal(s, c).s;
        if s.chans[c].tail - s.chans[c].head != s.chans[c].Size() {
          SameLeads(s1, WithChan(s1, c, Put(s1.chans[c], v)), p, y);
        } else {
          SameLeads(s1, WithMessage(s1, s.current, v), p, y);
          BlockLead(WithMessage(s1, s.current, v), SENDING, c, rest, p, y);
        }
      }
    }
  }

  lemma RcvGoes(s: State, c: Cid, rest: Cont, p: seq<Tid>, y: nat)
    requires Inv(s) && c < |s.chans| && Leads(s, p, y)
    ensures Goes(s, RcvBody(s, c, rest), p, y)
  {
    hide ThreadOk, GroupOk, OwnerOk, Contents, TcbRefs, Resume, Block, Put, First, Lead, Leads;
    var o, queue := RcvBody(s, c, rest), s.rings[Senders(c)];
    if queue != [] {
      assert queue[0] in s.rings[Senders(c)];
      ResumeLeads(s, queue[0], p, y);
      SameLeads(Resume(s, queue[0]), o.s, p, y);
    } else if s.chans[c].tail - s.chans[c].head != 0 {
      SameLeads(s, o.s, p, y);
    } else {
      var s1 := s.(threads := s.threads[s.current := s.Cur().(nowRcving := Some(c))]);
      SameLeads(s, s1, p, y);
      BlockLead(s1, RECEIVING, c, rest, p, y);
    }
  }

  lemma DieGoes(s: State, v: Value, p: seq<Tid>, y: nat)
    requires Inv(s) && Kin(s) && s.Cur().cont == Idle && Leads(s, p, y)
    ensures Goes(s, DieBody(s, v), p, y)
  {
    hide Placed, ThreadOk, GroupOk, OwnerOk, Contents, TcbRefs, SndBody, ExitBody, Lead, Leads;
    var c := s.Cur().chl;
    DieBodyRefs(s);
    DieStarts(s, v, c);
    var s1 := WithMessage(s.(zombieCounter := s.zombieCounter + 1), s.current, v);
    SameLeads(s, s1, p, y);
    SndGoes(s1, c, v, DieSnd(c), p, y);
    SndKin(s1, c, v, DieSnd(c));
    var o := SndBody(s1, c, v, DieSnd(c));
    if !o.schedules {
      ExitLead(o.s, p, y);
      ExitSwitches(o.s);
    }
  }

  lemma ExitSwitches(s: State)
    requires s.current < |s.threads| && RECYCLE < |s.rings|
    ensures ExitBody(s).schedules
  {
  }

  lemma WaitGoes(s: State, g: Gid, p: seq<Tid>, y: nat)
    requires Inv(s) && g < |s.groups| && Leads(s, p, y)
    ensures Goes(s, WaitBody(s, g), p, y)
  {
    hide Placed, ThreadOk, GroupOk, OwnerOk, Contents, TcbRefs, Block, FirstReady, Lead, Leads;
    var o := WaitBody(s, g);
    if o.schedules {
      var s1 := WithGroup(s, g, s.groups[g].(blocked := true));
      SameLeads(s, s1, p, y);
      BlockLead(s1, RECEIVING, 0, GroupWait(g), p, y);
    } else {
      SameLeads(s, o.s, p, y);
    }
  }

  lemma YieldGoes(s: State, p: seq<Tid>, y: nat)
    requires Inv(s) && Leads(s, p, y)
    ensures Goes(s, YieldBody(s, None), p, y)
  {
    HeadIsCurrent(s, p, y);
    var run, n := RunQueue(s), |p| - y;
    FirstWithout(run);
    var run' := RunQueue(YieldBody(s, None).s);
    assert run' == run[1..] + [run[0]];
    assert run'[..n - 1] == run[..n][1..] == p[y..][1..] == p[y + 1..];
  }

  lemma CreateGoes(s: State, nojoin: bool, p: seq<Tid>, y: nat)
    requires Inv(s) && Leads(s, p, y)
    ensures Goes(s, CreateBody(s, nojoin), p, y)
  {
    var t, s', n := Created(s), CreateBody(s, nojoin).s, |p| - y;
    assert s.rings[RECYCLE] != [] ==> t in s.rings[RECYCLE];
    assert t !in s.rings[RUN];
    assert RunQueue(s') == RunQueue(s) + [t];
    assert RunQueue(s')[..n] == RunQueue(s)[..n];
  }

  /** Calls without a directed yield, and that resume nobody who is queued already. */
  ghost predicate Undirected(s: State, call: Call)
    requires Refs(s) && CallRefs(s, call)
  {
    && (call.Yield? ==> call.to == None) && !call.Join? && !(call.Continue? && s.Cur().cont.JoinReturn?)
    && !SecondWake(s, call)
  }

  lemma ContinueGoes(s: State, p: seq<Tid>, y: nat)
    requires Inv(s) && !s.Cur().cont.JoinReturn? && Leads(s, p, y)
    ensures Goes(s, ContinueBody(s), p, y)
  {
    hide Placed, ThreadOk, GroupOk, OwnerOk, Contents, TcbRefs, ExitBody, WaitBody, Lead, Leads;
    ContRefs(s, s.current);
    if s.Cur().cont.DieSnd? {
      ExitLead(s, p, y);
    } else if s.Cur().cont.GroupWait? {
      WaitGoes(s, s.Cur().cont.g, p, y);
    } else {
      SameLeads(s, ContinueBody(s).s, p, y);
    }
  }

  lemma BodyGoes(s: State, call: Call, p: seq<Tid>, y: nat)
    requires Inv(s) && Kin(s) && Enabled(s, call) && Undirected(s, call) && Leads(s, p, y)
    ensures Goes(s, Body(s, call), p, y)
  {
    hide Placed, ThreadOk, GroupOk, OwnerOk, Contents, TcbRefs, Lead, Leads;
    hide SndBody, RcvBody, DieBody, JoinBody, YieldBody, CreateBody, WaitBody, ContinueBody;
    match call {
      case Yield(to) => YieldGoes(s, p, y);
      case Create(nojoin) => CreateGoes(s, nojoin, p, y);
      case Snd(c, v) => SndGoes(s, c, v, SndReturn(c), p, y);
      case Rcv(c) => RcvGoes(s, c, RcvReturn(c), p, y);
      case Die(v) => DieGoes(s, v, p, y);
      case Wait(g) => if s.groups[g].members != [] { WaitGoes(s, g, p, y); } else { SameLeads(s, s, p, y); }
      case Continue => ContinueGoes(s, p, y);
      case MakeChan(size) => SameLeads(s, Body(s, call).s, p, y);
      case Deref(c) => SameLeads(s, Body(s, call).s, p, y);
      case Share(c) => SameLeads(s, Body(s, call).s, p, y);
      case NewGroup => SameLeads(s, Body(s, call).s, p, y);
      case GroupAdd(g, c) => SameLeads(s, Body(s, call).s, p, y);
      case GroupRem(g, c) => SameLeads(s, Body(s, call).s, p, y);
      case Join(child) => assert false;
    }
  }

  lemma ScheduleLeads(s: State, p: seq<Tid>, y: nat)
    requires CanSchedule(s) && Lead(s, p, y) && y < |p|
    ensures Leads(Schedule(s), p, y)
  {
    assert RunQueue(s)[..|p| - y][0] == p[y..][0];
  }

  lemma StepLeads(s: State, call: Call, p: seq<Tid>, y: nat)
    requires Inv(s) && Kin(s) && Enabled(s, call) && Undirected(s, call) && Leads(s, p, y)
    ensures
      if !Body(s, call).schedules then Leads(Exec(s, call), p, y)
      else y + 1 < |p| ==> Leads(Exec(s, call), p, y + 1)
  {
    hide Inv, Kin, Refs, CallRefs, Permitted, CanSchedule, Schedule, Undirected, Lead, Leads, Body;
    BodyGoes(s, call, p, y);
    if Body(s, call).schedules && y + 1 < |p| {
      ScheduleLeads(Body(s, call).s, p, y + 1);
    }
  }

  /** Nobody is overtaken: whatever threads send, receive, create, wait for or die of,
      as long as none yields to another by name, the thread at index y of the run
      queue, unless it is the last, runs from the y-th switch to the next one. */
  lemma NoOvertaking(worlds: seq<World>, calls: seq<Call>, i: nat, j: nat)
    requires Run(worlds, calls) && i <= j < |worlds|
    requires RunQueue(worlds[i].s) != [] && worlds[i].s.current == RunQueue(worlds[i].s)[0]
    requires forall k {:trigger calls[k]} :: i <= k < j ==> Undirected(worlds[k].s, calls[k])
    requires worlds[j].switches - worlds[i].switches < |RunQueue(worlds[i].s)| - 1
    ensures 0 <= worlds[j].switches - worlds[i].switches
    ensures worlds[j].s.current == RunQueue(worlds[i].s)[worlds[j].switches - worlds[i].switches]
  {
    RunLeads(worlds, calls, i, j);
  }

  lemma {:induction false} RunLeads(worlds: seq<World>, calls: seq<Call>, i: nat, j: nat)
    requires Run(worlds, calls) && i <= j < |worlds|
    requires RunQueue(worlds[i].s) != [] && worlds[i].s.current == RunQueue(worlds[i].s)[0]
    requires forall k {:trigger calls[k]} :: i <= k < j ==> Undirected(worlds[k].s, calls[k])
    requires worlds[j].switches - worlds[i].switches < |RunQueue(worlds[i].s)| - 1
    ensures worlds[i].switches <= worlds[j].switches
    ensures Leads(worlds[j].s, AllButLast(RunQueue(worlds[i].s)), worlds[j].switches - worlds[i].switches)
    ensures worlds[j].s.current == RunQueue(worlds[i].s)[worlds[j].switches - worlds[i].switches]
    decreases j
  {
    hide Inv, Kin, CanSchedule, Body, Permitted, Refs, CallRefs, Exec, Undirected, Leads;
    var q := RunQueue(worlds[i].s);
    if i == j {
      FirstLeads(worlds[i].s);
    } else {
      var call := calls[j - 1];
      assert worlds[j - 1 + 1].switches >= worlds[j - 1].switches;
      RunLeads(worlds, calls, i, j - 1);
      RunInv(worlds, calls, j - 1);
      StepLeads(worlds[j - 1].s, call, AllButLast(q), worlds[j - 1].switches - worlds[i].switches);
    }
    LeaderRuns(worlds[j].s, q, worlds[j].switches - worlds[i].switches);
  }

  function AllButLast(q: seq<Tid>): seq<Tid>
    requires q != []
  {
    q[..|q| - 1]
  }

  lemma FirstLeads(s: State)
    requires |RunQueue(s)| > 1 && s.current == RunQueue(s)[0]
    ensures Leads(s, AllButLast(RunQueue(s)), 0)
  {
  }

  lemma LeaderRuns(s: State, q: seq<Tid>, y: nat)
    requires q != [] && Leads(s, AllButLast(q), y)
    ensures y < |q| && s.current == q[y]
  {
  }

  // ----- a directed lwt_yield -----

  /** Where lwt_yield(t) leaves things when it switches: t last but one, the others in
      their order, and at the head t if just one other is queued, else whoever else
      was first. */
  lemma YieldTo(s: State, t: Tid)
    requires Shape(s) && s.Cur().state == RUNNING && t < |s.threads| && t != s.current && Queued(s.threads[t])
    ensures
      var o, run := YieldBody(s, Some(t)), RunQueue(s);
      var run' := RunQueue(o.s);
      && o.schedules && CanSchedule(o.s) && |run| >= 2 && |run'| == |run|
      && Without(run', t) == Without(run, t) && run'[|run| - 2] == t
      && run'[0] == (if |run| == 2 then t else if run[0] == t then run[1] else run[0])
      && (run'[0] == t <==> |run| == 2)
  {
    hide ThreadOk, GroupOk, OwnerOk;
    var run := RunQueue(s);
    assert t in run && s.current in run;
    WithoutMembers(run, t);
    var rest := Without(run, t);
    assert s.current in rest;
    if |rest| >= 2 {
      assert rest[0] in rest;
    }
    HeadWithout(run, t);
    PutBack(rest, t);
    assert YieldBody(s, Some(t)).s.rings[RUN] == BeforeLast(rest, t);
  }

  lemma HeadWithout(q: seq<Tid>, t: Tid)
    requires |q| >= 2 && NoDup(q)
    ensures Without(q, t) != [] && Without(q, t)[0] == if q[0] == t then q[1] else q[0]
  {
  }

  /** lwt_yield switches unless it is to the caller or to a thread that is not queued;
      then it does nothing. */
  lemma YieldSwitchesWhen(s: State, to: Option<Tid>)
    requires Enabled(s, Yield(to))
    ensures Body(s, Yield(to)).schedules <==> to == None || (to != Some(s.current) && Queued(s.threads[to.value]))
    ensures !Body(s, Yield(to)).schedules ==> Exec(s, Yield(to)) == s
  {
    hide TcbRefs, CanSchedule;
  }

  /** Contrary to its comment, a yield to another queued thread dispatches that thread
      if and only if just the two are queued; with more, a caller at the head of the
      run queue is itself dispatched again. */
  lemma DirectedYield(s: State, t: Tid)
    requires Inv(s) && Enabled(s, Yield(Some(t))) && t != s.current && Queued(s.threads[t])
    ensures Exec(s, Yield(Some(t))).current == t <==> |RunQueue(s)| == 2
    ensures |RunQueue(s)| > 2 && RunQueue(s)[0] == s.current ==> Exec(s, Yield(Some(t))).current == s.current
    ensures
      var run' := RunQueue(Exec(s, Yield(Some(t))));
      |run'| >= 2 && run'[|run'| - 2] == t && Without(run', t) == Without(RunQueue(s), t)
  {
    hide YieldBody, Placed, ThreadOk, GroupOk, OwnerOk, Contents, TcbRefs;
    YieldTo(s, t);
  }

  // ----- the yield at the end of a join -----

  /** A join that completes at once, of a child blocked in lwt_die, ends by yielding to
      the child, which is then last but one in the run queue; it runs next if and only if
      the parent alone was queued. */
  lemma JoinYields(s: State, child: Tid)
    requires Inv(s) && Kin(s) && Enabled(s, Join(child)) && s.threads[child].parent == Some(s.current)
    requires !s.threads[child].nojoin && s.threads[child].chl < |s.chans| && child != s.current
    requires s.chans[s.threads[child].chl].head == s.chans[s.threads[child].chl].tail
    requires s.rings[Senders(s.threads[child].chl)] == [child]
    ensures Body(s, Join(child)).schedules
    ensures
      var run, run', s' := RunQueue(s), RunQueue(Exec(s, Join(child))), Exec(s, Join(child));
      && run != [] && |run'| == |run| + 1 && run'[|run| - 1] == child && Without(run', child) == run
      && s'.current == (if |run| == 1 then child else run[0])
  {
    hide YieldBody, RcvBody, ThreadOk, GroupOk, OwnerOk, TcbRefs, Calm, Resume;
    var c := s.threads[child].chl;
    JoinReceives(s, child);
    var s1 := RcvBody(s, c, JoinReturn(child, c)).s;
    YieldTo(s1, child);
    var run := RunQueue(s);
    assert s.current in run && child !in run;
    PutBack(run, child);
  }

  lemma JoinReceives(s: State, child: Tid)
    requires Inv(s) && Kin(s) && Enabled(s, Join(child)) && s.threads[child].parent == Some(s.current)
    requires !s.threads[child].nojoin && s.threads[child].chl < |s.chans| && child != s.current
    requires s.chans[s.threads[child].chl].head == s.chans[s.threads[child].chl].tail
    requires s.rings[Senders(s.threads[child].chl)] == [child]
    ensures
      var c := s.threads[child].chl;
      var o := RcvBody(s, c, JoinReturn(child, c));
      && !o.schedules && Shape(o.s) && o.s.current == s.current && o.s.Cur().state == RUNNING
      && |o.s.threads| == |s.threads| && Queued(o.s.threads[child])
      && child !in RunQueue(s) && RunQueue(o.s) == BeforeLast(RunQueue(s), child)
  {
    hide ThreadOk, GroupOk, OwnerOk, TcbRefs, MoveBeforeLast, RcvBody;
    var c := s.threads[child].chl;
    assert child in s.rings[Senders(c)];
    RcvGood(s, c, JoinReturn(child, c));
    DirectBody(s, c, JoinReturn(child, c));
    RcvBlocksNot(s, c, JoinReturn(child, c));
    assert child !in RunQueue(s);
    ResumeRuns(s, child);
  }

  lemma ResumeRuns(s: State, t: Tid)
    requires t < |s.threads| && RUN < |s.rings| && t !in RunQueue(s)
    ensures RunQueue(Resume(s, t)) == BeforeLast(RunQueue(s), t)
    ensures Resume(s, t).threads == s.threads[t := s.threads[t].(state := RUNNABLE)]
    ensures Resume(s, t).current == s.current
  {
  }

  /** A join that had blocked, when its caller is dispatched, ends by yielding to the
      child if the child is queued, and by returning if it is not. */
  lemma JoinReturnYields(s: State)
    requires Inv(s) && Enabled(s, Continue) && s.Cur().cont.JoinReturn?
    ensures s.Cur().cont.child < |s.threads|
    ensures
      var child, run, s' := s.Cur().cont.child, RunQueue(s), Exec(s, Continue);
      if child != s.current && Queued(s.threads[child]) then
        && Body(s, Continue).schedules && |run| >= 2 && |RunQueue(s')| == |run|
        && RunQueue(s')[|run| - 2] == child && Without(RunQueue(s'), child) == Without(run, child)
        && (s'.current == child <==> |run| == 2)
      else
        !Body(s, Continue).schedules && s'.current == s.current && RunQueue(s') == run
  {
    hide Placed, ThreadOk, GroupOk, OwnerOk, Contents, TcbRefs, WaitBody, ExitBody;
    ContRefs(s, s.current);
    var idle := s.(threads := s.threads[s.current := s.Cur().(cont := Idle)]);
    IdleShape(s);
    var child := s.Cur().cont.child;
    if child != s.current && Queued(s.threads[child]) {
      hide YieldBody;
      YieldTo(idle, child);
    }
  }

  // ----- where a resumed thread is queued -----

  /** The call resumes thread t. */
  ghost predicate Wakes(s: State, o: Outcome, t: Tid) {
    t < |s.threads| && t < |o.s.threads| && s.threads[t].state == BLOCKED && o.s.threads[t].state != BLOCKED
  }

  /** What lwt_snd, lwt_rcv or lwt_die resumes is queued in front of the last thread;
      the caller has left the queue if it blocked or died. */
  ghost predicate QueuedBeforeLast(s: State, o: Outcome, t: Tid) {
    RunQueue(o.s) == if o.schedules then Without(BeforeLast(RunQueue(s), t), s.current) else BeforeLast(RunQueue(s), t)
  }

  lemma SignalQueues(s: State, c: Cid, t: Tid)
    requires Inv(s) && c < |s.chans| && Wakes(s, Signal(s, c), t)
    ensures RunQueue(Signal(s, c).s) == BeforeLast(RunQueue(s), t)
  {
    hide Placed, ThreadOk, GroupOk, OwnerOk, Contents, TcbRefs, Resume;
    var s1, g := WithChan(s, c, s.chans[c].(ready := true)), s.chans[c].cgroup;
    BlockedElsewhere(s, t);
    if g.Some? && s.groups[g.value].blocked {
      var owner := s.groups[g.value].owner;
      OnlyResumed(s1, owner);
      ResumeRuns(s1, t);
    }
  }

  lemma OnlyResumed(s: State, t: Tid)
    requires t < |s.threads| && RUN < |s.rings|
    ensures forall u :: 0 <= u < |s.threads| && u != t ==> Resume(s, t).threads[u] == s.threads[u]
    ensures |Resume(s, t).threads| == |s.threads| && Resume(s, t).current == s.current
  {
  }

  lemma SndQueues(s: State, c: Cid, v: Value, rest: Cont, t: Tid)
    requires Inv(s) && c < |s.chans| && Wakes(s, SndBody(s, c, v, rest), t)
    ensures QueuedBeforeLast(s, SndBody(s, c, v, rest), t)
  {
    hide Placed, ThreadOk, GroupOk, OwnerOk, Contents, TcbRefs, Resume, Signal, Put;
    BlockedElsewhere(s, t);
    SignalKin(s, c);
    if s.chans[c].receiver.Some? {
      var r := s.chans[c].receiver.value;
      if WaitsFor(s.threads[r], c) {
        OnlyResumed(WithMessage(s, r, v), r);
        ResumeRuns(WithMessage(s, r, v), r);
      } else {
        assert Wakes(s, Signal(s, c), t);
        SignalQueues(s, c, t);
      }
    }
  }

  lemma RcvQueues(s: State, c: Cid, rest: Cont, t: Tid)
    requires Inv(s) && c < |s.chans| && Wakes(s, RcvBody(s, c, rest), t)
    ensures QueuedBeforeLast(s, RcvBody(s, c, rest), t)
  {
    hide Placed, ThreadOk, GroupOk, OwnerOk, Contents, TcbRefs, Resume, Put, First;
    BlockedElsewhere(s, t);
    if s.rings[Senders(c)] != [] {
      assert s.rings[Senders(c)][0] in s.rings[Senders(c)];
      OnlyResumed(s, s.rings[Senders(c)][0]);
      ResumeRuns(s, t);
    }
  }

  lemma DieQueues(s: State, v: Value, t: Tid)
    requires Inv(s) && s.Cur().cont == Idle && Wakes(s, DieBody(s, v), t)
    ensures QueuedBeforeLast(s, DieBody(s, v), t)
  {
    hide Placed, ThreadOk, GroupOk, OwnerOk, Contents, TcbRefs, SndBody, Wakes;
    var c := s.Cur().chl;
    DieBodyRefs(s);
    DieStarts(s, v, c);
    var s1 := WithMessage(s.(zombieCounter := s.zombieCounter + 1), s.current, v);
    SndKin(s1, c, v, DieSnd(c));
    WakesSame(s, v, t);
    SndQueues(s1, c, v, DieSnd(c), t);
  }

  lemma WakesSame(s: State, v: Value, t: Tid)
    requires Inv(s) && s.Cur().cont == Idle && Wakes(s, DieBody(s, v), t)
    ensures s.Cur().chl < |s.chans|
    ensures
      var s1 := WithMessage(s.(zombieCounter := s.zombieCounter + 1), s.current, v);
      Refs(s1) && Wakes(s1, SndBody(s1, s.Cur().chl, v, DieSnd(s.Cur().chl)), t)
  {
    hide Placed, ThreadOk, GroupOk, OwnerOk, Contents, TcbRefs, SndBody;
    var c := s.Cur().chl;
    DieBodyRefs(s);
    DieStarts(s, v, c);
    SndKin(WithMessage(s.(zombieCounter := s.zombieCounter + 1), s.current, v), c, v, DieSnd(c));
  }

  lemma WokenBeforeLast(s: State, call: Call, t: Tid)
    requires Inv(s) && Enabled(s, call) && (call.Snd? || call.Rcv? || call.Die?) && Wakes(s, Body(s, call), t)
    ensures QueuedBeforeLast(s, Body(s, call), t)
  {
    hide Placed, ThreadOk, GroupOk, OwnerOk, Contents, TcbRefs, SndBody, RcvBody, DieBody, Wakes, QueuedBeforeLast;
    if call.Snd? {
      SndQueues(s, call.c, call.v, SndReturn(call.c), t);
    } else if call.Rcv? {
      RcvQueues(s, call.c, RcvReturn(call.c), t);
    } else {
      DieQueues(s, call.v, t);
    }
  }

  /** A thread resumed by a send or a receive runs before the thread that was last in the
      run queue at the time, and after all the others: with n queued, from the (n-1)-th
      lwt_yield(NULL) on. */
  lemma WokenRunsBeforeLast(worlds: seq<World>, calls: seq<Call>, i: nat, j: nat, t: Tid)
    requires Run(worlds, calls) && i < j < |worlds| && (calls[i].Snd? || calls[i].Rcv?)
    requires Wakes(worlds[i].s, Body(worlds[i].s, calls[i]), t) && !Body(worlds[i].s, calls[i]).schedules
    requires |RunQueue(worlds[i].s)| >= 2 && worlds[i].s.current == RunQueue(worlds[i].s)[0]
    requires forall k {:trigger calls[k]} :: i < k < j ==> Turns(worlds[k].s, calls[k])
    requires Yields(calls[i + 1..j]) == |RunQueue(worlds[i].s)| - 1
    ensures worlds[j].s.current == t
  {
    hide Inv, Kin, CanSchedule, Permitted, Refs, Turns, Body, Wakes, RunQueue, Yields, Start;
    var s, call := worlds[i].s, calls[i];
    RunInv(worlds, calls, i);
    WokenBeforeLast(s, call, t);
    assert worlds[i + 1] == Next(worlds[i], call);
    StaysCurrent(s, call);
    RoundRobin(worlds, calls, i + 1, j);
  }

  lemma StaysCurrent(s: State, call: Call)
    requires Inv(s) && Enabled(s, call) && (call.Snd? || call.Rcv?)
    ensures Body(s, call).s.current == s.current
  {
    hide SndBody, RcvBody, TcbRefs, Placed;
    if call.Snd? {
      SndKin(s, call.c, call.v, SndReturn(call.c));
    } else {
      RcvKin(s, call.c, RcvReturn(call.c));
    }
  }
}
