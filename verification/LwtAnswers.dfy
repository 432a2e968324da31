/** What the callers of the library get: words, channels, handles and refusals. */
module LwtAnswers {
  import opened Options
  import opened Lwt
  import opened LwtShape
  import opened LwtCalls
  import opened LwtFifo
  import opened LwtFrames
  import opened LwtJoin
  import opened LwtKthd

  // ----- words, channels and refusals -----

  /** When a call is answered with an error code or NULL. */
  ghost predicate RefusalDue(s: State, call: Call)
    requires Refs(s) && CallRefs(s, call)
  {
    match call
    case Snd(c, _) => s.chans[c].receiver == None
    case Join(child) => s.threads[child].parent != Some(s.current) || s.threads[child].nojoin
    case GroupAdd(_, c) => s.chans[c].cgroup.Some?
    case GroupRem(g, c) => s.chans[c].ready || s.chans[c].cgroup != Some(g)
    case Wait(g) => s.groups[g].members == []
    case _ => false
  }

  /** The answer is the word taken from a channel, the channel found ready, or a
      refusal, exactly if there was one. */
  ghost predicate Fits(ev: seq<Event>, a: Answer, refused: bool) {
    && (forall v :: a == Word(v) <==> exists c :: Returned(c, v) in ev)
    && (forall c :: a == Channel(c) <==> exists g :: Ready(g, c) in ev)
    && (a == Refused <==> refused)
  }

  lemma NothingFits(ev: seq<Event>, a: Answer)
    requires (a == Nothing || a.Made?) && forall e :: e in ev ==> !e.Returned? && !e.Ready?
    ensures Fits(ev, a, false)
  {
  }

  lemma RefusalFits()
    ensures Fits([Failed], Told([Failed]), true)
  {
  }

  lemma WordFits(ev: seq<Event>, c: Cid, v: Value)
    requires ev == [Returned(c, v)] || exists child :: ev == [Returned(c, v), Joined(child, c, v)]
    ensures Fits(ev, Told(ev), false)
  {
    assert ev[0] in ev && forall e :: e in ev && e.Returned? ==> e == ev[0];
  }

  lemma ReadyFits(g: Gid, c: Cid)
    ensures Fits([Ready(g, c)], Told([Ready(g, c)]), false)
  {
    assert Ready(g, c) in [Ready(g, c)];
  }

  lemma SndFits(s: State, c: Cid, v: Value, rest: Cont)
    requires Inv(s) && c < |s.chans|
    ensures Fits(SndBody(s, c, v, rest).ev, Told(SndBody(s, c, v, rest).ev), s.chans[c].receiver == None)
    ensures s.chans[c].receiver == None ==> SndBody(s, c, v, rest) == Outcome(s, [Failed], false)
  {
    hide Fits, Told, Placed, ThreadOk, GroupOk, OwnerOk, Contents, TcbRefs, Resume, Block, Put, Signal;
    SignalStays(s, c);
    SndTells(s, c, v, rest);
    if s.chans[c].receiver == None {
      RefusalFits();
    } else {
      NothingFits(SndBody(s, c, v, rest).ev, Nothing);
    }
  }

  lemma SaysNoWord(s: State, c: Cid, v: Value, rest: Cont)
    requires Inv(s) && c < |s.chans|
    ensures forall e :: e in SndBody(s, c, v, rest).ev ==> !e.Returned? && !e.Ready?
  {
    hide Placed, ThreadOk, GroupOk, OwnerOk, Contents, TcbRefs, Resume, Block, Put, Signal;
    SignalStays(s, c);
  }

  lemma DieFits(s: State, v: Value)
    requires Inv(s) && s.Cur().cont == Idle
    ensures Fits(DieBody(s, v).ev, Told(DieBody(s, v).ev), false)
  {
    hide Fits, Told, Placed, ThreadOk, GroupOk, OwnerOk, Contents, TcbRefs, SndBody;
    var c := s.Cur().chl;
    DieBodyRefs(s);
    DieStarts(s, v, c);
    SaysNoWord(WithMessage(s.(zombieCounter := s.zombieCounter + 1), s.current, v), c, v, DieSnd(c));
    DieTold(s, v);
    NothingFits(DieBody(s, v).ev, Nothing);
  }

  lemma RcvFits(s: State, c: Cid, rest: Cont)
    requires Refs(s) && c < |s.chans|
    ensures Fits(RcvBody(s, c, rest).ev, Told(RcvBody(s, c, rest).ev), false)
  {
    hide Fits, Told, TcbRefs, RcvBody;
    RcvEvents(s, c, rest);
    var ev := RcvBody(s, c, rest).ev;
    if ev == [] {
      TellsNothing();
    } else {
      assert ev == [Returned(c, ev[0].v)];
      WordFits(ev, c, ev[0].v);
    }
  }

  lemma TellsNothing()
    ensures Told([]) == Nothing && Fits([], Nothing, false)
  {
  }

  lemma JoinFits(s: State, child: Tid)
    requires Refs(s) && child < |s.threads|
    ensures Fits(JoinBody(s, child).ev, Told(JoinBody(s, child).ev), RefusalDue(s, Join(child)))
    ensures RefusalDue(s, Join(child)) ==> JoinBody(s, child) == Outcome(s, [Failed], false)
  {
    hide Fits, Told, TcbRefs, JoinBody;
    JoinEvents(s, child);
    JoinRefusedWhen(s, child);
    var c, ev := s.threads[child].chl, JoinBody(s, child).ev;
    if ev == [] {
      TellsNothing();
    } else if ev == [Failed] {
      RefusalFits();
      assert Failed in [Failed];
    } else {
      var w :| ev == [Returned(c, w), Joined(child, c, w)];
      WordFits(ev, c, w);
    }
  }

  lemma WaitFits(s: State, g: Gid)
    requires Refs(s) && g < |s.groups|
    ensures Fits(WaitBody(s, g).ev, Told(WaitBody(s, g).ev), false)
  {
    hide Fits, Told, TcbRefs;
    var c := FirstReady(s.chans, s.groups[g].members);
    if c.Some? {
      ReadyFits(g, c.value);
    } else {
      TellsNothing();
    }
  }

  lemma ContinueFits(s: State)
    requires Refs(s)
    ensures Fits(ContinueBody(s).ev, Told(ContinueBody(s).ev), false)
  {
    hide Fits, TcbRefs, WaitBody, YieldBody;
    ContRefs(s, s.current);
    var ev, x := ContinueBody(s).ev, s.Cur();
    match x.cont {
      case GroupWait(g) => WaitFits(s, g);
      case RcvReturn(c) => WordFits(ev, c, x.message);
      case JoinReturn(child, c) => WordFits(ev, c, x.message);
      case _ => NothingFits(ev, Told(ev));
    }
  }

  /** For every call in every state: the caller gets a word or a channel exactly if the
      call took the word from a channel or found the channel ready; it is refused
      exactly when its guard says so, and then nothing has changed. */
  lemma Answers(s: State, call: Call)
    requires Inv(s) && Enabled(s, call)
    ensures Fits(Body(s, call).ev, AnswerOf(s, call), RefusalDue(s, call))
    ensures RefusalDue(s, call) ==> Exec(s, call) == s
  {
    hide Fits, Told, TcbRefs, Placed, ThreadOk, GroupOk, OwnerOk, Contents, CanSchedule;
    hide SndBody, RcvBody, DieBody, JoinBody, YieldBody, WaitBody, ContinueBody, CreateBody;
    match call {
      case Snd(c, v) => SndFits(s, c, v, SndReturn(c));
      case Rcv(c) => RcvFits(s, c, RcvReturn(c));
      case Die(v) => DieFits(s, v);
      case Join(child) => JoinFits(s, child);
      case Continue => ContinueFits(s);
      case Wait(g) => RefusalFits(); WaitFits(s, g);
      case GroupAdd(g, c) => RefusalFits(); TellsNothing();
      case GroupRem(g, c) => RefusalFits(); TellsNothing();
      case Yield(to) => YieldSays(s, to); TellsNothing();
      case Create(nojoin) => CreateSays(s, nojoin); NothingFits([], AnswerOf(s, call));
      case MakeChan(_) => NothingFits([], AnswerOf(s, call));
      case NewGroup => NothingFits([], AnswerOf(s, call));
      case Deref(_) => TellsNothing();
      case Share(_) => TellsNothing();
    }
  }

  // ----- handles -----

  /** The thread, channel or group that a call has made is a new one, as asked for,
      and is the caller's. */
  ghost predicate IsNew(s: State, call: Call, s': State, id: nat) {
    match call
    case Create(nojoin) =>
      && (id < |s.threads| ==> s.threads[id].state == ZOMBIES) && id < |s'.threads|
      && var x := s'.threads[id];
         && x.state == RUNNING && x.parent == Some(s.current) && x.nojoin == nojoin && x.cont == Idle
         && |s.chans| <= x.chl < |s'.chans| && s'.chans[x.chl].receiver == Some(s.current)
         && s'.chans[x.chl].Size() == 0 && s'.chans[x.chl].sndCnt == 1 && !s'.chans[x.chl].ready
    case MakeChan(size) =>
      && |s.chans| <= id < |s'.chans|
      && s'.chans[id].receiver == Some(s.current) && s'.chans[id].Size() == size && !s'.chans[id].ready
      && s'.chans[id].cgroup == None
    case NewGroup =>
      && |s.groups| <= id < |s'.groups|
      && s'.groups[id].owner == s.current && s'.groups[id].members == [] && !s'.groups[id].blocked
    case _ => false
  }

  lemma HandlesAreNew(s: State, call: Call, id: nat)
    requires Inv(s) && Enabled(s, call) && AnswerOf(s, call) == Made(id)
    ensures IsNew(s, call, Exec(s, call), id)
    ensures Exec(s, call).current == s.current
    ensures forall t :: 0 <= t < |s.threads| && !(call.Create? && t == id) ==>
      t < |Exec(s, call).threads| && Exec(s, call).threads[t] == s.threads[t]
  {
    hide TcbRefs, Placed, ThreadOk, GroupOk, OwnerOk, Contents, CanSchedule;
    hide SndBody, RcvBody, DieBody, JoinBody, YieldBody, WaitBody, ContinueBody, CreateBody;
    if call.Create? {
      CreateFacts(s, call.nojoin);
      CreateTurns(s, call.nojoin);
      CreateStays(s, call.nojoin);
    }
  }
}
