/** The handshake of lwt_die and lwt_join: the one message a thread ever sends on
    the channel it was created with. */
module LwtJoin {
  import opened Options
  import opened Lwt
  import opened LwtShape
  import opened LwtCalls
  import opened LwtFifo
  import opened LwtFrames
  import opened LwtGroups

  // ----- what the log says about a thread's own channel -----

  function DiedBy(e: Event, c: Cid): seq<Value> { if e.Died? && e.c == c then [e.v] else [] }

  function JoinedBy(e: Event, c: Cid): seq<Value> { if e.Joined? && e.c == c then [e.v] else [] }

  /** The last words given to lwt_die on channel c. */
  function DiedIn(log: seq<Event>, c: Cid): seq<Value> {
    if log == [] then [] else DiedBy(log[0], c) + DiedIn(log[1..], c)
  }

  /** The last words lwt_join got from channel c. */
  function JoinedIn(log: seq<Event>, c: Cid): seq<Value> {
    if log == [] then [] else JoinedBy(log[0], c) + JoinedIn(log[1..], c)
  }

  function ExitsIn(log: seq<Event>, c: Cid): nat {
    if log == [] then 0 else (if log[0].Exited? && log[0].c == c then 1 else 0) + ExitsIn(log[1..], c)
  }

  lemma {:induction false} DiedConcat(a: seq<Event>, b: seq<Event>, c: Cid)
    ensures DiedIn(a + b, c) == DiedIn(a, c) + DiedIn(b, c)
  {
    hide DiedBy;
    if a == [] {
      assert a + b == b;
    } else {
      DiedConcat(a[1..], b, c);
      assert (a + b)[0] == a[0] && (a + b)[1..] == a[1..] + b;
      Associates(DiedBy(a[0], c), DiedIn(a[1..], c), DiedIn(b, c));
    }
  }

  lemma {:induction false} JoinedConcat(a: seq<Event>, b: seq<Event>, c: Cid)
    ensures JoinedIn(a + b, c) == JoinedIn(a, c) + JoinedIn(b, c)
  {
    hide JoinedBy;
    if a == [] {
      assert a + b == b;
    } else {
      JoinedConcat(a[1..], b, c);
      assert (a + b)[0] == a[0] && (a + b)[1..] == a[1..] + b;
      Associates(JoinedBy(a[0], c), JoinedIn(a[1..], c), JoinedIn(b, c));
    }
  }

  lemma {:induction false} ExitsConcat(a: seq<Event>, b: seq<Event>, c: Cid)
    ensures ExitsIn(a + b, c) == ExitsIn(a, c) + ExitsIn(b, c)
  {
    if a == [] {
      assert a + b == b;
    } else {
      ExitsConcat(a[1..], b, c);
      assert (a + b)[1..] == a[1..] + b;
    }
  }

  /** What the events say of channel c, none of its messages having strayed. */
  ghost predicate Says(ev: seq<Event>, c: Cid, died: seq<Value>, sent: seq<Value>, joined: seq<Value>, back: seq<Value>,
                       exits: nat) {
    && DiedIn(ev, c) == died && SentIn(ev, c) == sent
    && JoinedIn(ev, c) == joined && ReturnedIn(ev, c) == back
    && ExitsIn(ev, c) == exits && StraysIn(ev, c) == 0
  }

  lemma SaysMore(a: seq<Event>, died: seq<Value>, sent: seq<Value>, joined: seq<Value>, back: seq<Value>, exits: nat,
                 b: seq<Event>, died': seq<Value>, sent': seq<Value>, joined': seq<Value>, back': seq<Value>,
                 exits': nat, c: Cid)
    requires Says(a, c, died, sent, joined, back, exits) && Says(b, c, died', sent', joined', back', exits')
    ensures Says(a + b, c, died + died', sent + sent', joined + joined', back + back', exits + exits')
  {
    DiedConcat(a, b, c);
    JoinedConcat(a, b, c);
    ExitsConcat(a, b, c);
    Joins(a, b, c);
  }

  /** Only thread t dies on, is joined on or exits with channel c. */
  ghost predicate Named(ev: seq<Event>, c: Cid, t: Tid) {
    forall e :: e in ev ==>
      && (e.Died? && e.c == c ==> e.t == t)
      && (e.Exited? && e.c == c ==> e.t == t)
      && (e.Joined? && e.c == c ==> e.child == t)
  }

  /** Last words alone enter channel c, joins alone take them out, all of thread t. */
  ghost predicate Tells(ev: seq<Event>, c: Cid, t: Tid, died: seq<Value>, joined: seq<Value>, exits: nat) {
    Says(ev, c, died, died, joined, joined, exits) && Named(ev, c, t)
  }

  /** An event of no concern to channel c. */
  predicate Foreign(e: Event, c: Cid) {
    match e
    case Accepted(d, _) => d != c
    case Returned(d, _) => d != c
    case Stray(d) => d != c
    case Died(_, d, _) => d != c
    case Exited(_, d) => d != c
    case Joined(_, d, _) => d != c
    case _ => true
  }

  lemma {:induction false} ForeignTells(ev: seq<Event>, c: Cid, t: Tid)
    requires forall e :: e in ev ==> Foreign(e, c)
    ensures Tells(ev, c, t, [], [], 0)
  {
    if ev != [] {
      assert ev[0] in ev && forall e :: e in ev[1..] ==> e in ev;
      ForeignTells(ev[1..], c, t);
      assert ev == [ev[0]] + ev[1..];
    }
  }

  /** An event alone. */
  lemma Alone(e: Event, c: Cid)
    ensures DiedIn([e], c) == DiedBy(e, c) && JoinedIn([e], c) == JoinedBy(e, c)
    ensures ExitsIn([e], c) == (if e.Exited? && e.c == c then 1 else 0)
    ensures SentIn([e], c) == SentBy(e, c) && ReturnedIn([e], c) == ReturnedBy(e, c)
    ensures StraysIn([e], c) == (if e == Stray(c) then 1 else 0)
  {
    assert [e][1..] == [];
    Single(e, c);
  }

  // ----- who may touch a private channel -----

  /** The call is a lwt_die or lwt_join on channel c, or the end of one. */
  ghost predicate Involved(s: State, call: Call, c: Cid)
    requires Refs(s) && CallRefs(s, call)
  {
    match call
    case Die(_) => s.Cur().chl == c
    case Join(child) => s.threads[child].chl == c
    case Continue => (s.Cur().cont.DieSnd? && s.Cur().chl == c) || (s.Cur().cont.JoinReturn? && s.Cur().cont.c == c)
    case _ => false
  }

  lemma SndForeign(s: State, c: Cid, v: Value, rest: Cont, d: Cid)
    requires Inv(s) && c < |s.chans| && d != c
    ensures forall e :: e in SndBody(s, c, v, rest).ev ==> Foreign(e, d)
  {
    hide Placed, ThreadOk, GroupOk, OwnerOk, Contents, Signal, TcbRefs, Resume, Block, Put;
    SignalStays(s, c);
  }

  lemma DieForeign(s: State, v: Value, d: Cid)
    requires Inv(s) && s.Cur().cont == Idle && s.Cur().chl != d
    ensures forall e :: e in DieBody(s, v).ev ==> Foreign(e, d)
  {
    hide Placed, ThreadOk, GroupOk, OwnerOk, Contents, SndBody, TcbRefs;
    var c := s.Cur().chl;
    DieBodyRefs(s);
    DieStarts(s, v, c);
    var s1 := WithMessage(s.(zombieCounter := s.zombieCounter + 1), s.current, v);
    SndForeign(s1, c, v, DieSnd(c), d);
    SndKin(s1, c, v, DieSnd(c));
  }

  lemma JoinForeign(s: State, child: Tid, d: Cid)
    requires Inv(s) && child < |s.threads| && s.threads[child].chl != d
    ensures forall e :: e in JoinBody(s, child).ev ==> Foreign(e, d)
  {
    hide Placed, ThreadOk, GroupOk, OwnerOk, Contents, RcvBody, YieldBody, TcbRefs;
    var c := s.threads[child].chl;
    ChlRefs(s, child);
    RcvEvents(s, c, JoinReturn(child, c));
    RcvKin(s, c, JoinReturn(child, c));
  }

  lemma ContinueForeign(s: State, d: Cid)
    requires Inv(s) && CallRefs(s, Continue) && !Involved(s, Continue, d) && s.Cur().cont != RcvReturn(d)
    ensures forall e :: e in ContinueBody(s).ev ==> Foreign(e, d)
  {
    hide Placed, ThreadOk, GroupOk, OwnerOk, Contents, YieldBody, FirstReady;
    assert TcbRefs(s, s.Cur());
  }

  /** No other call says anything of a private channel, or of one to come. */
  lemma BodyForeign(s: State, call: Call, d: Cid)
    requires Inv(s) && Enabled(s, call) && !Involved(s, call, d)
    requires d >= |s.chans| || (s.chans[d].private && s.Cur().cont != RcvReturn(d))
    ensures forall e :: e in Body(s, call).ev ==> Foreign(e, d)
  {
    hide Placed, ThreadOk, GroupOk, OwnerOk, Contents;
    hide SndBody, RcvBody, DieBody, JoinBody, YieldBody, ContinueBody, CreateBody;
    match call {
      case Yield(to) => YieldSays(s, to);
      case Create(nojoin) => CreateSays(s, nojoin);
      case Snd(c, v) => SndForeign(s, c, v, SndReturn(c), d);
      case Rcv(c) => RcvEvents(s, c, RcvReturn(c));
      case Die(v) => DieForeign(s, v, d);
      case Join(child) => JoinForeign(s, child, d);
      case Continue => assert TcbRefs(s, s.Cur()); ContinueForeign(s, d);
      case _ =>
    }
  }

  // ----- where the two sides of the handshake are -----

  predicate Alive(x: Tcb, c: Cid) { x.chl == c && x.state != ZOMBIES && !x.cont.DieSnd? }

  /** The thread has left lwt_die, and perhaps begun another life. */
  predicate Gone(x: Tcb, c: Cid) { x.chl != c || x.state == ZOMBIES }

  function Count1(b: bool): nat { if b then 1 else 0 }

  /** What thread x does with the channel c that thread t was created with; unsent:
      t has not called lwt_die yet. */
  ghost predicate CallOk(x: Tcb, c: Cid, t: Tid, unsent: bool) {
    && x.cont != SndReturn(c) && x.cont != RcvReturn(c)
    && (x.cont.JoinReturn? && x.cont.c == c ==> x.cont.child == t)
    && (x.nowRcving == Some(c) && unsent ==> Receiving(x.cont) == Some(c))
  }

  /** A thread in lwt_die sends on its own channel; now_rcving names a channel. */
  ghost predicate Own(s: State) {
    forall u :: 0 <= u < |s.threads| ==>
      && (s.threads[u].cont.DieSnd? ==> s.threads[u].cont.c == s.threads[u].chl)
      && (s.threads[u].nowRcving.Some? ==> s.threads[u].nowRcving.value < |s.chans|)
  }

  ghost predicate Places(s: State, c: Cid, t: Tid, unsent: bool) {
    && c < |s.chans| && t < |s.threads|
    && s.chans[c].private && s.chans[c].receiver.Some? && s.chans[c].Size() == 0
    && (forall u :: 0 <= u < |s.threads| ==> CallOk(s.threads[u], c, t, unsent) && (s.threads[u].chl == c ==> u == t))
  }

  ghost predicate Handshake(s: State, log: seq<Event>, c: Cid, t: Tid) {
    && Places(s, c, t, DiedIn(log, c) == [])
    && |DiedIn(log, c)| == Count1(!Alive(s.threads[t], c))
    && Tells(log, c, t, DiedIn(log, c), JoinedIn(log, c), Count1(Gone(s.threads[t], c)))
  }

  /** One call, as far as channel c is concerned. */
  ghost predicate Moves(s: State, o: Outcome, c: Cid, t: Tid, unsent: bool) {
    var died := DiedIn(o.ev, c);
    && t < |s.threads| && Places(o.s, c, t, unsent && died == [])
    && Tells(o.ev, c, t, died, JoinedIn(o.ev, c), ExitsIn(o.ev, c))
    && Count1(!Alive(s.threads[t], c)) + |died| == Count1(!Alive(o.s.threads[t], c))
    && Count1(Gone(s.threads[t], c)) + ExitsIn(o.ev, c) == Count1(Gone(o.s.threads[t], c))
  }

  lemma Extended(s: State, log: seq<Event>, o: Outcome, c: Cid, t: Tid)
    requires Handshake(s, log, c, t) && Moves(s, o, c, t, DiedIn(log, c) == [])
    ensures Handshake(o.s, log + o.ev, c, t)
  {
    hide Places, Says, Named, Alive, Gone;
    var (died, joined, exits) := (DiedIn(log, c), JoinedIn(log, c), ExitsIn(log, c));
    assert Says(log, c, died, died, joined, joined, Count1(Gone(s.threads[t], c)));
    SaysMore(log, died, died, joined, joined, Count1(Gone(s.threads[t], c)),
             o.ev, DiedIn(o.ev, c), DiedIn(o.ev, c), JoinedIn(o.ev, c), JoinedIn(o.ev, c), ExitsIn(o.ev, c), c);
    SaysWhat(log + o.ev, c);
    assert Named(log + o.ev, c, t) by { NamedMore(log, o.ev, c, t); }
  }

  lemma SaysWhat(ev: seq<Event>, c: Cid)
    ensures forall died, sent, joined, back, exits: nat :: Says(ev, c, died, sent, joined, back, exits) ==>
      DiedIn(ev, c) == died && JoinedIn(ev, c) == joined && ExitsIn(ev, c) == exits
  {
  }

  lemma NamedMore(a: seq<Event>, b: seq<Event>, c: Cid, t: Tid)
    requires Named(a, c, t) && Named(b, c, t)
    ensures Named(a + b, c, t)
  {
  }

  /** Everyone keeps to the rules; only the current thread may end or begin. */
  lemma PlacesTurn(s: State, s': State, c: Cid, t: Tid, unsent: bool, unsent': bool)
    requires Refs(s) && Places(s, c, t, unsent) && OthersStay(s, s') && (unsent' ==> unsent)
    requires c < |s'.chans| && s'.chans[c].private && s'.chans[c].receiver == s.chans[c].receiver &&
      s'.chans[c].Size() == 0
    requires s'.Cur().chl == s.Cur().chl && CallOk(s'.Cur(), c, t, unsent')
    ensures Places(s', c, t, unsent')
    ensures t != s.current ==>
      Alive(s'.threads[t], c) == Alive(s.threads[t], c) && Gone(s'.threads[t], c) == Gone(s.threads[t], c)
  {
  }

  /** The channel of an uninvolved call stays as it is. */
  lemma ChanStays(s: State, call: Call, c: Cid)
    requires Inv(s) && Kin(s) && Enabled(s, call) && c < |s.chans| && s.chans[c].private
    ensures
      var s' := Body(s, call).s;
      && c < |s'.chans| && s'.chans[c].private
      && s'.chans[c].receiver == s.chans[c].receiver && s'.chans[c].Size() == s.chans[c].Size()
  {
    hide Placed, ThreadOk, GroupOk, OwnerOk, Contents, TcbRefs, Permitted;
    if call.Create? {
      hide CreateBody;
      CreateFacts(s, call.nojoin);
    } else if !call.MakeChan? {
      hide Body;
      BodyKin(s, call);
    }
  }

  lemma ForeignMoves(s: State, call: Call, c: Cid, t: Tid, unsent: bool)
    requires Inv(s) && Kin(s) && Enabled(s, call) && Places(s, c, t, unsent)
    requires !call.Create? && !Involved(s, call, c)
    ensures Moves(s, Body(s, call), c, t, unsent)
  {
    hide Placed, ThreadOk, GroupOk, OwnerOk, Contents, TcbRefs, Body, Kin, Tells, Foreign;
    BodyThreads(s, call);
    BodyForeign(s, call, c);
    ChanStays(s, call, c);
    var o := Body(s, call);
    ForeignTells(o.ev, c, t);
    TellsWhat(o.ev, c, t, [], [], 0);
    var x, y := s.Cur(), o.s.Cur();
    assert CallOk(x, c, t, unsent);
    PlacesTurn(s, o.s, c, t, unsent, unsent);
  }

  lemma TellsWhat(ev: seq<Event>, c: Cid, t: Tid, died: seq<Value>, joined: seq<Value>, exits: nat)
    requires Tells(ev, c, t, died, joined, exits)
    ensures DiedIn(ev, c) == died && JoinedIn(ev, c) == joined && ExitsIn(ev, c) == exits
  {
  }

  lemma CreateMoves(s: State, nojoin: bool, c: Cid, t: Tid, unsent: bool)
    requires Inv(s) && Places(s, c, t, unsent)
    ensures Moves(s, CreateBody(s, nojoin), c, t, unsent)
  {
    hide CreateBody, Placed, ThreadOk, GroupOk, OwnerOk, Contents, Tells;
    CreateFacts(s, nojoin);
    CreateTurns(s, nojoin);
    CreateSays(s, nojoin);
    ForeignTells([], c, t);
    TellsWhat([], c, t, [], [], 0);
    var s', k := CreateBody(s, nojoin).s, Created(s);
    if k < |s.threads| {
      assert CallOk(s.threads[k], c, t, unsent);
    }
  }

  /** The thread created is the one whose channel is new. */
  lemma CreateBegins(s: State, log: seq<Event>, nojoin: bool)
    requires Inv(s) && Own(s) && Tells(log, |s.chans|, Created(s), [], [], 0)
    ensures Handshake(CreateBody(s, nojoin).s, log + CreateBody(s, nojoin).ev, |s.chans|, Created(s))
  {
    hide CreateBody, Placed, GroupOk, OwnerOk, Contents, Tells, TcbOk;
    CreateFacts(s, nojoin);
    CreateTurns(s, nojoin);
    CreateSays(s, nojoin);
    var s', c, k := CreateBody(s, nojoin).s, |s.chans|, Created(s);
    TellsWhat(log, c, k, [], [], 0);
    assert log + [] == log;
    forall u | 0 <= u < |s'.threads|
      ensures CallOk(s'.threads[u], c, k, true) && (s'.threads[u].chl == c ==> u == k)
    {
      if u != k {
        assert TcbRefs(s, s.threads[u]);
      }
    }
  }

  lemma OwnBody(s: State, call: Call)
    requires Inv(s) && Kin(s) && Own(s) && Enabled(s, call)
    ensures Own(Body(s, call).s)
  {
    hide Placed, ThreadOk, GroupOk, OwnerOk, Contents, Permitted;
    hide SndBody, RcvBody, DieBody, JoinBody, WaitBody, YieldBody, ContinueBody, CreateBody, GroupAddBody, GroupRemBody;
    BodyGood(s, call);
    var s' := Body(s, call).s;
    if call.Create? {
      CreateOwn(s, call.nojoin);
    } else {
      BodyThreads(s, call);
      ChansGrow(s, call);
      assert TcbRefs(s', s'.Cur());
      assert s'.Cur().nowRcving == s.Cur().nowRcving || s'.Cur().nowRcving == Receiving(s'.Cur().cont);
    }
  }

  lemma CreateOwn(s: State, nojoin: bool)
    requires Inv(s) && Own(s)
    ensures Own(CreateBody(s, nojoin).s)
  {
    hide CreateBody, Placed, ThreadOk, GroupOk, OwnerOk, Contents, TcbRefs;
    CreateFacts(s, nojoin);
    CreateTurns(s, nojoin);
  }

  lemma ChansGrow(s: State, call: Call)
    requires Inv(s) && Kin(s) && Enabled(s, call)
    ensures |Body(s, call).s.chans| == |s.chans| + Count1(call.Create? || call.MakeChan?)
    ensures call.MakeChan? ==> !Body(s, call).s.chans[|s.chans|].private
  {
    hide Placed, ThreadOk, GroupOk, OwnerOk, Contents, TcbRefs, Permitted;
    if call.Create? {
      hide CreateBody;
      CreateFacts(s, call.nojoin);
    } else if !call.MakeChan? {
      hide Body;
      BodyKin(s, call);
    }
  }

  // ----- the calls of the handshake -----

  lemma SndSays(s: State, c: Cid, v: Value, rest: Cont)
    requires Inv(s) && c < |s.chans| && s.chans[c].receiver.Some? && !StaleWait(s, c)
    ensures
      var ev := SndBody(s, c, v, rest).ev;
      Says(ev, c, [], [v], [], [], 0) && forall e :: e in ev ==> e.Rewoken? || e == Accepted(c, v)
  {
    hide Placed, GroupOk, OwnerOk, Contents, TcbRefs, Signal, Resume, Block, Put, SentIn, ReturnedIn;
    hide StraysIn, DiedIn, JoinedIn, ExitsIn;
    Alone(Accepted(c, v), c);
    assert [Accepted(c, v)] + [] == [Accepted(c, v)];
    var r := s.chans[c].receiver.value;
    assert ThreadOk(s, r);
    if !WaitsFor(s.threads[r], c) {
      SignalStays(s, c);
      var ev := Signal(s, c).ev;
      ForeignTells(ev, c, 0);
      SaysMore(ev, [], [], [], [], 0, [Accepted(c, v)], [], [v], [], [], 0, c);
      assert [] + [v] == [v];
    }
  }

  /** lwt_die gives its word to the channel, once. */
  lemma DieTells(s: State, v: Value)
    requires Inv(s) && s.Cur().cont == Idle && s.Cur().chl < |s.chans|
    requires s.chans[s.Cur().chl].receiver.Some? && !StaleWait(s, s.Cur().chl)
    ensures
      var o := DieBody(s, v);
      Tells(o.ev, s.Cur().chl, s.current, [v], [], Count1(o.s.Cur().state == ZOMBIES))
  {
    hide Placed, ThreadOk, GroupOk, OwnerOk, Contents, SndBody, TcbRefs, Says;
    var c, t := s.Cur().chl, s.current;
    DieStarts(s, v, c);
    var s1 := WithMessage(s.(zombieCounter := s.zombieCounter + 1), s.current, v);
    var o := SndBody(s1, c, v, DieSnd(c));
    SndSays(s1, c, v, DieSnd(c));
    SndStays(s1, c, v, DieSnd(c));
    SndKin(s1, c, v, DieSnd(c));
    DiedFirst(c, t, v, o.ev);
    if !o.schedules {
      ExitedLast([Died(t, c, v)] + o.ev, c, t, v);
    }
  }

  lemma DiedFirst(c: Cid, t: Tid, v: Value, ev: seq<Event>)
    requires Says(ev, c, [], [v], [], [], 0)
    ensures Says([Died(t, c, v)] + ev, c, [v], [v], [], [], 0)
  {
    Alone(Died(t, c, v), c);
    SaysMore([Died(t, c, v)], [v], [], [], [], 0, ev, [], [v], [], [], 0, c);
    assert [v] + [] == [v] && [] + [v] == [v];
  }

  lemma ExitedLast(ev: seq<Event>, c: Cid, t: Tid, v: Value)
    requires Says(ev, c, [v], [v], [], [], 0)
    ensures Says(ev + [Exited(t, c)], c, [v], [v], [], [], 1)
  {
    Alone(Exited(t, c), c);
    SaysMore(ev, [v], [v], [], [], 0, [Exited(t, c)], [], [], [], [], 1, c);
  }

  lemma DieMoves(s: State, v: Value, c: Cid, t: Tid)
    requires Inv(s) && Kin(s) && Enabled(s, Die(v)) && Places(s, c, t, true) && s.Cur().chl == c
    ensures Moves(s, DieBody(s, v), c, t, true)
  {
    hide Placed, ThreadOk, GroupOk, OwnerOk, Contents, DieBody, TcbRefs, Kin, Tells;
    var o := DieBody(s, v);
    assert s.Cur() == s.threads[s.current] && CallOk(s.Cur(), c, t, true);
    assert !StaleWait(s, c) by {
      assert CallOk(s.threads[s.chans[c].receiver.value], c, t, true);
    }
    DieTells(s, v);
    DieStays(s, v);
    DieKin(s, v);
    TellsWhat(o.ev, c, t, [v], [], Count1(o.s.Cur().state == ZOMBIES));
    PlacesTurn(s, o.s, c, t, true, false);
  }

  /** lwt_join got w from the child's channel. */
  lemma JoinedTells(c: Cid, t: Tid, w: Value)
    ensures Tells([Returned(c, w), Joined(t, c, w)], c, t, [], [w], 0)
  {
    hide SentIn, ReturnedIn, StraysIn, DiedIn, JoinedIn, ExitsIn;
    Alone(Returned(c, w), c);
    Alone(Joined(t, c, w), c);
    SaysMore([Returned(c, w)], [], [], [], [w], 0, [Joined(t, c, w)], [], [], [w], [], 0, c);
    assert [Returned(c, w)] + [Joined(t, c, w)] == [Returned(c, w), Joined(t, c, w)];
    assert [w] + [] == [w] && [] + [w] == [w];
  }

  lemma JoinMoves(s: State, child: Tid, c: Cid, t: Tid, unsent: bool)
    requires Inv(s) && Kin(s) && Enabled(s, Join(child)) && Places(s, c, t, unsent) && s.threads[child].chl == c
    ensures Moves(s, JoinBody(s, child), c, t, unsent)
  {
    hide Placed, ThreadOk, GroupOk, OwnerOk, Contents, TcbRefs, Kin, Tells, JoinBody;
    var o := JoinBody(s, child);
    JoinStays(s, child);
    JoinKin(s, child);
    JoinEvents(s, child);
    assert child == t;
    if |o.ev| == 2 {
      JoinedTells(c, t, o.ev[1].v);
      TellsWhat(o.ev, c, t, [], [o.ev[1].v], 0);
    } else {
      ForeignTells(o.ev, c, t);
      TellsWhat(o.ev, c, t, [], [], 0);
    }
    assert CallOk(s.Cur(), c, t, unsent);
    PlacesTurn(s, o.s, c, t, unsent, unsent);
  }

  lemma ExitTells(c: Cid, t: Tid)
    ensures Tells([Exited(t, c)], c, t, [], [], 1)
  {
    Alone(Exited(t, c), c);
  }

  lemma ContinueMoves(s: State, c: Cid, t: Tid, unsent: bool)
    requires Inv(s) && Kin(s) && Enabled(s, Continue) && Places(s, c, t, unsent) && Involved(s, Continue, c)
    requires s.Cur().cont.JoinReturn? ==> !unsent
    ensures Moves(s, ContinueBody(s), c, t, unsent)
  {
    hide Placed, ThreadOk, GroupOk, OwnerOk, Contents, TcbRefs, Kin, Tells, YieldBody, WaitBody;
    var o := ContinueBody(s);
    ContinueStays(s);
    ContinueKin(s);
    assert CallOk(s.Cur(), c, t, unsent);
    if s.Cur().cont.DieSnd? {
      assert s.current == t && o.ev == [Exited(t, c)];
      ExitTells(c, t);
      TellsWhat(o.ev, c, t, [], [], 1);
    } else {
      JoinedTells(c, t, s.Cur().message);
      TellsWhat(o.ev, c, t, [], [s.Cur().message], 0);
    }
    PlacesTurn(s, o.s, c, t, unsent, unsent);
  }

  /** A join can only complete once something has been sent. */
  lemma JoinHasWord(s: State, log: seq<Event>, c: Cid, t: Tid)
    requires Inv(s) && Handshake(s, log, c, t) && s.Cur().cont.JoinReturn? && s.Cur().cont.c == c
    requires |SentIn(log, c)| == |ReturnedIn(log, c)| + |InFlight(s, c)| + StraysIn(log, c)
    ensures DiedIn(log, c) != []
  {
    assert ThreadOk(s, s.current);
  }

  lemma BodyMoves(s: State, log: seq<Event>, call: Call, c: Cid, t: Tid)
    requires Inv(s) && Kin(s) && Enabled(s, call) && Handshake(s, log, c, t)
    requires |SentIn(log, c)| == |ReturnedIn(log, c)| + |InFlight(s, c)| + StraysIn(log, c)
    ensures Moves(s, Body(s, call), c, t, DiedIn(log, c) == [])
  {
    hide Placed, ThreadOk, GroupOk, OwnerOk, Contents, TcbRefs, Kin, Tells, InFlight, Moves;
    hide SndBody, RcvBody, DieBody, JoinBody, WaitBody, YieldBody, ContinueBody, CreateBody, GroupAddBody, GroupRemBody;
    var unsent := DiedIn(log, c) == [];
    if call.Create? {
      CreateMoves(s, call.nojoin, c, t, unsent);
    } else if !Involved(s, call, c) {
      hide Body;
      ForeignMoves(s, call, c, t, unsent);
    } else if call.Die? {
      DieMoves(s, call.v, c, t);
    } else if call.Join? {
      JoinMoves(s, call.child, c, t, unsent);
    } else {
      if s.Cur().cont.JoinReturn? { JoinHasWord(s, log, c, t); }
      ContinueMoves(s, c, t, unsent);
    }
  }

  lemma ScheduleHandshake(s: State, log: seq<Event>, c: Cid, t: Tid)
    requires Shape(s) && CanSchedule(s)
    ensures Handshake(s, log, c, t) ==> Handshake(Schedule(s), log, c, t)
    ensures Own(s) ==> Own(Schedule(s))
  {
    hide Placed, GroupOk, OwnerOk, ThreadOk, TcbRefs, Tells;
    forall u | 0 <= u < |s.threads|
      ensures Stays(s.threads[u], Schedule(s).threads[u])
    {
      ScheduleStays(s, u);
    }
  }

  // ----- every run -----

  lemma NotInvolved(s: State, call: Call, d: Cid)
    requires Refs(s) && CallRefs(s, call) && d >= |s.chans|
    ensures !Involved(s, call, d)
  {
    assert TcbRefs(s, s.Cur());
    if call.Join? { ChlRefs(s, call.child); }
  }

  /** Nothing has been said of a channel that does not exist yet. */
  lemma {:induction false} RunOwn(worlds: seq<World>, calls: seq<Call>, i: nat, d: Cid)
    requires Run(worlds, calls) && i < |worlds|
    ensures Own(worlds[i].s)
    ensures d >= |worlds[i].s.chans| ==> forall e :: e in worlds[i].log ==> Foreign(e, d)
  {
    hide Inv, Kin, Own, CanSchedule, Body, Permitted, Foreign, Involved, Schedule, Placed, Refs;
    if i == 0 {
      StartOwn();
    } else {
      RunOwn(worlds, calls, i - 1, d);
      RunInv(worlds, calls, i - 1);
      var s, call := worlds[i - 1].s, calls[i - 1];
      OwnStep(s, call, d);
    }
  }

  lemma StartOwn()
    ensures Own(Start())
  {
  }

  lemma OwnStep(s: State, call: Call, d: Cid)
    requires Inv(s) && Kin(s) && Own(s) && Enabled(s, call)
    ensures Own(Exec(s, call)) && |Exec(s, call).chans| >= |s.chans|
    ensures d >= |s.chans| ==> forall e :: e in Body(s, call).ev ==> Foreign(e, d)
  {
    hide Body, Own, Permitted, Foreign, Involved, Contents, TcbRefs, ThreadOk, GroupOk, OwnerOk;
    OwnBody(s, call);
    BodyGood(s, call);
    ChansGrow(s, call);
    if Body(s, call).schedules {
      ScheduleHandshake(Body(s, call).s, [], 0, 0);
    }
    if d >= |s.chans| {
      NotInvolved(s, call, d);
      BodyForeign(s, call, d);
    }
  }

  lemma StepHandshake(s: State, log: seq<Event>, call: Call, c: Cid, t: Tid)
    requires Inv(s) && Kin(s) && Enabled(s, call) && Handshake(s, log, c, t)
    requires |SentIn(log, c)| == |ReturnedIn(log, c)| + |InFlight(s, c)| + StraysIn(log, c)
    ensures Handshake(Exec(s, call), log + Body(s, call).ev, c, t)
  {
    hide Body, Moves, Handshake, Own, Permitted, Contents, TcbRefs, ThreadOk, GroupOk, OwnerOk, InFlight;
    BodyMoves(s, log, call, c, t);
    var o := Body(s, call);
    Extended(s, log, o, c, t);
    BodyGood(s, call);
    if o.schedules {
      ScheduleHandshake(o.s, log + o.ev, c, t);
    }
  }

  lemma StepBegins(s: State, log: seq<Event>, call: Call, c: Cid) returns (t: Tid)
    requires Inv(s) && Kin(s) && Enabled(s, call) && Own(s) && forall e :: e in log ==> Foreign(e, |s.chans|)
    requires c < |Exec(s, call).chans| && Exec(s, call).chans[c].private && c >= |s.chans|
    ensures Handshake(Exec(s, call), log + Body(s, call).ev, c, t)
  {
    hide Own, Permitted, Contents, TcbRefs, ThreadOk, GroupOk, OwnerOk, Tells, Handshake, Foreign;
    hide SndBody, RcvBody, DieBody, JoinBody, WaitBody, YieldBody, ContinueBody, CreateBody, GroupAddBody, GroupRemBody;
    ChansGrow(s, call);
    assert call.Create?;
    t := Created(s);
    ForeignTells(log, c, t);
    CreateBegins(s, log, call.nojoin);
    CreateReturns(s, call.nojoin);
  }

  lemma CreateReturns(s: State, nojoin: bool)
    requires Refs(s)
    ensures !CreateBody(s, nojoin).schedules
  {
  }

  lemma StartHandshake()
    ensures Handshake(Start(), [], 0, 0)
  {
    ForeignTells([], 0, 0);
    TellsWhat([], 0, 0, [], [], 0);
  }

  lemma {:induction false} RunHandshake(worlds: seq<World>, calls: seq<Call>, i: nat, c: Cid) returns (t: Tid)
    requires Run(worlds, calls) && i < |worlds| && c < |worlds[i].s.chans| && worlds[i].s.chans[c].private
    ensures Handshake(worlds[i].s, worlds[i].log, c, t)
  {
    hide Inv, Kin, Own, CanSchedule, Body, Permitted, Foreign, Handshake, Exec, Placed, Refs, InFlight;
    if i == 0 {
      t := 0;
      StartHandshake();
      assert c == 0;
    } else {
      RunInv(worlds, calls, i - 1);
      var s, log, call := worlds[i - 1].s, worlds[i - 1].log, calls[i - 1];
      RunOwn(worlds, calls, i - 1, |s.chans|);
      if c < |s.chans| {
        StillPrivate(s, call, c);
        t := RunHandshake(worlds, calls, i - 1, c);
        RunFlow(worlds, calls, i - 1, c);
        StepHandshake(s, log, call, c, t);
      } else {
        t := StepBegins(s, log, call, c);
      }
    }
  }

  lemma StillPrivate(s: State, call: Call, c: Cid)
    requires Inv(s) && Kin(s) && Enabled(s, call) && c < |s.chans|
    requires c < |Exec(s, call).chans| && Exec(s, call).chans[c].private
    ensures s.chans[c].private
  {
    hide Placed, ThreadOk, GroupOk, OwnerOk, Contents, TcbRefs, Permitted;
    if call.Create? {
      hide CreateBody;
      CreateFacts(s, call.nojoin);
    } else if !call.MakeChan? {
      hide Body;
      BodyKin(s, call);
    }
  }

  /** The join handshake, in every state of every run, for the channel c a thread t
      was created with: t calls lwt_die at most once on it, its word is either still
      in flight or has been returned by the one completed join, t enters the recycle
      queue at most once, after it has died, and is there exactly once when its
      life is over. */
  lemma JoinHandshake(worlds: seq<World>, calls: seq<Call>, i: nat, c: Cid) returns (t: Tid)
    requires Run(worlds, calls) && i < |worlds| && c < |worlds[i].s.chans| && worlds[i].s.chans[c].private
    ensures Refs(worlds[i].s) && t < |worlds[i].s.threads|
    ensures
      var (s, log) := (worlds[i].s, worlds[i].log);
      && Named(log, c, t)
      && |DiedIn(log, c)| <= 1
      && DiedIn(log, c) == JoinedIn(log, c) + InFlight(s, c)
      && (DiedIn(log, c) == [] <==> Alive(s.threads[t], c))
      && ExitsIn(log, c) == Count1(Gone(s.threads[t], c)) <= |DiedIn(log, c)|
  {
    hide InFlight;
    RunInv(worlds, calls, i);
    t := RunHandshake(worlds, calls, i, c);
    FifoLog(worlds, calls, i, c);
  }

  lemma {:induction false} DiedSomewhere(log: seq<Event>, c: Cid)
    ensures forall v :: v in DiedIn(log, c) <==> exists t :: Died(t, c, v) in log
    ensures forall v :: v in JoinedIn(log, c) <==> exists t :: Joined(t, c, v) in log
  {
    if log != [] {
      DiedSomewhere(log[1..], c);
      assert log == [log[0]] + log[1..];
    }
  }

  /** Whoever arrives first, a completed join returns exactly the value its child
      passed to lwt_die. */
  lemma JoinReturnsLastWord(worlds: seq<World>, calls: seq<Call>, i: nat, child: Tid, c: Cid, v: Value)
    requires Run(worlds, calls) && i < |worlds| && c < |worlds[i].s.chans| && worlds[i].s.chans[c].private
    requires Joined(child, c, v) in worlds[i].log
    ensures Died(child, c, v) in worlds[i].log
    ensures forall t, w :: Died(t, c, w) in worlds[i].log ==> t == child && w == v
  {
    hide Run, Alive, Gone, InFlight, Named;
    var t := JoinHandshake(worlds, calls, i, c);
    WordsAgree(worlds[i].log, c, t, InFlight(worlds[i].s, c), child, v);
  }

  lemma WordsAgree(log: seq<Event>, c: Cid, t: Tid, rest: seq<Value>, child: Tid, v: Value)
    requires Named(log, c, t) && |DiedIn(log, c)| <= 1 && DiedIn(log, c) == JoinedIn(log, c) + rest
    requires Joined(child, c, v) in log
    ensures Died(child, c, v) in log
    ensures forall u, w :: Died(u, c, w) in log ==> u == child && w == v
  {
    DiedSomewhere(log, c);
    assert v in JoinedIn(log, c) && v in DiedIn(log, c);
    assert DiedIn(log, c) == [v];
    forall u, w | Died(u, c, w) in log
      ensures u == child && w == v
    {
      assert w in DiedIn(log, c);
    }
  }

  // ----- joins that may be made -----

  /** lwt_join is refused exactly to those who are not the parent, and for threads that
      were created not to be joined. */
  lemma JoinRefusedWhen(s: State, child: Tid)
    requires Refs(s) && child < |s.threads|
    ensures Failed in JoinBody(s, child).ev <==> s.threads[child].parent != Some(s.current) || s.threads[child].nojoin
    ensures Failed in JoinBody(s, child).ev ==> JoinBody(s, child).s == s && !JoinBody(s, child).schedules
  {
    hide RcvBody, YieldBody, TcbRefs;
    var c := s.threads[child].chl;
    ChlRefs(s, child);
    RcvEvents(s, c, JoinReturn(child, c));
    RcvKin(s, c, JoinReturn(child, c));
    assert Failed in [Failed];
  }

  /** A join that is not refused completes at once if and only if the child's channel
      has something to receive. */
  lemma JoinCompletesWhen(s: State, child: Tid)
    requires Inv(s) && child < |s.threads|
    requires s.threads[child].parent == Some(s.current) && !s.threads[child].nojoin
    ensures s.threads[child].chl < |s.chans|
    ensures
      var c, ev := s.threads[child].chl, JoinBody(s, child).ev;
      if s.chans[c].ready then exists v :: ev == [Returned(c, v), Joined(child, c, v)]
      else ev == [] && JoinBody(s, child).schedules
  {
    hide RcvBody, YieldBody, TcbRefs, Placed, ThreadOk, GroupOk, OwnerOk, Contents;
    var c := s.threads[child].chl;
    ChlRefs(s, child);
    RcvEvents(s, c, JoinReturn(child, c));
    RcvReady(s, c, JoinReturn(child, c));
    RcvKin(s, c, JoinReturn(child, c));
    var o := RcvBody(s, c, JoinReturn(child, c));
    if !o.schedules {
      assert JoinBody(s, child).ev == [Returned(c, o.ev[0].v), Joined(child, c, o.ev[0].v)];
    }
  }

  /** What is in flight on the child's channel is what its parent's join gets. */
  lemma JoinGets(s: State, child: Tid, v: Value)
    requires Inv(s) && Kin(s) && Enabled(s, Join(child)) && s.threads[child].chl < |s.chans|
    requires s.threads[child].parent == Some(s.current) && !s.threads[child].nojoin
    requires s.chans[s.threads[child].chl].Size() == 0 && InFlight(s, s.threads[child].chl) == [v]
    ensures JoinBody(s, child).ev == [Returned(s.threads[child].chl, v), Joined(child, s.threads[child].chl, v)]
    ensures |s.rings[Senders(s.threads[child].chl)]| == 1
  {
    hide RcvBody, YieldBody, TcbRefs, Placed, ThreadOk, GroupOk, OwnerOk, Contents;
    var c := s.threads[child].chl;
    IdleHoldsNothing(s, c);
    assert ChanRefs(s, s.chans[c]);
    InFlightOf(s, c);
    assert Buffered(s.chans[c]) == [];
    var queue := s.rings[Senders(c)];
    assert [] + [] + Messages(s.threads, queue) == Messages(s.threads, queue);
    assert |queue| == 1 && Messages(s.threads, queue)[0] == v;
    DirectBody(s, c, JoinReturn(child, c));
    RcvKin(s, c, JoinReturn(child, c));
    RcvBlocksNot(s, c, JoinReturn(child, c));
  }

  lemma RcvBlocksNot(s: State, c: Cid, rest: Cont)
    requires Refs(s) && c < |s.chans| && RcvBody(s, c, rest).ev != []
    ensures !RcvBody(s, c, rest).schedules
  {
    hide RcvBody;
    RcvEvents(s, c, rest);
  }

  /** Once a child has died with v and nobody has joined it, its parent's join is not
      refused, does not block, and returns v. */
  lemma JoinOfTheDead(worlds: seq<World>, calls: seq<Call>, i: nat, child: Tid, c: Cid, v: Value)
    requires Run(worlds, calls) && i < |worlds| && Enabled(worlds[i].s, Join(child))
    requires worlds[i].s.threads[child].chl == c && Died(child, c, v) in worlds[i].log
    requires forall t, w :: Joined(t, c, w) !in worlds[i].log
    requires worlds[i].s.threads[child].parent == Some(worlds[i].s.current) && !worlds[i].s.threads[child].nojoin
    ensures Body(worlds[i].s, Join(child)).ev == [Returned(c, v), Joined(child, c, v)]
  {
    hide Run, Refs, Permitted, CanSchedule, Alive, Gone, InFlight, Named, JoinBody, DiedIn, JoinedIn;
    var s, log := worlds[i].s, worlds[i].log;
    RunInv(worlds, calls, i);
    ChlRefs(s, child);
    var t := JoinHandshake(worlds, calls, i, c);
    OwnSize(worlds, calls, i, c);
    DiedSomewhere(log, c);
    OneWord(DiedIn(log, c), JoinedIn(log, c), InFlight(s, c), v);
    JoinGets(s, child, v);
  }

  lemma OneWord(died: seq<Value>, joined: seq<Value>, rest: seq<Value>, v: Value)
    requires |died| <= 1 && died == joined + rest && v in died && forall w :: w !in joined
    ensures rest == [v]
  {
    SomeOrNone(joined);
    assert [] + rest == rest;
  }

  lemma SomeOrNone(q: seq<Value>)
    ensures q == [] || exists w :: w in q
  {
    if q != [] {
      var w := q[0];
      assert w in q;
    }
  }

  lemma OwnSize(worlds: seq<World>, calls: seq<Call>, i: nat, c: Cid)
    requires Run(worlds, calls) && i < |worlds| && c < |worlds[i].s.chans| && worlds[i].s.chans[c].private
    ensures worlds[i].s.chans[c].Size() == 0
  {
    hide Run;
    var t := RunHandshake(worlds, calls, i, c);
  }
}
