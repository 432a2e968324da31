/** What a thread, a channel or a group that was made stays: joinable or not, of the
    size asked for, referred to by so many, owned by its maker. */
module LwtHandles {
  import opened Options
  import opened Lwt
  import opened LwtCalls
  import opened LwtFifo
  import opened LwtJoin

  /** The switch at the end of a call touches neither channels nor groups, and of the
      threads only states. */
  lemma SwitchKeeps(s: State, call: Call)
    requires Enabled(s, call)
    ensures
      var o, s' := Body(s, call), Exec(s, call);
      && s'.chans == o.s.chans && s'.groups == o.s.groups && |s'.threads| == |o.s.threads|
      && forall t :: 0 <= t < |s'.threads| ==> s'.threads[t] == o.s.threads[t].(state := s'.threads[t].state)
  {
    hide Body, Refs, CallRefs, Permitted;
  }

  // ----- the size of a channel -----

  lemma SizeStep(s: State, call: Call, c: Cid)
    requires Enabled(s, call) && c < |s.chans|
    ensures c < |Exec(s, call).chans|
    ensures Exec(s, call).chans[c].Size() == s.chans[c].Size() && Exec(s, call).chans[c].private == s.chans[c].private
  {
    hide CreateBody, Permitted, CanSchedule, SameKin, Exec, TcbRefs;
    SwitchKeeps(s, call);
    if call.Create? {
      CreateFacts(s, call.nojoin);
    } else if !call.MakeChan? {
      hide Body;
      BodyKin(s, call);
      KinOfChan(s, Body(s, call).s, c);
    }
  }

  /** A channel made with lwt_chan(n) has n slots for ever. */
  lemma {:induction false} Capacity(worlds: seq<World>, calls: seq<Call>, i: nat, j: nat)
    requires Run(worlds, calls) && i < j < |worlds| && calls[i].MakeChan?
    ensures |worlds[i].s.chans| < |worlds[j].s.chans|
    ensures
      var ch := worlds[j].s.chans[|worlds[i].s.chans|];
      ch.Size() == calls[i].size && !ch.private
    decreases j
  {
    hide Permitted, CanSchedule, Refs;
    if j == i + 1 {
      assert worlds[i + 1] == Next(worlds[i], calls[i]);
    } else {
      hide Body, Exec;
      Capacity(worlds, calls, i, j - 1);
      SizeStep(worlds[j - 1].s, calls[j - 1], |worlds[i].s.chans|);
    }
  }

  /** A send blocks exactly if there is a receiver, it does not wait for this channel,
      and as many messages are unread as there are slots. */
  lemma SendBlocksWhen(s: State, c: Cid, v: Value)
    requires Refs(s) && c < |s.chans|
    ensures s.chans[c].head <= s.chans[c].tail <= s.chans[c].head + s.chans[c].Size()
    ensures SndBody(s, c, v, SndReturn(c)).schedules <==>
      && s.chans[c].receiver.Some? && !WaitsFor(s.threads[s.chans[c].receiver.value], c)
      && |Buffered(s.chans[c])| == s.chans[c].Size()
  {
    hide TcbRefs, Resume, Signal, Block, Put;
    assert ChanRefs(s, s.chans[c]);
  }

  /** lwt_snd on a channel made with lwt_chan(n), whose receiver does not wait for it,
      blocks if and only if n messages are unread. */
  lemma SendBlocksWhenFull(worlds: seq<World>, calls: seq<Call>, i: nat, j: nat, v: Value)
    requires Run(worlds, calls) && i < j < |worlds| && calls[i].MakeChan?
    requires Enabled(worlds[j].s, Snd(|worlds[i].s.chans|, v))
    ensures
      var s, c := worlds[j].s, |worlds[i].s.chans|;
      && Refs(s) && s.chans[c].head <= s.chans[c].tail <= s.chans[c].head + s.chans[c].Size()
      && (s.chans[c].receiver.Some? && !WaitsFor(s.threads[s.chans[c].receiver.value], c) ==>
            (Body(s, Snd(c, v)).schedules <==> |Buffered(s.chans[c])| == calls[i].size))
      && (s.chans[c].receiver == None ==> !Body(s, Snd(c, v)).schedules)
  {
    hide Permitted, CanSchedule, Refs, SndBody, Exec, Start, Buffered, WaitsFor;
    Capacity(worlds, calls, i, j);
    SendBlocksWhen(worlds[j].s, |worlds[i].s.chans|, v);
  }

  // ----- who refers to a channel -----

  lemma HoldStep(s: State, call: Call, c: Cid)
    requires Enabled(s, call) && c < |s.chans| && call != Deref(c) && call != Share(c)
    ensures c < |Exec(s, call).chans| && SameHold(s.chans[c], Exec(s, call).chans[c])
  {
    hide CreateBody, Permitted, CanSchedule, SameKin, Exec, TcbRefs;
    SwitchKeeps(s, call);
    if call.Create? {
      CreateFacts(s, call.nojoin);
    } else if !call.MakeChan? && !call.Deref? && !call.Share? {
      hide Body;
      BodyFirm(s, call);
      FirmOfChan(s, Body(s, call).s, c);
    }
  }

  lemma FirmOfChan(s: State, s': State, c: Cid)
    requires Firm(s, s') && c < |s.chans|
    ensures c < |s'.chans| && SameHold(s.chans[c], s'.chans[c])
  {
  }

  function Occurs(calls: seq<Call>, call: Call): nat {
    if calls == [] then 0 else Occurs(calls[..|calls| - 1], call) + Count1(calls[|calls| - 1] == call)
  }

  /** Thread r lets go of channel c between the calls i and j. */
  ghost predicate LetGo(worlds: seq<World>, calls: seq<Call>, i: nat, j: nat, c: Cid, r: Tid)
    requires i <= j <= |calls| < |worlds|
  {
    exists k :: i <= k < j && calls[k] == Deref(c) && worlds[k].s.current == r
  }

  /** Somewhere between the calls i and j the last reference goes: the receiver's is
      gone, and there have been as many derefs as sharers and the receiver. */
  ghost predicate LastGone(worlds: seq<World>, calls: seq<Call>, i: nat, j: nat, c: Cid, r: Tid)
    requires i <= j <= |calls| < |worlds|
  {
    exists k :: i <= k < j && GoneAt(worlds, calls, i, k, c, r)
  }

  ghost predicate GoneAt(worlds: seq<World>, calls: seq<Call>, i: nat, k: nat, c: Cid, r: Tid)
    requires i <= k < |calls| < |worlds|
  {
    && calls[k] == Deref(c) && LetGo(worlds, calls, i, k + 1, c, r)
    && Occurs(calls[i..k + 1], Deref(c)) == Occurs(calls[i..k + 1], Share(c)) + 1
  }

  ghost predicate References(worlds: seq<World>, calls: seq<Call>, i: nat, j: nat, c: Cid, r: Tid)
    requires i <= j <= |calls| < |worlds|
  {
    && c < |worlds[j].s.chans|
    && var ch, gone := worlds[j].s.chans[c], LetGo(worlds, calls, i, j, c, r);
       && ch.receiver == (if gone then None else Some(r))
       && ch.sndCnt == Occurs(calls[i..j], Share(c)) - Occurs(calls[i..j], Deref(c)) + Count1(gone)
       && (ch.freed <==> LastGone(worlds, calls, i, j, c, r))
  }

  /** In every state of every run: a channel's receiver is its maker until the maker lets
      go of it, its sender count is the number of times it was shared less the number of
      senders that let go, and it has been freed exactly if the last of them all has. */
  lemma {:induction false} ReferenceCount(worlds: seq<World>, calls: seq<Call>, i: nat, j: nat)
    requires Run(worlds, calls) && i < j < |worlds| && calls[i].MakeChan?
    ensures References(worlds, calls, i + 1, j, |worlds[i].s.chans|, worlds[i].s.current)
    decreases j
  {
    hide Permitted, CanSchedule, Refs, Body, Exec, References;
    var c, r := |worlds[i].s.chans|, worlds[i].s.current;
    if j == i + 1 {
      assert worlds[i + 1] == Next(worlds[i], calls[i]);
      ReferenceStart(worlds, calls, i);
    } else {
      ReferenceCount(worlds, calls, i, j - 1);
      ReferenceStep(worlds, calls, i + 1, j - 1, c, r);
    }
  }

  lemma NewChannel(s: State, size: nat)
    requires Enabled(s, MakeChan(size))
    ensures |Exec(s, MakeChan(size)).chans| == |s.chans| + 1
    ensures
      var ch := Exec(s, MakeChan(size)).chans[|s.chans|];
      ch.receiver == Some(s.current) && ch.sndCnt == 0 && !ch.freed && ch.Size() == size && !ch.private
  {
    hide TcbRefs, CanSchedule;
  }

  lemma ReferenceStart(worlds: seq<World>, calls: seq<Call>, i: nat)
    requires i < |calls| < |worlds| && calls[i].MakeChan? && Enabled(worlds[i].s, calls[i])
    requires worlds[i + 1].s == Exec(worlds[i].s, calls[i])
    ensures References(worlds, calls, i + 1, i + 1, |worlds[i].s.chans|, worlds[i].s.current)
  {
    hide Enabled, Exec;
    NewChannel(worlds[i].s, calls[i].size);
    assert calls[i + 1..i + 1] == [];
  }

  lemma OccursNext(calls: seq<Call>, i: nat, k: nat, call: Call)
    requires i <= k < |calls|
    ensures Occurs(calls[i..k + 1], call) == Occurs(calls[i..k], call) + Count1(calls[k] == call)
  {
    assert calls[i..k + 1][..k - i] == calls[i..k];
  }

  lemma ReferenceStep(worlds: seq<World>, calls: seq<Call>, i: nat, k: nat, c: Cid, r: Tid)
    requires Run(worlds, calls) && i <= k < |calls| && References(worlds, calls, i, k, c, r)
    ensures References(worlds, calls, i, k + 1, c, r)
  {
    hide Refs, CanSchedule, Body, Exec, Occurs;
    var s, call := worlds[k].s, calls[k];
    assert worlds[k + 1] == Next(worlds[k], call);
    OccursNext(calls, i, k, Deref(c));
    OccursNext(calls, i, k, Share(c));
    LetGoNext(worlds, calls, i, k, c, r);
    GoneNext(worlds, calls, i, k, c, r);
    if call == Deref(c) || call == Share(c) {
      HoldChanges(s, call, c);
    } else {
      HoldStep(s, call, c);
    }
  }

  lemma LetGoNext(worlds: seq<World>, calls: seq<Call>, i: nat, k: nat, c: Cid, r: Tid)
    requires i <= k < |calls| < |worlds|
    ensures LetGo(worlds, calls, i, k + 1, c, r) <==>
      LetGo(worlds, calls, i, k, c, r) || (calls[k] == Deref(c) && worlds[k].s.current == r)
  {
  }

  lemma GoneNext(worlds: seq<World>, calls: seq<Call>, i: nat, k: nat, c: Cid, r: Tid)
    requires i <= k < |calls| < |worlds|
    ensures LastGone(worlds, calls, i, k + 1, c, r) <==>
      LastGone(worlds, calls, i, k, c, r) || GoneAt(worlds, calls, i, k, c, r)
  {
    hide GoneAt;
  }

  lemma HoldChanges(s: State, call: Call, c: Cid)
    requires Enabled(s, call) && c < |s.chans| && (call == Deref(c) || call == Share(c))
    ensures c < |Exec(s, call).chans|
    ensures
      var ch, ch' := s.chans[c], Exec(s, call).chans[c];
      && !ch.freed
      && ch'.receiver == (if call.Deref? && ch.receiver == Some(s.current) then None else ch.receiver)
      && ch'.sndCnt == ch.sndCnt + (if call.Share? then 1 else if ch.receiver == Some(s.current) then 0 else -1)
      && (ch'.freed <==> call.Deref? && ch'.sndCnt == 0 && ch'.receiver == None)
  {
    hide TcbRefs, CanSchedule;
  }

  // ----- whose child a thread is -----

  /** Only lwt_create gives a thread another channel, parent or mark. */
  lemma ThreadStep(s: State, call: Call, t: Tid)
    requires Enabled(s, call) && t < |Exec(s, call).threads|
    ensures
      var y := Exec(s, call).threads[t];
      if call.Create? && t == Created(s) then
        y.chl == |s.chans| && y.parent == Some(s.current) && y.nojoin == call.nojoin
      else
        && t < |s.threads| && s.threads[t].chl < |s.chans|
        && y.chl == s.threads[t].chl && y.parent == s.threads[t].parent && y.nojoin == s.threads[t].nojoin
  {
    hide CreateBody, Permitted, CanSchedule, SameKin, Exec, TcbRefs;
    SwitchKeeps(s, call);
    if t < |s.threads| {
      ChlRefs(s, t);
    }
    if call.Create? {
      CreateFacts(s, call.nojoin);
    } else if !call.MakeChan? {
      hide Body;
      BodyKin(s, call);
      KinOfThread(s, Body(s, call).s, t);
    }
  }

  lemma KinOfThread(s: State, s': State, t: Tid)
    requires SameKin(s, s') && t < |s'.threads|
    ensures t < |s.threads|
    ensures
      var x, y := s.threads[t], s'.threads[t];
      y.chl == x.chl && y.parent == x.parent && y.nojoin == x.nojoin
  {
  }

  /** A thread in the life that a call of lwt_create began: it has the channel made then. */
  ghost predicate InLife(w: World, calls: seq<Call>, i: nat, was: State, t: Tid)
    requires i < |calls|
  {
    calls[i].Create? && t < |w.s.threads| && w.s.threads[t].chl == |was.chans|
  }

  /** As long as that life lasts, the thread is the one that lwt_create returned, its
      parent is the caller, and it is joinable or not as was asked for. */
  lemma {:induction false} Lineage(worlds: seq<World>, calls: seq<Call>, i: nat, j: nat, t: Tid)
    requires Run(worlds, calls) && i < j < |worlds| && InLife(worlds[j], calls, i, worlds[i].s, t)
    ensures Refs(worlds[i].s) && t == Created(worlds[i].s)
    ensures worlds[j].s.threads[t].parent == Some(worlds[i].s.current)
    ensures worlds[j].s.threads[t].nojoin == calls[i].nojoin
    decreases j
  {
    hide Permitted, CanSchedule, Refs, Body, Exec;
    var s, call := worlds[j - 1].s, calls[j - 1];
    assert worlds[j - 1 + 1] == Next(worlds[j - 1], call);
    ThreadStep(s, call, t);
    if i < j - 1 {
      ChannelAdded(worlds, calls, i, j - 1);
      Lineage(worlds, calls, i, j - 1, t);
    } else {
      CreatedRefs(s, call);
    }
  }

  lemma CreatedRefs(s: State, call: Call)
    requires Enabled(s, call) && call.Create?
    ensures Refs(s) && |s.chans| < |Exec(s, call).chans|
  {
    hide CreateBody, Permitted, CanSchedule, TcbRefs;
    SwitchKeeps(s, call);
    CreateFacts(s, call.nojoin);
  }

  lemma ChansStep(s: State, call: Call)
    requires Enabled(s, call)
    ensures |s.chans| <= |Exec(s, call).chans|
  {
    hide Body, Exec, Permitted, CanSchedule;
    if s.chans != [] {
      SizeStep(s, call, |s.chans| - 1);
    }
  }

  lemma {:induction false} ChannelAdded(worlds: seq<World>, calls: seq<Call>, i: nat, j: nat)
    requires Run(worlds, calls) && i < j < |worlds| && calls[i].Create?
    ensures |worlds[i].s.chans| < |worlds[j].s.chans|
    decreases j
  {
    hide Permitted, CanSchedule, Refs, Body, Exec;
    assert worlds[j - 1 + 1] == Next(worlds[j - 1], calls[j - 1]);
    if j == i + 1 {
      CreatedRefs(worlds[i].s, calls[i]);
    } else {
      ChannelAdded(worlds, calls, i, j - 1);
      ChansStep(worlds[j - 1].s, calls[j - 1]);
    }
  }

  /** A join of a thread in that life is refused exactly to those who did not make it,
      and to its maker too if it was made with LWT_NOJOIN. */
  lemma JoinMayBe(worlds: seq<World>, calls: seq<Call>, i: nat, j: nat, child: Tid)
    requires Run(worlds, calls) && i < j < |worlds| && InLife(worlds[j], calls, i, worlds[i].s, child)
    requires Enabled(worlds[j].s, Join(child))
    ensures Failed in Body(worlds[j].s, Join(child)).ev <==>
      worlds[j].s.current != worlds[i].s.current || calls[i].nojoin
  {
    hide Permitted, CanSchedule, Refs, JoinBody, Exec, Start;
    Lineage(worlds, calls, i, j, child);
    JoinRefusedWhen(worlds[j].s, child);
  }
}
