/** The library in use: the kernel thread's object together with the history of the
    calls made on it.  The history is a run of the machine, so that every law over
    runs holds of the object. */
module LwtLibrary {
  import opened Lwt
  import opened LwtShape
  import opened LwtCalls
  import opened LwtFifo
  import opened LwtJoin
  import opened LwtGroups
  import opened LwtKthd

  class Library {
    const kthd: Kthd
    ghost var worlds: seq<World>
    ghost var calls: seq<Call>

    ghost predicate Valid()
      reads this, kthd
    {
      Run(worlds, calls) && worlds[|calls|].s == kthd.St()
    }

    ghost function Log(): seq<Event>
      reads this
    {
      if worlds == [] then [] else worlds[|worlds| - 1].log
    }

    constructor ()
      ensures Valid() && fresh(kthd) && calls == [] && Log() == []
    {
      kthd := new Kthd();
      worlds := [World(Start(), [], 0)];
      calls := [];
    }

    /** Any call by the current thread, and what its caller gets. */
    method Invoke(call: Call) returns (answer: Answer)
      requires Valid() && Enabled(kthd.St(), call)
      modifies this, kthd
      ensures Valid() && calls == old(calls) + [call]
      ensures answer == AnswerOf(old(kthd.St()), call) && Log() == old(Log()) + Body(old(kthd.St()), call).ev
    {
      hide Inv, Kin, Body, Exec, Start, AnswerOf, Refs, CallRefs, Permitted, CanSchedule;
      RunInv(worlds, calls, |calls|);
      ghost var ev;
      answer, ev := kthd.Step(call);
      worlds := worlds + [Next(worlds[|calls|], call)];
      calls := calls + [call];
    }
  }

  /** What the object's callers have received from a channel, followed by what is in
      flight, is what was sent on it, unless some of it went to a stale receiver. */
  lemma InOrder(lib: Library, c: Cid)
    requires lib.Valid()
    ensures Refs(lib.kthd.St())
    ensures
      SentIn(lib.Log(), c) == ReturnedIn(lib.Log(), c) + InFlight(lib.kthd.St(), c)
      <==> NeverStray(lib.worlds, lib.calls, |lib.calls|, c)
  {
    hide NeverStray, SentIn, ReturnedIn, InFlight, Refs, Start, Exec, Body;
    Fifo(lib.worlds, lib.calls, |lib.calls|, c);
  }

  /** What lwt_rcv or lwt_join hands to its caller is what the log says it took. */
  lemma WordsAreLogged(s: State, call: Call, v: Value)
    requires Refs(s) && CallRefs(s, call) && AnswerOf(s, call) == Word(v)
    ensures exists e :: e in Body(s, call).ev && ((e.Returned? && e.v == v) || (e.Joined? && e.v == v))
  {
    hide Refs, CallRefs, Body;
    var ev := Body(s, call).ev;
    assert ev[|ev| - 1] in ev;
  }

  /** A join on the object returned what the child died with. */
  lemma JoinedWord(lib: Library, child: Tid, c: Cid, v: Value)
    requires lib.Valid() && Joined(child, c, v) in lib.Log()
    requires c < |lib.kthd.St().chans| && lib.kthd.St().chans[c].private
    ensures Died(child, c, v) in lib.Log()
    ensures forall t, w :: Died(t, c, w) in lib.Log() ==> t == child && w == v
  {
    hide Start, Exec, Body;
    JoinReturnsLastWord(lib.worlds, lib.calls, |lib.calls|, child, c, v);
  }

  /** If lwt_cgrp_wait returned c in the i-th call and c has not been received from
      since, receiving from it now returns at once, with a word. */
  lemma AtOnce(lib: Library, i: nat, g: Gid, c: Cid)
    requires lib.Valid() && i < |lib.calls| && Ready(g, c) in Body(lib.worlds[i].s, lib.calls[i]).ev
    requires forall k :: i < k < |lib.calls| ==> lib.calls[k] != Rcv(c)
    requires Enabled(lib.kthd.St(), Rcv(c))
    ensures !Body(lib.kthd.St(), Rcv(c)).schedules && AnswerOf(lib.kthd.St(), Rcv(c)).Word?
  {
    hide CanSchedule, Body, Permitted, Refs, Exec, Start;
    var n := |lib.calls|;
    RunInv(lib.worlds, lib.calls, i);
    WaitReturnsReady(lib.worlds[i].s, lib.calls[i], g, c);
    assert GroupOk(lib.worlds[i].s, g);
    assert IsReady(lib.worlds[i + 1].s, c);
    ReadyUntilTaken(lib.worlds, lib.calls, i + 1, n, c);
    RunInv(lib.worlds, lib.calls, n);
    RcvReturns(lib.kthd.St(), c);
  }
}
