/** The scheduler's critical section (sl.h, sl.c): one word holding the owner's
    thread capability in 31 bits and a contention bit above them, changed by
    compare-and-swap only.  Threads interleave between any two atomic actions. */
module CsLock {

  const CONTENTION: nat := 0x8000_0000

  type Cap = c: nat | 0 < c < CONTENTION witness 1

  /** The bit fields of the lock word. */
  function Owner(word: nat): nat { word % CONTENTION }

  predicate Contended(word: nat) { word / CONTENTION % 2 == 1 }

  function WithOwner(word: nat, t: Cap): nat { word - Owner(word) + t }

  function WithContention(word: nat): nat { if Contended(word) then word else word + CONTENTION }

  /** Where a thread is: between calls, in front of its next atomic action, or in
      the critical section.  cached is its copy of the word. */
  datatype Pc =
    | Out
    | EnterRead
    | EnterCas(cached: nat)
    | MarkCas(cached: nat)
    | SwitchToOwner
    | In
    | ExitRead
    | ExitCas(cached: nat)
    | ExitContendedCas(cached: nat)
    | SwitchToSched

  datatype State = State(word: nat, pcs: map<Cap, Pc>)

  /** Between the CAS that completes sl_cs_enter and the one that releases. */
  predicate Holds(pc: Pc) { pc.In? || pc.ExitRead? || pc.ExitCas? || pc.ExitContendedCas? }

  /** One atomic action of thread t: the word and its place afterwards. */
  function Act(word: nat, pc: Pc, t: Cap): (nat, Pc) {
    match pc
    case Out => (word, EnterRead)
    case EnterRead =>
      if Owner(word) == 0 then (word, EnterCas(word))
      else if !Contended(word) then (word, MarkCas(word))
      else (word, SwitchToOwner)
    case EnterCas(cached) => if word == cached then (WithOwner(cached, t), In) else (word, EnterRead)
    case MarkCas(cached) => if word == cached then (WithContention(cached), SwitchToOwner) else (word, EnterRead)
    case SwitchToOwner => (word, EnterRead)
    case In => (word, ExitRead)
    case ExitRead => if Contended(word) then (word, ExitContendedCas(word)) else (word, ExitCas(word))
    case ExitCas(cached) => if word == cached then (0, Out) else (word, ExitRead)
    case ExitContendedCas(cached) => if word == cached then (0, SwitchToSched) else (word, ExitRead)
    case SwitchToSched => (word, Out)
  }

  function Step(s: State, t: Cap): State
    requires t in s.pcs
  {
    var (word, pc) := Act(s.word, s.pcs[t], t);
    State(word, s.pcs[t := pc])
  }

  ghost predicate Init(s: State) {
    s.word == 0 && forall t :: t in s.pcs ==> s.pcs[t] == Out
  }

  /** A run: who acts at each instant is arbitrary. */
  ghost predicate Run(states: seq<State>, who: seq<Cap>) {
    && |states| == |who| + 1 && Init(states[0])
    && forall i :: 0 <= i < |who| ==> who[i] in states[i].pcs && states[i + 1] == Step(states[i], who[i])
  }

  ghost predicate PcOk(word: nat, pc: Pc, t: Cap) {
    && (Holds(pc) <==> Owner(word) == t)
    && match pc
       case EnterCas(cached) => cached == 0
       case MarkCas(cached) => 0 < cached < CONTENTION
       case ExitCas(cached) => cached == t
       case ExitContendedCas(cached) => cached == t + CONTENTION
       case _ => true
  }

  ghost predicate Inv(s: State) {
    && s.word < 2 * CONTENTION
    && (Owner(s.word) == 0 ==> s.word == 0)
    && (Owner(s.word) != 0 ==> Owner(s.word) in s.pcs)
    && forall t :: t in s.pcs ==> PcOk(s.word, s.pcs[t], t)
  }

  lemma StepKeepsInv(s: State, t: Cap)
    requires Inv(s) && t in s.pcs
    ensures Inv(Step(s, t))
  {
    assert PcOk(s.word, s.pcs[t], t);
  }

  lemma {:induction false} RunInv(states: seq<State>, who: seq<Cap>, i: nat)
    requires Run(states, who) && i < |states|
    ensures Inv(states[i]) && states[i].pcs.Keys == states[0].pcs.Keys
  {
    if i > 0 {
      RunInv(states, who, i - 1);
      StepKeepsInv(states[i - 1], who[i - 1]);
    }
  }

  /** Safety in every state of every run: at most one thread holds the section,
      the owner field names exactly it, and contention implies an owner. */
  lemma MutualExclusion(states: seq<State>, who: seq<Cap>, i: nat)
    requires Run(states, who) && i < |states|
    ensures
      var s := states[i];
      && (forall t, u :: t in s.pcs && u in s.pcs && Holds(s.pcs[t]) && Holds(s.pcs[u]) ==> t == u)
      && (forall t :: t in s.pcs ==> (Holds(s.pcs[t]) <==> Owner(s.word) == t))
      && (Owner(s.word) == 0 <==> forall t :: t in s.pcs ==> !Holds(s.pcs[t]))
      && (Contended(s.word) ==> Owner(s.word) != 0)
  {
    RunInv(states, who, i);
    var s := states[i];
    assert forall t :: t in s.pcs ==> PcOk(s.word, s.pcs[t], t);
  }

  /** The assertion of sl.c:31 never fails: a thread about to enter is not owner. */
  lemma NotRecursive(states: seq<State>, who: seq<Cap>, i: nat, t: Cap)
    requires Run(states, who) && i < |states| && t in states[i].pcs && states[i].pcs[t].EnterRead?
    ensures Owner(states[i].word) != t
  {
    RunInv(states, who, i);
    assert PcOk(states[i].word, states[i].pcs[t], t);
  }

  /** What each action may do to the word: enter, mark, release; and the release of
      a contended section is the one that goes on to the scheduler thread. */
  lemma WordChanges(s: State, t: Cap)
    requires Inv(s) && t in s.pcs && Step(s, t).word != s.word
    ensures
      var (v, w, pc') := (s.word, Step(s, t).word, Step(s, t).pcs[t]);
      || (v == 0 && w == t && pc' == In)
      || (!Contended(v) && Contended(w) && Owner(w) == Owner(v) != 0 && Owner(v) != t && pc' == SwitchToOwner)
      || (Owner(v) == t && w == 0 && pc' == if Contended(v) then SwitchToSched else Out)
  {
    assert PcOk(s.word, s.pcs[t], t);
  }

  /** Once the bit is set, whenever it is set, nothing but the owner's release can
      clear it, and that release switches to the scheduler thread. */
  lemma {:induction false} ContentionIsHonoured(states: seq<State>, who: seq<Cap>, i: nat, j: nat) returns (k: nat)
    requires Run(states, who) && i <= j < |states|
    requires Contended(states[i].word) && states[j].word != states[i].word
    ensures i <= k < j && who[k] == Owner(states[i].word)
    ensures forall x :: i <= x <= k ==> states[x].word == states[i].word
    ensures states[k].pcs[who[k]].ExitContendedCas? && states[k + 1].pcs[who[k]] == SwitchToSched
    ensures states[k + 1].word == 0
  {
    k := i;
    while states[k + 1].word == states[i].word
      invariant i <= k < j && forall x :: i <= x <= k ==> states[x].word == states[i].word
      decreases j - k
    {
      k := k + 1;
    }
    RunInv(states, who, k);
    WordChanges(states[k], who[k]);
  }

  /** A contender gives way to the owner only once the word is marked. */
  lemma SwitchMarks(s: State, t: Cap)
    requires Inv(s) && t in s.pcs && !s.pcs[t].SwitchToOwner? && Step(s, t).pcs[t].SwitchToOwner?
    ensures Contended(Step(s, t).word) && Owner(Step(s, t).word) == Owner(s.word) != 0 && Owner(s.word) != t
  {
    assert PcOk(s.word, s.pcs[t], t);
  }

  /** Whoever gives way to the owner is heard: the next change of the word is the
      owner's release, and it switches to the scheduler thread. */
  lemma ContenderIsHeard(states: seq<State>, who: seq<Cap>, i: nat, j: nat) returns (k: nat)
    requires Run(states, who) && i < |who| && i < j < |states|
    requires !states[i].pcs[who[i]].SwitchToOwner? && states[i + 1].pcs[who[i]].SwitchToOwner?
    requires states[j].word != states[i + 1].word
    ensures i < k < j && who[k] == Owner(states[i].word) != who[i]
    ensures forall x :: i < x <= k ==> states[x].word == states[i + 1].word
    ensures states[k + 1].word == 0 && states[k + 1].pcs[who[k]] == SwitchToSched
  {
    RunInv(states, who, i);
    SwitchMarks(states[i], who[i]);
    k := ContentionIsHonoured(states, who, i + 1, j);
  }

  predicate Asking(pc: Pc) { pc.EnterRead? || pc.EnterCas? || pc.MarkCas? || pc.SwitchToOwner? }

  predicate Leaving(pc: Pc) { pc.ExitRead? || pc.ExitCas? || pc.ExitContendedCas? }

  /** No action leaves sl_cs_enter but into the section, or sl_cs_exit but by a release. */
  lemma NoHalfWay(s: State, t: Cap, u: Cap)
    requires Inv(s) && t in s.pcs && u in s.pcs
    ensures Asking(s.pcs[t]) ==> Asking(Step(s, u).pcs[t]) || Step(s, u).pcs[t] == In
    ensures Leaving(s.pcs[t]) ==> Leaving(Step(s, u).pcs[t]) || Step(s, u).word == 0
  {
    assert PcOk(s.word, s.pcs[t], t);
  }

  /** sl_cs_enter returns only with the section: in every interleaving, a thread that
      asks goes on asking until it is inside. */
  lemma {:induction false} EntersOnlyWithIt(states: seq<State>, who: seq<Cap>, i: nat, j: nat, t: Cap)
    requires Run(states, who) && i <= j < |states| && t in states[i].pcs && Asking(states[i].pcs[t])
    requires forall k :: i < k <= j && t in states[k].pcs ==> states[k].pcs[t] != In
    ensures t in states[j].pcs && Asking(states[j].pcs[t])
    decreases j
  {
    hide Asking, Step;
    if i < j {
      EntersOnlyWithIt(states, who, i, j - 1, t);
      RunInv(states, who, j - 1);
      RunInv(states, who, j);
      NoHalfWay(states[j - 1], t, who[j - 1]);
      assert states[j - 1 + 1] == Step(states[j - 1], who[j - 1]);
    }
  }

  /** sl_cs_exit returns only without it: in every interleaving, a thread that leaves
      goes on leaving until the word has been cleared. */
  lemma {:induction false} ExitsOnlyWithoutIt(states: seq<State>, who: seq<Cap>, i: nat, j: nat, t: Cap)
    requires Run(states, who) && i <= j < |states| && t in states[i].pcs && Leaving(states[i].pcs[t])
    requires forall k :: i < k <= j ==> states[k].word != 0
    ensures t in states[j].pcs && Leaving(states[j].pcs[t])
    decreases j
  {
    hide Leaving, Step;
    if i < j {
      ExitsOnlyWithoutIt(states, who, i, j - 1, t);
      RunInv(states, who, j - 1);
      RunInv(states, who, j);
      NoHalfWay(states[j - 1], t, who[j - 1]);
      assert states[j - 1 + 1] == Step(states[j - 1], who[j - 1]);
    }
  }

  /** A thread that acts while nobody else does. */
  function Twice(s: State, t: Cap): State
    requires t in s.pcs
  {
    Step(Step(s, t), t)
  }

  function Thrice(s: State, t: Cap): State
    requires t in s.pcs
  {
    Step(Twice(s, t), t)
  }

  /** Undisturbed, a thread that asks for a free section has it after three actions, and
      when it has left again everything is as it was. */
  lemma EntersAlone(s: State, t: Cap)
    requires Inv(s) && t in s.pcs && s.pcs[t] == Out && s.word == 0
    ensures Thrice(s, t).pcs[t] == In && Thrice(s, t).word == t
    ensures Thrice(Thrice(s, t), t) == s
  {
    var r := Thrice(s, t);
    assert !Contended(r.word);
    assert Thrice(r, t).pcs == s.pcs;
  }

  /** Undisturbed, a holder has released it after three, by way of the scheduler thread
      if and only if the bit was set. */
  lemma ExitsAlone(s: State, t: Cap)
    requires Inv(s) && t in s.pcs && s.pcs[t] == In
    ensures Thrice(s, t).word == 0
    ensures Thrice(s, t).pcs[t] == if Contended(s.word) then SwitchToSched else Out
    ensures Contended(s.word) ==> Step(Thrice(s, t), t).pcs[t] == Out
  {
    assert PcOk(s.word, s.pcs[t], t);
  }

  /** Undisturbed, a contender comes back to ask again, having marked the word. */
  lemma ContendsAlone(s: State, t: Cap)
    requires Inv(s) && t in s.pcs && s.pcs[t] == EnterRead && s.word != 0
    ensures
      var r := if Contended(s.word) then Twice(s, t) else Thrice(s, t);
      r.pcs[t] == EnterRead && Contended(r.word) && Owner(r.word) == Owner(s.word)
  {
    assert PcOk(s.word, s.pcs[t], t);
    if Contended(s.word) {
      assert Step(s, t).pcs[t] == SwitchToOwner;
    } else {
      assert Step(s, t).pcs[t] == MarkCas(s.word) && Step(s, t).word == s.word;
      StepKeepsInv(s, t);
      SwitchMarks(Step(s, t), t);
    }
  }

  /** Where the cached copy of the word is used. */
  predicate HasCopy(pc: Pc) { pc.EnterCas? || pc.MarkCas? || pc.ExitCas? || pc.ExitContendedCas? }

  /** A CAS fails only because another thread changed the word since the copy was
      taken: whenever one thread retries, another has made progress. */
  lemma {:induction false} FailureMeansProgress(states: seq<State>, who: seq<Cap>, i: nat, j: nat, t: Cap)
    returns (k: nat)
    requires Run(states, who) && i < j < |who| && who[i] == who[j] == t
    requires forall x :: i < x < j ==> who[x] != t
    requires t in states[i].pcs && (states[i].pcs[t].EnterRead? || states[i].pcs[t].ExitRead?)
    requires t in states[j].pcs && HasCopy(states[j].pcs[t])
    requires states[j + 1].word == states[j].word
    ensures i < k < j && who[k] != t && states[k].word != states[k + 1].word
  {
    Waits(states, who, i + 1, j, t);
    assert states[i + 1] == Step(states[i], t);
    RunInv(states, who, j);
    assert PcOk(states[j].word, states[j].pcs[t], t);
    assert states[j + 1] == Step(states[j], t);
    assert states[j].word != states[i + 1].word;
    k := i + 1;
    while states[k].word == states[k + 1].word
      invariant i < k < j && states[k].word == states[i + 1].word
      decreases j - k
    {
      k := k + 1;
    }
  }

  /** A thread that does not act stays where it is. */
  lemma {:induction false} Waits(states: seq<State>, who: seq<Cap>, i: nat, j: nat, t: Cap)
    requires Run(states, who) && i <= j < |states| && t in states[i].pcs
    requires forall x :: i <= x < j ==> who[x] != t
    ensures t in states[j].pcs && states[j].pcs[t] == states[i].pcs[t]
    decreases j
  {
    if i < j {
      Waits(states, who, i, j - 1, t);
      assert states[j] == Step(states[j - 1], who[j - 1]);
    }
  }

  /** The shared word and the threads' places, changed in place. */
  class CriticalSection {
    var word: nat
    var pcs: map<Cap, Pc>

    ghost function St(): State
      reads this
    {
      State(word, pcs)
    }

    constructor (threads: set<Cap>)
      ensures Init(St()) && pcs.Keys == threads
    {
      word := 0;
      pcs := map t | t in threads :: Out;
    }

    /** ps_cas */
    method Cas(expected: nat, value: nat) returns (ok: bool)
      modifies this`word
      ensures ok <==> old(word) == expected
      ensures word == if ok then value else old(word)
    {
      ok := word == expected;
      if ok {
        word := value;
      }
    }

    /** sl_cs_owner */
    method IsOwner(t: Cap) returns (b: bool)
      requires Inv(St()) && t in pcs
      ensures b <==> Holds(pcs[t])
    {
      assert PcOk(word, pcs[t], t);
      b := Owner(word) == t;
    }

    /** The next atomic action of thread t. */
    method Next(t: Cap)
      requires t in pcs
      modifies this
      ensures St() == Step(old(St()), t)
    {
      var pc := pcs[t];
      match pc {
        case Out => pc := EnterRead;
        case EnterRead =>
          var csi := word;
          if Owner(csi) == 0 {
            pc := EnterCas(csi);
          } else if !Contended(csi) {
            pc := MarkCas(csi);
          } else {
            pc := SwitchToOwner;
          }
        case EnterCas(cached) =>
          var ok := Cas(cached, WithOwner(cached, t));
          pc := if ok then In else EnterRead;
        case MarkCas(cached) =>
          var ok := Cas(cached, WithContention(cached));
          pc := if ok then SwitchToOwner else EnterRead;
        case SwitchToOwner => pc := EnterRead;
        case In => pc := ExitRead;
        case ExitRead =>
          var csi := word;
          pc := if Contended(csi) then ExitContendedCas(csi) else ExitCas(csi);
        case ExitCas(cached) =>
          var ok := Cas(cached, 0);
          pc := if ok then Out else ExitRead;
        case ExitContendedCas(cached) =>
          var ok := Cas(cached, 0);
          pc := if ok then SwitchToSched else ExitRead;
        case SwitchToSched => pc := Out;
      }
      pcs := pcs[t := pc];
    }
  }
}
