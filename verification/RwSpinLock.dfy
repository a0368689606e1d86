/** The reader/writer spin lock (rwspinlock.c), one step for each atomic access, for any number of threads. */
module RwSpinLock {
  import opened Common

  type Thread = nat
  datatype Pc =
    | Out
    | ReadSpin      // exchange on the flag
    | ReadCount     // has the flag, about to add itself
    | ReadDone      // counted, about to clear the flag
    | Reading
    | WriteSpin
    | WriteWait     // has the flag, waits for the readers
    | Writing

  /** flag: lk->locked, and whose exchange set it. */
  datatype State = State(pcs: map<Thread, Pc>, flag: Option<Thread>, readers: nat)

  predicate HasFlag(pc: Pc) {
    pc.ReadCount? || pc.ReadDone? || pc.WriteWait? || pc.Writing?
  }

  predicate Counted(pc: Pc) {
    pc.ReadDone? || pc.Reading?
  }

  /** The threads inside as readers. */
  function Inside(pcs: map<Thread, Pc>): set<Thread> {
    set p | p in pcs && Counted(pcs[p])
  }

  ghost predicate Inv(s: State) {
    && (forall p :: p in s.pcs && HasFlag(s.pcs[p]) ==> s.flag == Some(p))
    && (s.flag.Some? ==> s.flag.value in s.pcs && HasFlag(s.pcs[s.flag.value]))
    && s.readers == |Inside(s.pcs)|
    && (forall p :: p in s.pcs && s.pcs[p].Writing? ==> s.readers == 0)
  }

  datatype Step =
    | ReadCall(p: Thread)
    | WriteCall(p: Thread)
    | Advance(p: Thread)
    | ReadUnlock(p: Thread)
    | WriteUnlock(p: Thread)

  predicate Enabled(s: State, e: Step) {
    && e.p in s.pcs
    && var pc := s.pcs[e.p];
       match e
       case ReadCall(_) => pc.Out?
       case WriteCall(_) => pc.Out?
       case Advance(_) =>
         || (pc.ReadSpin? && s.flag.None?) || pc.ReadCount? || pc.ReadDone?
         || (pc.WriteSpin? && s.flag.None?) || (pc.WriteWait? && s.readers == 0)
       case ReadUnlock(_) => pc.Reading? && s.readers > 0
       case WriteUnlock(_) => pc.Writing?
  }

  function Apply(s: State, e: Step): State
    requires Enabled(s, e)
  {
    var p := e.p;
    match e
    case ReadCall(_) => s.(pcs := s.pcs[p := ReadSpin])
    case WriteCall(_) => s.(pcs := s.pcs[p := WriteSpin])
    case Advance(_) =>
      (match s.pcs[p]
       case ReadSpin => s.(pcs := s.pcs[p := ReadCount], flag := Some(p))
       case ReadCount => s.(pcs := s.pcs[p := ReadDone], readers := s.readers + 1)
       case ReadDone => s.(pcs := s.pcs[p := Reading], flag := None)
       case WriteSpin => s.(pcs := s.pcs[p := WriteWait], flag := Some(p))
       case WriteWait => s.(pcs := s.pcs[p := Writing])
       case _ => s)
    case ReadUnlock(_) => s.(pcs := s.pcs[p := Out], readers := s.readers - 1)
    case WriteUnlock(_) => s.(pcs := s.pcs[p := Out], flag := None)
  }

  lemma InsideMove(pcs: map<Thread, Pc>, p: Thread, pc: Pc)
    requires p in pcs
    ensures |Inside(pcs[p := pc])| + (if Counted(pcs[p]) then 1 else 0) ==
            |Inside(pcs)| + (if Counted(pc) then 1 else 0)
  {
    var others := Inside(pcs) - {p};
    assert Inside(pcs[p := pc]) == if Counted(pc) then others + {p} else others;
    assert Inside(pcs) == if Counted(pcs[p]) then others + {p} else others;
  }

  lemma StepInv(s: State, e: Step)
    requires Inv(s) && Enabled(s, e)
    ensures Inv(Apply(s, e))
  {
    InsideMove(s.pcs, e.p, Apply(s, e).pcs[e.p]);
  }

  ghost predicate Initial(s: State) {
    (forall p :: p in s.pcs ==> s.pcs[p].Out?) && s.flag.None? && s.readers == 0
  }

  ghost predicate Run(states: seq<State>, steps: seq<Step>) {
    && |states| == |steps| + 1 && Initial(states[0])
    && forall i :: 0 <= i < |steps| ==> Enabled(states[i], steps[i]) && states[i + 1] == Apply(states[i], steps[i])
  }

  lemma {:induction false} RunInv(states: seq<State>, steps: seq<Step>, n: nat)
    requires Run(states, steps) && n <= |steps|
    ensures Inv(states[n])
  {
    if n == 0 {
      assert Inside(states[0].pcs) == {};
    } else {
      RunInv(states, steps, n - 1);
      StepInv(states[n - 1], steps[n - 1]);
    }
  }

  /** A writer inside excludes every reader and every other writer; the counter is the number of readers. */
  lemma WriterExcludes(states: seq<State>, steps: seq<Step>, n: nat, w: Thread)
    requires Run(states, steps) && n <= |steps| && w in states[n].pcs && states[n].pcs[w].Writing?
    ensures states[n].readers == |Inside(states[n].pcs)| == 0
    ensures forall p :: p in states[n].pcs && p != w ==> !states[n].pcs[p].Writing? && !states[n].pcs[p].Reading?
  {
    RunInv(states, steps, n);
    assert Inside(states[n].pcs) == {};
    assert forall p :: p in states[n].pcs && states[n].pcs[p].Reading? ==> p in Inside(states[n].pcs);
  }

  /** A reader can always leave: the counter is positive while it is inside. */
  lemma ReaderCanLeave(states: seq<State>, steps: seq<Step>, n: nat, p: Thread)
    requires Run(states, steps) && n <= |steps| && p in states[n].pcs && states[n].pcs[p].Reading?
    ensures Enabled(states[n], ReadUnlock(p))
  {
    RunInv(states, steps, n);
    assert p in Inside(states[n].pcs);
  }

  /** While a writer has the flag, from state a to state b, the reader count only falls. */
  lemma {:induction false} ReadersOnlyLeave(states: seq<State>, steps: seq<Step>, a: nat, b: nat, w: Thread)
    requires Run(states, steps) && a <= b <= |steps|
    requires forall i ::
      a <= i <= b ==> w in states[i].pcs && (states[i].pcs[w].WriteWait? || states[i].pcs[w].Writing?)
    ensures states[b].readers <= states[a].readers && Inside(states[b].pcs) <= Inside(states[a].pcs)
  {
    if a < b {
      ReadersOnlyLeave(states, steps, a, b - 1, w);
      RunInv(states, steps, b - 1);
      OneLeaves(states[b - 1], steps[b - 1], w);
      assert states[b - 1 + 1] == Apply(states[b - 1], steps[b - 1]);
    }
  }

  lemma OneLeaves(s: State, e: Step, w: Thread)
    requires Inv(s) && Enabled(s, e) && w in s.pcs && (s.pcs[w].WriteWait? || s.pcs[w].Writing?)
    ensures Apply(s, e).readers <= s.readers && Inside(Apply(s, e).pcs) <= Inside(s.pcs)
  {
    assert HasFlag(s.pcs[w]);
  }
}
