/**
 Every run of the interrupt competition is finite, with an explicit bound on its length, and
 every run that cannot go on has unloaded the module.
 */
module CompetitionTermination {
  import opened Wrappers
  import opened CompetitionModel
  import opened CompetitionInvariant
  import opened CompetitionTheorems

  // ---------- a measure that falls on every step

  /** Statements left to a top half, with the bottom half it schedules. */
  ghost function TopWork(pc: HardPc): nat {
    match pc
    case HSpin => 21 case HLoadRun => 20 case HStoreRun => 19 case HReadN => 18
    case HLoadShared => 17 case HStoreShared => 16 case HReadVal => 15 case HStamp => 14
    case HUnlock => 13 case HSchedule => 12 case HReturn => 1 case HIdle => 0
  }

  ghost function BottomWork(pc: SoftPc): nat {
    match pc
    case SEnter => 9 case SSpin => 8 case SReadSeq => 7 case SLoadShared => 6
    case SStoreShared => 5 case SReadVal => 4 case SUnlock => 3 case SRestore => 2
    case SReturn => 1 case SIdle => 0
  }

  /** Steps left to a raiser, with the deliveries its raises may cause. */
  ghost function RaiserWork(r: Raiser): nat {
    26 * (if r.calls <= RAISES_PER_CPU then RAISES_PER_CPU - r.calls else 0)
    + (if r.spawned then 0 else 3)
    + (match r.pc case TOff => 0 case TCheck => 2 case TRaise => 1 case TInc => 3)
  }

  ghost function CpuWork(cpu: Cpu): nat {
    TopWork(cpu.top.pc) + BottomWork(cpu.bottom.pc) + RaiserWork(cpu.raiser)
  }

  ghost function TotalWork(cpus: seq<Cpu>): nat {
    if cpus == [] then 0 else CpuWork(cpus[0]) + TotalWork(cpus[1..])
  }

  lemma {:induction false} TotalWorkUpdate(cpus: seq<Cpu>, c: nat, cpu: Cpu)
    requires c < |cpus|
    ensures TotalWork(cpus[c := cpu]) + CpuWork(cpus[c]) == TotalWork(cpus) + CpuWork(cpu)
  {
    if c == 0 {
      assert cpus[0 := cpu][1..] == cpus[1..];
    } else {
      assert cpus[c := cpu][1..] == cpus[1..][c - 1 := cpu];
      TotalWorkUpdate(cpus[1..], c - 1, cpu);
    }
  }

  ghost function Measure(s: State): nat {
    TotalWork(s.cpus) + 22 * Bit(s.line.pending) + 10 * Bit(s.tl.sched) + (12 - Rank(s.mod.pc))
  }

  /** A step of CPU c that leaves the rest of the machine with no more work. */
  lemma CpuStepLowers(s: State, t: State, c: nat)
    requires c < |s.cpus| == |t.cpus| && t.cpus == s.cpus[c := t.cpus[c]] && t.mod.pc == s.mod.pc
    requires CpuWork(t.cpus[c]) + 22 * Bit(t.line.pending) + 10 * Bit(t.tl.sched)
             < CpuWork(s.cpus[c]) + 22 * Bit(s.line.pending) + 10 * Bit(s.tl.sched)
    ensures Measure(t) < Measure(s)
  {
    TotalWorkUpdate(s.cpus, c, t.cpus[c]);
  }

  lemma TopStatementWorks(c: nat, t: Top, m: Memory)
    requires !t.pc.HIdle?
    ensures var t' := TopStatement(c, t, m).0;
      TopWork(t'.pc) + (if t.pc.HSchedule? then 10 else 0) < TopWork(t.pc)
  {
    match t.pc
    case HSpin => case HLoadRun => case HStoreRun => case HReadN => case HLoadShared =>
    case HStoreShared => case HReadVal => case HStamp => case HUnlock => case HSchedule => case HReturn =>
  }

  lemma BottomStatementWorks(c: nat, b: Bottom, m: Memory)
    requires !b.pc.SIdle?
    ensures BottomWork(BottomStatement(c, b, m).0.pc) < BottomWork(b.pc)
  {
    match b.pc
    case SEnter => case SSpin => case SReadSeq => case SLoadShared => case SStoreShared =>
    case SReadVal => case SUnlock => case SRestore => case SReturn =>
  }

  lemma RaiserStatementWorks(r: Raiser, stopping: bool)
    requires RaiserOk(r) && !r.pc.TOff?
    requires r.pc.TCheck? ==> stopping || r.raiseCount < RAISES_PER_CPU
    ensures RaiserWork(RaiserStatement(r, stopping)) + (if r.pc.TRaise? then 22 else 0) < RaiserWork(r)
  {
  }

  lemma HardStepLowers(s: State, c: nat)
    requires Enabled(s, HardStep(c))
    ensures Measure(ApplyHard(s, c)) < Measure(s)
  {
    TopStatementWorks(c, s.cpus[c].top, s.mem);
    CpuStepLowers(s, ApplyHard(s, c), c);
  }

  lemma SoftStepLowers(s: State, c: nat)
    requires Enabled(s, SoftStep(c))
    ensures Measure(ApplySoft(s, c)) < Measure(s)
  {
    BottomStatementWorks(c, s.cpus[c].bottom, s.mem);
    CpuStepLowers(s, ApplySoft(s, c), c);
  }

  lemma DeliverLowers(s: State, c: nat)
    requires Enabled(s, Deliver(c))
    ensures Measure(ApplyDeliver(s, c)) < Measure(s)
  {
    var t := ApplyDeliver(s, c);
    assert t.cpus == s.cpus[c := t.cpus[c]];
    CpuStepLowers(s, t, c);
  }

  lemma StartBottomLowers(s: State, c: nat)
    requires Enabled(s, StartBottom(c))
    ensures Measure(ApplyStartBottom(s, c)) < Measure(s)
  {
    CpuStepLowers(s, ApplyStartBottom(s, c), c);
  }

  lemma TaskStepLowers(s: State, c: nat, ok: bool)
    requires Raises(s) && Enabled(s, TaskStep(c, ok))
    ensures Measure(ApplyTask(s, c, ok)) < Measure(s)
  {
    assert RaiserOk(s.cpus[c].raiser);
    RaiserStatementWorks(s.cpus[c].raiser, s.mod.stopping);
    CpuStepLowers(s, ApplyTask(s, c, ok), c);
  }

  lemma SpawnLowers(s: State, c: nat)
    requires Phases(s) && Enabled(s, Spawn(c))
    ensures Measure(ApplySpawn(s, c)) < Measure(s)
  {
    CpuStepLowers(s, ApplySpawn(s, c), c);
  }

  lemma ModStepLowers(s: State, ok: bool)
    requires ModEnabled(s, ok)
    ensures Measure(ApplyMod(s, ok)) < Measure(s)
  {
    ModRaisesRank(s.mod, ok);
    var t := ApplyMod(s, ok);
    assert t.cpus == s.cpus && t.tl == s.tl && Bit(t.line.pending) <= Bit(s.line.pending);
  }

  lemma EveryStepLowers(s: State, e: Event)
    requires Inv(s) && Enabled(s, e)
    ensures Measure(Apply(s, e)) < Measure(s)
  {
    match e
    case ModStep(ok) => ModStepLowers(s, ok);
    case Spawn(c) => SpawnLowers(s, c);
    case Deliver(c) => DeliverLowers(s, c);
    case HardStep(c) => HardStepLowers(s, c);
    case StartBottom(c) => StartBottomLowers(s, c);
    case SoftStep(c) => SoftStepLowers(s, c);
    case TaskStep(c, ok) => TaskStepLowers(s, c, ok);
  }

  lemma {:induction false} RunIsBounded(s: State, es: seq<Event>)
    requires Inv(s) && Feasible(s, es)
    ensures |es| + Measure(Exec(s, es)) <= Measure(s)
    decreases |es|
  {
    if es != [] {
      EveryStepLowers(s, es[0]);
      KeepsInv(s, es[0]);
      RunIsBounded(Apply(s, es[0]), es[1..]);
    }
  }

  lemma {:induction false} FreshWork(cpus: seq<Cpu>)
    requires forall c | 0 <= c < |cpus| :: FreshCpu(cpus[c])
    ensures TotalWork(cpus) == 263 * |cpus|
  {
    if cpus != [] {
      assert FreshCpu(cpus[0]);
      FreshWork(cpus[1..]);
    }
  }

  /** However the contexts of N CPUs interleave, a run has at most 263 N + 12 steps. */
  lemma EveryRunIsBounded(s0: State, es: seq<Event>)
    requires Initial(s0) && Feasible(s0, es)
    ensures |es| <= 263 * |s0.cpus| + 12
  {
    InitialHasInv(s0);
    FreshWork(s0.cpus);
    RunIsBounded(s0, es);
  }

  // ---------- something can always happen until the module is gone

  /** A raiser that has not stopped can take its next step once the module is stopping. */
  lemma RaiserCanStop(s: State, c: nat)
    requires Contexts(s) && s.line.inprogress.None? && s.tl.running.None? && s.mod.stopping
    requires c < |s.cpus| && !s.cpus[c].raiser.pc.TOff?
    ensures Enabled(s, TaskStep(c, true))
  {
    assert CpuContexts(s, c);
  }

  lemma ActiveCanStep(s: State) returns (e: Event)
    requires Contexts(s) && s.mem.lock.None?
    requires s.line.inprogress.Some? || s.tl.running.Some?
    ensures Enabled(s, e) && !e.ModStep?
  {
    if s.line.inprogress.Some? {
      e := HardStep(s.line.inprogress.value);
      assert CpuContexts(s, s.line.inprogress.value);
    } else {
      e := SoftStep(s.tl.running.value);
      assert CpuContexts(s, s.tl.running.value);
    }
  }

  lemma IdleCanStep(s: State) returns (e: Event)
    requires Contexts(s) && Phases(s) && |s.cpus| >= 1 && !s.mod.pc.MGone?
    requires s.line.inprogress.None? && s.tl.running.None?
    ensures Enabled(s, e)
  {
    if s.tl.sched {
      e := StartBottom(0);
      assert CpuContexts(s, 0);
    } else if s.mod.pc.MStop? && !AllStopped(s.cpus) {
      var c :| 0 <= c < |s.cpus| && !s.cpus[c].raiser.pc.TOff?;
      e := TaskStep(c, true);
      RaiserCanStop(s, c);
    } else {
      e := ModStep(AllSpawned(s.cpus));
    }
  }

  lemma SomethingCanHappen(s: State) returns (e: Event)
    requires Inv(s) && |s.cpus| >= 1 && !s.mod.pc.MGone?
    ensures Enabled(s, e)
  {
    if s.mem.lock.Some? {
      HolderReachesUnlock(s);
      e := HolderStep(s);
    } else if s.line.inprogress.Some? || s.tl.running.Some? {
      e := ActiveCanStep(s);
    } else {
      e := IdleCanStep(s);
    }
  }

  ghost predicate Stuck(s: State) {
    forall e :: !Enabled(s, e)
  }

  lemma StuckMeansGone(s: State)
    requires Inv(s) && |s.cpus| >= 1 && Stuck(s)
    ensures Rank(s.mod.pc) == 12
  {
    if !s.mod.pc.MGone? {
      var e := SomethingCanHappen(s);
      assert false;
    }
  }

  lemma StuckIsClean(s: State)
    requires Inv(s) && |s.cpus| >= 1 && Stuck(s)
    ensures CleanlyGone(s)
  {
    StuckMeansGone(s);
    UnloadIsClean(s);
  }

  /** A run that cannot be continued has unloaded the module, cleanly. */
  lemma MaximalRunsUnload(s0: State, es: seq<Event>)
    requires Initial(s0) && Feasible(s0, es) && Stuck(Exec(s0, es))
    ensures CleanlyGone(Exec(s0, es))
  {
    InitialHasInv(s0);
    RunKeepsInv(s0, es);
    StuckIsClean(Exec(s0, es));
  }

  lemma {:induction false} CanUnload(s: State) returns (es: seq<Event>)
    requires Inv(s) && |s.cpus| >= 1
    ensures Feasible(s, es) && CleanlyGone(Exec(s, es))
    decreases Measure(s)
  {
    if s.mod.pc.MGone? {
      es := [];
      UnloadIsClean(s);
    } else {
      var e := SomethingCanHappen(s);
      EveryStepLowers(s, e);
      KeepsInv(s, e);
      KeepsCpuCount(s, e);
      var rest := CanUnload(Apply(s, e));
      es := [e] + rest;
      assert es[1..] == rest;
    }
  }

  /** Wherever a run has got to, it can be continued until the module is cleanly gone. */
  lemma EveryRunCanUnload(s: State) returns (es: seq<Event>)
    requires Reachable(s)
    ensures Feasible(s, es) && CleanlyGone(Exec(s, es))
  {
    ReachableHasInv(s);
    es := CanUnload(s);
  }

  // ---------- the loaded module comes to rest

  /** Only unloading can move the module on. */
  ghost predicate AtRest(s: State) {
    s.mod.pc.MLoaded? && forall e | Enabled(s, e) :: e.ModStep?
  }

  lemma {:induction false} TotalCallsExact(cpus: seq<Cpu>)
    requires forall c | 0 <= c < |cpus| :: cpus[c].raiser.calls == 10
    ensures TotalCalls(cpus) == 10 * |cpus|
  {
    if cpus != [] {
      TotalCallsExact(cpus[1..]);
    }
  }

  lemma BusyCanStep(s: State) returns (e: Event)
    requires Contexts(s) && |s.cpus| >= 1 && s.mem.lock.None?
    requires s.line.inprogress.Some? || s.tl.running.Some? || s.tl.sched
    ensures Enabled(s, e) && !e.ModStep?
  {
    if s.line.inprogress.Some? || s.tl.running.Some? {
      e := ActiveCanStep(s);
    } else {
      e := StartBottom(0);
      assert CpuContexts(s, 0);
    }
  }

  lemma RestIsIdle(s: State)
    requires Inv(s) && |s.cpus| >= 1 && AtRest(s)
    ensures s.mem.lock.None? && s.line.inprogress.None? && s.tl.running.None? && !s.tl.sched
    ensures Quiescent(s)
  {
    if s.mem.lock.Some? {
      HolderReachesUnlock(s);
      assert false;
    }
    if s.line.inprogress.Some? || s.tl.running.Some? || s.tl.sched {
      var e := BusyCanStep(s);
      assert false;
    }
    AllQuiet(s);
  }

  lemma RestHasNoPending(s: State)
    requires AtRest(s) && Quiescent(s) && |s.cpus| >= 1
    ensures !s.line.pending
  {
    assert !Enabled(s, Deliver(0));
  }

  lemma RestHasRaised(s: State, c: nat)
    requires AtRest(s) && Quiescent(s) && Raises(s) && Phases(s) && c < |s.cpus|
    ensures s.cpus[c].raiser.calls == 10
  {
    assert RaiserOk(s.cpus[c].raiser) && RaiserPhase(Rank(s.mod.pc), s.cpus[c].raiser);
    assert !Enabled(s, TaskStep(c, true));
  }

  /** At rest every CPU has raised exactly ten times, no raise is pending, and the last hardirq
      has been reported. */
  lemma RestIsComplete(s: State)
    requires Reachable(s) && AtRest(s)
    ensures s.hist.raises.raised == 10 * |s.cpus| && !s.line.pending
    ensures LastReport(s.hist) == s.mem.runCount
  {
    ReachableHasInv(s);
    RestIsIdle(s);
    QuiescentReportsNewest(s);
    RestHasNoPending(s);
    forall c | 0 <= c < |s.cpus|
      ensures s.cpus[c].raiser.calls == 10
    {
      RestHasRaised(s, c);
    }
    TotalCallsExact(s.cpus);
  }
}
