/**
 What every interleaving of the interrupt competition guarantees, on any number of CPUs.
 The properties are proved of every state that has the inductive invariant, which
 EveryReachableState turns into statements about all reachable states.
 */
module CompetitionTheorems {
  import opened Wrappers
  import opened CompetitionModel
  import opened CompetitionInvariant

  // ---------- no bottom half is lost

  /** Some context will carry the newest stamp to a bottom half. */
  ghost predicate Carried(s: State) {
    || s.tl.sched
    || (exists c | 0 <= c < |s.cpus| :: s.cpus[c].top.pc.HUnlock? || s.cpus[c].top.pc.HSchedule?)
    || (exists c | 0 <= c < |s.cpus| :: BeforeRead(s.cpus[c].bottom.pc))
  }

  lemma NoLostBottomHalf(s: State)
    requires Inv(s)
    ensures LastReport(s.hist) != s.mem.pendingSeq ==> Carried(s)
  {
    assert Reports(TopOf(s).pc, BottomOf(s).pc, s.tl.sched, s.mem.pendingSeq, s.hist);
  }

  /** Once nothing runs and nothing is scheduled, the last report names the last hardirq. */
  lemma QuiescentReportsNewest(s: State)
    requires Inv(s) && Quiescent(s)
    ensures LastReport(s.hist) == s.mem.pendingSeq == s.mem.runCount
  {
    assert TopOf(s).pc.HIdle? && BottomOf(s).pc.SIdle?;
  }

  // ---------- the counter is an atomic ticket dispenser

  datatype Dispenser = Dispenser(next: nat, log: seq<Ticket>)

  /** The specification: hand out the next number in one indivisible step. */
  ghost function Take(d: Dispenser, level: Level): Dispenser {
    Dispenser(d.next + 1, d.log + [Ticket(level, d.next)])
  }

  ghost function Dispensed(s: State): Dispenser {
    Dispenser(|s.hist.tickets| + 1, s.hist.tickets)
  }

  /** A statement of the program is one ticket taken, or nothing the dispenser can see. */
  ghost predicate Refines(d: Dispenser, d': Dispenser) {
    d' == d || d' == Take(d, Hard) || d' == Take(d, Soft)
  }

  lemma TopRefines(t: Top, b: Bottom, m: Memory, sched: bool, h: History)
    requires Core(t, b, m, sched, h)
    ensures TopHistory(t.pc, m, h).tickets
            == if t.pc.HReadVal? then h.tickets + [Ticket(Hard, |h.tickets| + 1)] else h.tickets
  {
  }

  lemma BottomRefines(t: Top, b: Bottom, m: Memory, sched: bool, h: History)
    requires Core(t, b, m, sched, h)
    ensures BottomHistory(b.pc, m, h).tickets
            == if b.pc.SReadVal? then h.tickets + [Ticket(Soft, |h.tickets| + 1)] else h.tickets
  {
  }

  lemma OthersTakeNoTicket(s: State, e: Event)
    requires Enabled(s, e) && !e.HardStep? && !e.SoftStep?
    ensures Apply(s, e).hist.tickets == s.hist.tickets
  {
  }

  lemma HardRefines(s: State, c: nat)
    requires Contexts(s) && CoreOf(s) && Enabled(s, HardStep(c))
    ensures Refines(Dispensed(s), Dispensed(ApplyHard(s, c)))
  {
    TopOfAfter(s, c);
    TopRefines(TopOf(s), BottomOf(s), s.mem, s.tl.sched, s.hist);
  }

  lemma SoftRefines(s: State, c: nat)
    requires Contexts(s) && CoreOf(s) && Enabled(s, SoftStep(c))
    ensures Refines(Dispensed(s), Dispensed(ApplySoft(s, c)))
  {
    BottomOfAfter(s, c);
    BottomRefines(TopOf(s), BottomOf(s), s.mem, s.tl.sched, s.hist);
  }

  lemma StepRefinesDispenser(s: State, e: Event)
    requires Inv(s) && Enabled(s, e)
    ensures Refines(Dispensed(s), Dispensed(Apply(s, e)))
  {
    if e.HardStep? {
      HardRefines(s, e.c);
    } else if e.SoftStep? {
      SoftRefines(s, e.c);
    } else {
      OthersTakeNoTicket(s, e);
    }
  }

  /** The dispenser serving a sequence of customers. */
  ghost function Serve(d: Dispenser, customers: seq<Level>): Dispenser
    decreases |customers|
  {
    if customers == [] then d else Serve(Take(d, customers[0]), customers[1..])
  }

  /** Every run of the program is a run of the dispenser. */
  lemma {:induction false} RunRefinesDispenser(s: State, es: seq<Event>) returns (customers: seq<Level>)
    requires Inv(s) && Feasible(s, es)
    ensures Dispensed(Exec(s, es)) == Serve(Dispensed(s), customers)
    decreases |es|
  {
    customers := [];
    if es != [] {
      var d, t := Dispensed(s), Apply(s, es[0]);
      StepRefinesDispenser(s, es[0]);
      KeepsInv(s, es[0]);
      var rest := RunRefinesDispenser(t, es[1..]);
      var level := if Dispensed(t) == Take(d, Hard) then Hard else Soft;
      assert ([level] + rest)[1..] == rest;
      customers := if Dispensed(t) == d then rest else [level] + rest;
    }
  }

  ghost predicate Unused(d: Dispenser) { d.next == 1 && d.log == [] }

  lemma NothingDispensed(s: State)
    requires FreshHistory(s.hist)
    ensures Unused(Dispensed(s))
  {
  }

  lemma EveryRunRefinesDispenser(s0: State, es: seq<Event>)
    returns (unused: Dispenser, customers: seq<Level>)
    requires Initial(s0) && Feasible(s0, es)
    ensures Unused(unused) && Dispensed(Exec(s0, es)) == Serve(unused, customers)
  {
    InitialHasInv(s0);
    NothingDispensed(s0);
    unused := Dispensed(s0);
    customers := RunRefinesDispenser(s0, es);
  }

  /** The captured vals are pairwise distinct, and are exactly 1 .. gs_shared_count whenever
      the lock is free; the counter counts the increments of both kinds of context. */
  ghost predicate ExactTickets(s: State) {
    var ts := s.hist.tickets;
    && (forall i, j | 0 <= i < j < |ts| :: ts[i].val != ts[j].val)
    && s.mem.sharedCount == s.hist.hardIncs + s.hist.softIncs
    && (s.mem.lock.None? ==>
          && (forall i | 0 <= i < |ts| :: 1 <= ts[i].val <= s.mem.sharedCount)
          && |ts| == s.mem.sharedCount)
  }

  lemma TicketsAreExact(s: State)
    requires Inv(s)
    ensures ExactTickets(s)
  {
    if s.mem.lock.None? { LockFree(s); }
  }

  /** With the lock free nobody is in a critical section. */
  lemma LockFree(s: State)
    requires Inv(s) && s.mem.lock.None?
    ensures !HardInCs(TopOf(s).pc) && !SoftInCs(BottomOf(s).pc)
  {
    if s.line.inprogress.Some? { assert CpuContexts(s, s.line.inprogress.value); }
    if s.tl.running.Some? { assert CpuContexts(s, s.tl.running.value); }
  }

  // ---------- what bottom halves report

  /** Reports never go back, name hardirqs that ran, and never outnumber tasklet_schedule calls;
      while the lock is free the stamp is the number of the last hardirq. */
  ghost predicate OrderedReports(s: State) {
    && Ordered(s.hist.reports)
    && (forall i | 0 <= i < |s.hist.reports| :: 1 <= s.hist.reports[i] <= s.mem.runCount)
    && s.hist.finished <= |s.hist.reports| <= s.hist.scheduled
    && (s.mem.lock.None? ==> s.mem.pendingSeq == s.mem.runCount)
  }

  lemma ReportsAreOrdered(s: State)
    requires Inv(s)
    ensures OrderedReports(s)
  {
    if s.mem.lock.None? { LockFree(s); }
  }

  // ---------- raises

  lemma {:induction false} TotalCallsBound(cpus: seq<Cpu>)
    requires forall c | 0 <= c < |cpus| :: RaiserOk(cpus[c].raiser)
    ensures TotalCalls(cpus) <= 10 * |cpus|
  {
    if cpus != [] {
      assert RaiserOk(cpus[0].raiser);
      TotalCallsBound(cpus[1..]);
    }
  }

  /** Every raise is delivered, pending, merged, dropped, failed or, once the handler is gone,
      discarded. So N CPUs cause at most 10 N hardirqs and count to at most 20 N, which no
      machine with 20 N below 2^32 can tell from unbounded arithmetic. */
  ghost predicate ConservedRaises(s: State) {
    var r := s.hist.raises;
    && r.raised == r.delivered + Bit(s.line.pending) + r.merged + r.dropped + r.failed + r.discarded
    && r.raised == TotalCalls(s.cpus)
    && s.mem.runCount <= r.delivered <= r.raised <= 10 * |s.cpus|
    && s.mem.sharedCount <= 20 * |s.cpus|
  }

  lemma RaisesAreConserved(s: State)
    requires Inv(s)
    ensures ConservedRaises(s)
  {
    TotalCallsBound(s.cpus);
    assert Conserved(s.hist.raises, s.line.pending);
    assert Accounts(TopOf(s).pc, BottomOf(s).pc, s.mem, s.tl.sched, s.hist);
  }

  predicate IsRaise(s: State, e: Event)
    requires Enabled(s, e)
  {
    e.TaskStep? && s.cpus[e.c].raiser.pc.TRaise?
  }

  predicate IsDelivery(s: State, e: Event)
    requires Enabled(s, e)
  {
    e.Deliver? && s.line.registered && s.line.inprogress.None?
  }

  /** What becomes of each raise: it fails, merges with a pending one, or is pending until it is
      delivered, dropped because the handler is in progress, or discarded because there is none. */
  lemma RaiseFates(s: State, e: Event)
    requires Enabled(s, e)
    ensures var t := Apply(s, e); var r, r' := s.hist.raises, t.hist.raises;
      && r'.raised == r.raised + Bit(IsRaise(s, e))
      && r'.failed == r.failed + Bit(IsRaise(s, e) && !e.ok)
      && r'.merged == r.merged + Bit(IsRaise(s, e) && e.ok && s.line.pending)
      && r'.delivered == r.delivered + Bit(IsDelivery(s, e))
      && r'.dropped == r.dropped + Bit(e.Deliver? && s.line.registered && s.line.inprogress.Some?)
      && r'.discarded == r.discarded + Bit(e.Deliver? && !s.line.registered)
                         + Bit(e.ModStep? && s.mod.pc.MRemove? && s.line.pending)
      && (IsDelivery(s, e) ==> t.cpus[e.c].top.pc.HSpin? && t.line.inprogress == Some(e.c))
  {
    if e.HardStep? {
      assert TopHistory(s.cpus[e.c].top.pc, s.mem, s.hist).raises == s.hist.raises;
    } else if e.SoftStep? {
      assert BottomHistory(s.cpus[e.c].bottom.pc, s.mem, s.hist).raises == s.hist.raises;
    }
  }

  /** Nothing is discarded while the handler is registered. */
  lemma NothingDiscardedBeforeFree(s: State, e: Event)
    requires Inv(s) && Enabled(s, e) && s.line.registered
    ensures Apply(s, e).hist.raises.discarded == s.hist.raises.discarded
  {
    if e.HardStep? {
      assert TopHistory(s.cpus[e.c].top.pc, s.mem, s.hist).raises == s.hist.raises;
    } else if e.SoftStep? {
      assert BottomHistory(s.cpus[e.c].bottom.pc, s.mem, s.hist).raises == s.hist.raises;
    }
  }

  // ---------- teardown

  /** No context ever runs after something it uses has been released, on the exit path and on
      every failure path. */
  ghost predicate SafelyHeld(s: State) {
    && (forall c | 0 <= c < |s.cpus| && !s.cpus[c].top.pc.HIdle? ::
          s.mod.mapping && s.mod.domain && s.mod.tasklet && Rank(s.mod.pc) <= 8)
    && (forall c | 0 <= c < |s.cpus| && !s.cpus[c].bottom.pc.SIdle? :: s.mod.tasklet)
    && (s.tl.sched ==> s.mod.tasklet)
    && (forall c | 0 <= c < |s.cpus| && !s.cpus[c].raiser.pc.TOff? ::
          s.mod.mapping && s.mod.domain && s.line.registered)
    && (s.line.pending ==> s.mod.domain)
  }

  /** After the last rung nothing runs, nothing waits, nothing is held, and the last hardirq
      has been reported. */
  ghost predicate CleanlyGone(s: State) {
    && Quiescent(s) && AllStopped(s.cpus) && !s.line.pending && !s.line.registered
    && !s.mod.tasklet && !s.mod.domain && !s.mod.mapping
    && s.mem.lock.None? && LastReport(s.hist) == s.mem.runCount
  }

  lemma ActiveContexts(s: State, c: nat)
    requires Inv(s) && c < |s.cpus|
    ensures !s.cpus[c].top.pc.HIdle? ==> s.line.inprogress.Some?
    ensures !s.cpus[c].bottom.pc.SIdle? ==> s.tl.running.Some?
    ensures !s.cpus[c].raiser.pc.TOff? ==> 4 <= Rank(s.mod.pc) <= 6
  {
    assert CpuContexts(s, c) && RaiserPhase(Rank(s.mod.pc), s.cpus[c].raiser);
  }

  lemma ResourcesOutliveUsers(s: State)
    requires Inv(s)
    ensures SafelyHeld(s)
  {
    forall c | 0 <= c < |s.cpus|
      ensures !s.cpus[c].top.pc.HIdle? ==> s.line.inprogress.Some?
      ensures !s.cpus[c].bottom.pc.SIdle? ==> s.tl.running.Some?
      ensures !s.cpus[c].raiser.pc.TOff? ==> 4 <= Rank(s.mod.pc) <= 6
    {
      ActiveContexts(s, c);
    }
    assert Holdings(s.mod, s.line, s.tl);
  }

  /** A lock that is held is held by a context inside its critical section. */
  lemma LockHasHolder(s: State)
    requires Contexts(s) && s.mem.lock.Some?
    ensures var cpu := s.cpus[s.mem.lock.value.cpu]; HardInCs(cpu.top.pc) || SoftInCs(cpu.bottom.pc)
  {
    var h := s.mem.lock.value;
    assert CpuContexts(s, h.cpu);
    if h.level.Hard? {
      assert h == Holder(h.cpu, Hard);
    } else {
      assert h == Holder(h.cpu, Soft);
    }
  }

  lemma AllQuiet(s: State)
    requires Contexts(s) && s.line.inprogress.None? && s.tl.running.None? && !s.tl.sched
    ensures Quiescent(s) && s.mem.lock.None?
  {
    forall c | 0 <= c < |s.cpus|
      ensures s.cpus[c].top.pc.HIdle? && s.cpus[c].bottom.pc.SIdle?
    {
      assert CpuContexts(s, c);
    }
    if s.mem.lock.Some? { LockHasHolder(s); }
  }

  lemma RaisersStopped(s: State)
    requires Phases(s) && Rank(s.mod.pc) > 6
    ensures AllStopped(s.cpus)
  {
    forall c | 0 <= c < |s.cpus|
      ensures s.cpus[c].raiser.pc.TOff?
    {
      assert RaiserPhase(Rank(s.mod.pc), s.cpus[c].raiser);
    }
  }

  lemma UnloadIsClean(s: State)
    requires Inv(s) && Rank(s.mod.pc) == 12
    ensures CleanlyGone(s)
  {
    assert Holdings(s.mod, s.line, s.tl);
    AllQuiet(s);
    RaisersStopped(s);
    QuiescentReportsNewest(s);
  }

  // ---------- the lock

  /** Because the critical sections run with local interrupts off, nobody spins for a lock
      held by a context of the same CPU, suspended or not. */
  ghost predicate NoSelfDeadlock(s: State) {
    forall c | 0 <= c < |s.cpus| && (s.cpus[c].top.pc.HSpin? || s.cpus[c].bottom.pc.SSpin?) ::
      !HardInCs(s.cpus[c].top.pc) && !SoftInCs(s.cpus[c].bottom.pc)
      && s.mem.lock != Some(Holder(c, Hard)) && s.mem.lock != Some(Holder(c, Soft))
  }

  lemma SpinnersWaitForOthers(s: State)
    requires Inv(s)
    ensures NoSelfDeadlock(s)
  {
    forall c | 0 <= c < |s.cpus| && (s.cpus[c].top.pc.HSpin? || s.cpus[c].bottom.pc.SSpin?)
      ensures !HardInCs(s.cpus[c].top.pc) && !SoftInCs(s.cpus[c].bottom.pc)
      ensures s.mem.lock != Some(Holder(c, Hard)) && s.mem.lock != Some(Holder(c, Soft))
    {
      assert CpuContexts(s, c);
    }
  }

  /** CPU c spins in a top half for the lock that its own suspended bottom half holds. */
  ghost predicate SelfDeadlocked(s: State, c: nat) {
    && c < |s.cpus| && s.cpus[c].top.pc.HSpin? && SoftInCs(s.cpus[c].bottom.pc)
    && s.mem.lock == Some(Holder(c, Soft))
    && (forall d | 0 <= d < |s.cpus| :: !HardInCs(s.cpus[d].top.pc))
    && (forall d | 0 <= d < |s.cpus| && d != c :: !SoftInCs(s.cpus[d].bottom.pc))
  }

  /** What the irqsave variant is for: a hardirq delivered to a CPU whose bottom half holds the
      lock, which only the interrupt guard of a delivery rules out, stops that CPU at once. */
  lemma DeliveryIntoCriticalSectionDeadlocks(s: State, c: nat)
    requires Contexts(s) && s.mem.lock == Some(Holder(c, Soft))
    requires s.line.registered && s.line.inprogress.None?
    ensures c < |s.cpus| && SelfDeadlocked(ApplyDeliver(s, c), c)
  {
    assert CpuContexts(s, c);
    forall d | 0 <= d < |s.cpus|
      ensures !HardInCs(s.cpus[d].top.pc) && (d != c ==> !SoftInCs(s.cpus[d].bottom.pc))
    {
      assert CpuContexts(s, d);
    }
  }

  lemma HardStepLeavesDeadlock(s: State, c: nat, d: nat)
    requires SelfDeadlocked(s, c) && Enabled(s, HardStep(d))
    ensures SelfDeadlocked(ApplyHard(s, d), c)
  {
    match s.cpus[d].top.pc { case HSchedule => case HReturn => }
  }

  lemma SoftStepLeavesDeadlock(s: State, c: nat, d: nat)
    requires SelfDeadlocked(s, c) && Enabled(s, SoftStep(d))
    ensures SelfDeadlocked(ApplySoft(s, d), c)
  {
    match s.cpus[d].bottom.pc { case SEnter => case SRestore => case SReturn => }
  }

  /** ... and for ever, whatever the other contexts do. */
  lemma SelfDeadlockIsForever(s: State, c: nat, e: Event)
    requires SelfDeadlocked(s, c) && Enabled(s, e)
    ensures SelfDeadlocked(Apply(s, e), c)
  {
    match e
    case HardStep(d) => HardStepLeavesDeadlock(s, c, d);
    case SoftStep(d) => SoftStepLeavesDeadlock(s, c, d);
    case ModStep(_) => case Spawn(_) => case Deliver(_) => case StartBottom(_) => case TaskStep(_, _) =>
  }

  /** The step of the context that holds the lock. */
  ghost function HolderStep(s: State): Event
    requires s.mem.lock.Some?
  {
    if s.mem.lock.value.level.Hard? then HardStep(s.mem.lock.value.cpu)
    else SoftStep(s.mem.lock.value.cpu)
  }

  /** Statements the holder still has to run, up to and including the unlock. */
  ghost function ToUnlock(s: State): nat
    requires s.mem.lock.Some? && s.mem.lock.value.cpu < |s.cpus|
  {
    var cpu := s.cpus[s.mem.lock.value.cpu];
    if s.mem.lock.value.level.Hard? then
      match cpu.top.pc
      case HLoadRun => 8 case HStoreRun => 7 case HReadN => 6 case HLoadShared => 5
      case HStoreShared => 4 case HReadVal => 3 case HStamp => 2 case HUnlock => 1 case _ => 0
    else
      match cpu.bottom.pc
      case SReadSeq => 5 case SLoadShared => 4 case SStoreShared => 3 case SReadVal => 2
      case SUnlock => 1 case _ => 0
  }

  /** The holder is never stuck, and each of its steps brings the unlock nearer. */
  ghost predicate HolderProgresses(s: State)
    requires s.mem.lock.Some?
  {
    && s.mem.lock.value.cpu < |s.cpus| && 1 <= ToUnlock(s) <= 8
    && Enabled(s, HolderStep(s))
    && var t := Apply(s, HolderStep(s));
      if ToUnlock(s) == 1 then t.mem.lock.None?
      else t.mem.lock == s.mem.lock && |t.cpus| == |s.cpus| && ToUnlock(t) == ToUnlock(s) - 1
  }

  lemma HardHolderProgresses(s: State, c: nat)
    requires c < |s.cpus| && s.mem.lock == Some(Holder(c, Hard)) && HardInCs(s.cpus[c].top.pc)
    ensures HolderProgresses(s)
  {
    match s.cpus[c].top.pc
    case HLoadRun => case HStoreRun => case HReadN => case HLoadShared => case HStoreShared =>
    case HReadVal => case HStamp => case HUnlock =>
  }

  lemma SoftHolderProgresses(s: State, c: nat)
    requires c < |s.cpus| && s.mem.lock == Some(Holder(c, Soft))
    requires SoftInCs(s.cpus[c].bottom.pc) && s.cpus[c].top.pc.HIdle?
    ensures HolderProgresses(s)
  {
    match s.cpus[c].bottom.pc
    case SReadSeq => case SLoadShared => case SStoreShared => case SReadVal => case SUnlock =>
  }

  lemma HolderReachesUnlock(s: State)
    requires Inv(s) && s.mem.lock.Some?
    ensures HolderProgresses(s)
  {
    var c := s.mem.lock.value.cpu;
    assert CpuContexts(s, c);
    if s.mem.lock.value.level.Hard? {
      HardHolderProgresses(s, c);
    } else {
      SoftHolderProgresses(s, c);
    }
  }

  // ---------- all of it, in every reachable state

  ghost predicate Guarantees(s: State) {
    && (LastReport(s.hist) != s.mem.pendingSeq ==> Carried(s))
    && (Quiescent(s) ==> LastReport(s.hist) == s.mem.runCount)
    && ExactTickets(s) && OrderedReports(s) && ConservedRaises(s)
    && SafelyHeld(s) && NoSelfDeadlock(s)
    && (s.mem.lock.Some? ==> HolderProgresses(s))
    && (s.mod.pc.MGone? ==> CleanlyGone(s))
  }

  lemma InvGuarantees(s: State)
    requires Inv(s)
    ensures Guarantees(s)
  {
    NoLostBottomHalf(s);
    if Quiescent(s) { QuiescentReportsNewest(s); }
    TicketsAreExact(s);
    ReportsAreOrdered(s);
    RaisesAreConserved(s);
    ResourcesOutliveUsers(s);
    SpinnersWaitForOthers(s);
    if s.mem.lock.Some? { HolderReachesUnlock(s); }
    if s.mod.pc.MGone? { UnloadIsClean(s); }
  }

  lemma EveryReachableState(s: State)
    requires Reachable(s)
    ensures Guarantees(s)
  {
    ReachableHasInv(s);
    InvGuarantees(s);
  }
}
