/**
 The protocol of interrupts/concurrency/interrupt_competition.c as a transition system
 over single statements.

 Any number of CPUs raise one simulated line. A CPU is a stack of at most three contexts:
 the raiser thread at the bottom, a bottom half above it, a top half on the very top.
 Each context has its own program counter and registers. `x++` on a shared counter is two
 steps, a load and a store, so nothing but the spinlock keeps an increment from being lost.

 The environment the program runs in is taken from the comment at the head of the file:
 - one pending bit per line: a raise that finds it set merges with the earlier one;
 - a delivery that finds the handler in progress is dropped;
 - a tasklet has a SCHED bit, cleared before its body runs, and a RUN bit that keeps it
   from running on two CPUs at once;
 - free_irq waits for a running handler, smpboot_unregister_percpu_thread waits for the
   threads, tasklet_kill waits until the tasklet is neither scheduled nor running.
 A delivery and a bottom half may start on any CPU whose contexts allow it.
 */
module CompetitionModel {
  import opened Wrappers

  const RAISES_PER_CPU: nat := 10

  /** Program counter of a top half, named by the statement that runs next. */
  datatype HardPc =
    | HIdle | HSpin | HLoadRun | HStoreRun | HReadN | HLoadShared | HStoreShared
    | HReadVal | HStamp | HUnlock | HSchedule | HReturn

  /** Program counter of a bottom half. Local interrupts go off at SEnter and on at SRestore. */
  datatype SoftPc =
    | SIdle | SEnter | SSpin | SReadSeq | SLoadShared | SStoreShared
    | SReadVal | SUnlock | SRestore | SReturn

  /** Program counter of a raiser thread; TOff is a thread that is not running. */
  datatype TaskPc = TOff | TCheck | TRaise | TInc

  /** Program counter of the thread that loads and unloads the module. */
  datatype ModPc =
    | MSetup | MDomain | MMapping | MRequest | MRegister | MLoaded
    | MStop | MFree | MFreeWait | MDispose | MRemove | MKill | MGone

  datatype Level = Hard | Soft
  datatype Holder = Holder(cpu: nat, level: Level)
  datatype Ticket = Ticket(level: Level, val: nat)

  /** A top half: `reg` is the register of the increment under way, `n` the local n. */
  datatype Top = Top(pc: HardPc, reg: nat, n: nat)
  datatype Bottom = Bottom(pc: SoftPc, reg: nat)
  /** A raiser thread: `calls` counts raise calls, which gs_raise_count trails by one step. */
  datatype Raiser = Raiser(pc: TaskPc, spawned: bool, raiseCount: nat, calls: nat)
  datatype Cpu = Cpu(top: Top, bottom: Bottom, raiser: Raiser)

  /** gs_counter_lock and the variables it guards. */
  datatype Memory = Memory(lock: Option<Holder>, sharedCount: nat, runCount: nat, pendingSeq: nat)
  /** The line: its pending bit, the CPU whose handler is in progress, whether a handler is registered. */
  datatype Line = Line(pending: bool, inprogress: Option<nat>, registered: bool)
  /** gs_bottom_half: the SCHED bit and the CPU that set the RUN bit. */
  datatype Tasklet = Tasklet(sched: bool, running: Option<nat>)
  /** The loading thread and the resources it holds. */
  datatype Module = Module(pc: ModPc, stopping: bool, tasklet: bool, domain: bool, mapping: bool)

  /** What happened so far; no step reads it. `tickets` are the captured vals, `reports` the
      captured seqs, both in the order of capture. */
  datatype History = History(
    tickets: seq<Ticket>, reports: seq<nat>, hardIncs: nat, softIncs: nat,
    scheduled: nat, started: nat, finished: nat, raises: RaiseLedger)
  datatype RaiseLedger = RaiseLedger(
    raised: nat, failed: nat, merged: nat, dropped: nat, discarded: nat, delivered: nat)

  datatype State = State(
    cpus: seq<Cpu>, mem: Memory, line: Line, tl: Tasklet, mod: Module, hist: History)

  datatype Event =
    | ModStep(ok: bool)
    | Spawn(c: nat)
    | Deliver(c: nat)
    | HardStep(c: nat)
    | StartBottom(c: nat)
    | SoftStep(c: nat)
    | TaskStep(c: nat, ok: bool)

  /** A CPU that runs neither handler, nor bottom half, nor raiser, and has raised nothing. */
  predicate FreshCpu(cpu: Cpu) {
    && cpu.top.pc.HIdle? && cpu.bottom.pc.SIdle? && cpu.raiser.pc.TOff?
    && !cpu.raiser.spawned && cpu.raiser.calls == 0 && cpu.raiser.raiseCount == 0
  }

  predicate FreshHistory(h: History) {
    && h.tickets == [] && h.reports == [] && h.hardIncs == 0 && h.softIncs == 0
    && h.scheduled == 0 && h.started == 0 && h.finished == 0
    && h.raises.raised == 0 && h.raises.failed == 0 && h.raises.merged == 0
    && h.raises.dropped == 0 && h.raises.discarded == 0 && h.raises.delivered == 0
  }

  predicate FreshModule(m: Module) {
    m.pc.MSetup? && !m.stopping && !m.tasklet && !m.domain && !m.mapping
  }

  /** Before module_init, on a machine with any positive number of CPUs. */
  predicate Initial(s: State) {
    && |s.cpus| >= 1
    && (forall c | 0 <= c < |s.cpus| :: FreshCpu(s.cpus[c]))
    && s.mem.lock.None? && s.mem.sharedCount == 0 && s.mem.runCount == 0 && s.mem.pendingSeq == 0
    && !s.line.pending && s.line.inprogress.None? && !s.line.registered
    && !s.tl.sched && s.tl.running.None?
    && FreshModule(s.mod)
    && FreshHistory(s.hist)
  }

  predicate HardInCs(pc: HardPc) {
    pc.HLoadRun? || pc.HStoreRun? || pc.HReadN? || pc.HLoadShared? || pc.HStoreShared?
    || pc.HReadVal? || pc.HStamp? || pc.HUnlock?
  }

  predicate SoftInCs(pc: SoftPc) {
    pc.SReadSeq? || pc.SLoadShared? || pc.SStoreShared? || pc.SReadVal? || pc.SUnlock?
  }

  /** Bottom half between local_irq_save and local_irq_restore. */
  predicate SoftIrqsOff(pc: SoftPc) {
    pc.SSpin? || SoftInCs(pc) || pc.SRestore?
  }

  predicate AllSpawned(cpus: seq<Cpu>) {
    forall c | 0 <= c < |cpus| :: cpus[c].raiser.spawned
  }

  predicate AllStopped(cpus: seq<Cpu>) {
    forall c | 0 <= c < |cpus| :: cpus[c].raiser.pc.TOff?
  }

  predicate ModEnabled(s: State, ok: bool) {
    match s.mod.pc
    case MRegister => ok == AllSpawned(s.cpus)
    case MStop => AllStopped(s.cpus)
    case MFreeWait => s.line.inprogress.None?
    case MKill => !s.tl.sched && s.tl.running.None?
    case MGone => false
    case _ => true
  }

  /** A raiser runs when nothing is stacked above it; at its check it goes on only to stop or
      to raise again. */
  predicate TaskEnabled(cpu: Cpu, stopping: bool) {
    && cpu.top.pc.HIdle? && cpu.bottom.pc.SIdle? && !cpu.raiser.pc.TOff?
    && (cpu.raiser.pc.TCheck? ==> stopping || cpu.raiser.raiseCount < RAISES_PER_CPU)
  }

  predicate Enabled(s: State, e: Event) {
    match e
    case ModStep(ok) => ModEnabled(s, ok)
    case Spawn(c) => c < |s.cpus| && s.mod.pc.MRegister? && !s.cpus[c].raiser.spawned
    case Deliver(c) =>
      && c < |s.cpus| && s.line.pending
      && s.cpus[c].top.pc.HIdle? && !SoftIrqsOff(s.cpus[c].bottom.pc)
    case HardStep(c) =>
      && c < |s.cpus| && !s.cpus[c].top.pc.HIdle?
      && (s.cpus[c].top.pc.HSpin? ==> s.mem.lock.None?)
    case StartBottom(c) =>
      && c < |s.cpus| && s.tl.sched && s.tl.running.None?
      && s.cpus[c].top.pc.HIdle? && s.cpus[c].bottom.pc.SIdle?
    case SoftStep(c) =>
      && c < |s.cpus| && s.cpus[c].top.pc.HIdle? && !s.cpus[c].bottom.pc.SIdle?
      && (s.cpus[c].bottom.pc.SSpin? ==> s.mem.lock.None?)
    case TaskStep(c, _) => c < |s.cpus| && TaskEnabled(s.cpus[c], s.mod.stopping)
  }

  // ---------- the statements

  /** One statement of interrupt_competition_top_half on CPU c, on its registers and the
      variables under the lock. */
  function TopStatement(c: nat, t: Top, m: Memory): (Top, Memory)
    requires !t.pc.HIdle?
  {
    match t.pc
    case HSpin => (t.(pc := HLoadRun), m.(lock := Some(Holder(c, Hard))))
    case HLoadRun => (t.(pc := HStoreRun, reg := m.runCount), m)
    case HStoreRun => (t.(pc := HReadN), m.(runCount := t.reg + 1))
    case HReadN => (t.(pc := HLoadShared, n := m.runCount), m)
    case HLoadShared => (t.(pc := HStoreShared, reg := m.sharedCount), m)
    case HStoreShared => (t.(pc := HReadVal), m.(sharedCount := t.reg + 1))
    case HReadVal => (t.(pc := HStamp), m)
    case HStamp => (t.(pc := HUnlock), m.(pendingSeq := t.n))
    case HUnlock => (t.(pc := HSchedule), m.(lock := None))
    case HSchedule => (t.(pc := HReturn), m)
    case HReturn => (t.(pc := HIdle), m)
  }

  function TopHistory(pc: HardPc, m: Memory, h: History): History {
    match pc
    case HStoreShared => h.(hardIncs := h.hardIncs + 1)
    case HReadVal => h.(tickets := h.tickets + [Ticket(Hard, m.sharedCount)])
    case HSchedule => h.(scheduled := h.scheduled + 1)
    case _ => h
  }

  /** One statement of interrupt_competition_bottom_half on CPU c. */
  function BottomStatement(c: nat, b: Bottom, m: Memory): (Bottom, Memory)
    requires !b.pc.SIdle?
  {
    match b.pc
    case SEnter => (b.(pc := SSpin), m)
    case SSpin => (b.(pc := SReadSeq), m.(lock := Some(Holder(c, Soft))))
    case SReadSeq => (b.(pc := SLoadShared), m)
    case SLoadShared => (b.(pc := SStoreShared, reg := m.sharedCount), m)
    case SStoreShared => (b.(pc := SReadVal), m.(sharedCount := b.reg + 1))
    case SReadVal => (b.(pc := SUnlock), m)
    case SUnlock => (b.(pc := SRestore), m.(lock := None))
    case SRestore => (b.(pc := SReturn), m)
    case SReturn => (b.(pc := SIdle), m)
  }

  function BottomHistory(pc: SoftPc, m: Memory, h: History): History {
    match pc
    case SReadSeq => h.(reports := h.reports + [m.pendingSeq])
    case SStoreShared => h.(softIncs := h.softIncs + 1)
    case SReadVal => h.(tickets := h.tickets + [Ticket(Soft, m.sharedCount)])
    case SReturn => h.(finished := h.finished + 1)
    case _ => h
  }

  /** irq_raiser_should_run, then the two statements of run_irq_raiser. */
  function RaiserStatement(r: Raiser, stopping: bool): Raiser
    requires !r.pc.TOff?
  {
    match r.pc
    case TCheck => r.(pc := if stopping then TOff else TRaise)
    case TRaise => r.(pc := TInc, calls := r.calls + 1)
    case TInc => r.(pc := TCheck, raiseCount := r.raiseCount + 1)
  }

  /** module_init with its unwind ladder, then module_exit; both leave through MFree .. MKill. */
  function ModStatement(m: Module, ok: bool): Module
    requires !m.pc.MGone?
  {
    match m.pc
    case MSetup => m.(pc := MDomain, tasklet := true)
    case MDomain => if ok then m.(pc := MMapping, domain := true) else m.(pc := MKill)
    case MMapping => if ok then m.(pc := MRequest, mapping := true) else m.(pc := MRemove)
    case MRequest => if ok then m.(pc := MRegister) else m.(pc := MDispose)
    case MRegister => if ok then m.(pc := MLoaded) else m.(pc := MStop, stopping := true)
    case MLoaded => m.(pc := MStop, stopping := true)
    case MStop => m.(pc := MFree)
    case MFree => m.(pc := MFreeWait)
    case MFreeWait => m.(pc := MDispose)
    case MDispose => m.(pc := MRemove, mapping := false)
    case MRemove => m.(pc := MKill, domain := false)
    case MKill => m.(pc := MGone, tasklet := false)
  }

  // ---------- the statements in the whole state

  function ApplyMod(s: State, ok: bool): State
    requires ModEnabled(s, ok)
  {
    var t := s.(mod := ModStatement(s.mod, ok));
    if s.mod.pc.MRequest? then t.(line := s.line.(registered := ok))
    else if s.mod.pc.MFree? then t.(line := s.line.(registered := false))
    else if s.mod.pc.MRemove? && s.line.pending then
      t.(line := s.line.(pending := false),
         hist := s.hist.(raises := Discard(s.hist.raises)))
    else t
  }

  function Discard(r: RaiseLedger): RaiseLedger {
    r.(discarded := r.discarded + 1)
  }

  /** The line is serviced on CPU c: run the handler, or lose the raise. */
  function ApplyDeliver(s: State, c: nat): State
    requires c < |s.cpus|
  {
    var r := s.hist.raises;
    if !s.line.registered then
      s.(line := s.line.(pending := false), hist := s.hist.(raises := Discard(r)))
    else if s.line.inprogress.Some? then
      s.(line := s.line.(pending := false),
         hist := s.hist.(raises := r.(dropped := r.dropped + 1)))
    else
      s.(line := s.line.(pending := false, inprogress := Some(c)),
         cpus := s.cpus[c := s.cpus[c].(top := s.cpus[c].top.(pc := HSpin))],
         hist := s.hist.(raises := r.(delivered := r.delivered + 1)))
  }

  function ApplyHard(s: State, c: nat): State
    requires c < |s.cpus| && !s.cpus[c].top.pc.HIdle?
  {
    var top := s.cpus[c].top;
    var (top', mem') := TopStatement(c, top, s.mem);
    s.(cpus := s.cpus[c := s.cpus[c].(top := top')], mem := mem',
       tl := s.tl.(sched := s.tl.sched || top.pc.HSchedule?),
       line := s.line.(inprogress := if top.pc.HReturn? then None else s.line.inprogress),
       hist := TopHistory(top.pc, s.mem, s.hist))
  }

  /** The tasklet softirq picks the tasklet up on CPU c: RUN set, SCHED cleared, body entered. */
  function ApplyStartBottom(s: State, c: nat): State
    requires c < |s.cpus|
  {
    s.(tl := Tasklet(false, Some(c)),
       cpus := s.cpus[c := s.cpus[c].(bottom := s.cpus[c].bottom.(pc := SEnter))],
       hist := s.hist.(started := s.hist.started + 1))
  }

  function ApplySoft(s: State, c: nat): State
    requires c < |s.cpus| && !s.cpus[c].bottom.pc.SIdle?
  {
    var bottom := s.cpus[c].bottom;
    var (bottom', mem') := BottomStatement(c, bottom, s.mem);
    s.(cpus := s.cpus[c := s.cpus[c].(bottom := bottom')], mem := mem',
       tl := s.tl.(running := if bottom.pc.SReturn? then None else s.tl.running),
       hist := BottomHistory(bottom.pc, s.mem, s.hist))
  }

  /** What irq_set_irqchip_state(.., true) does to the line; run_irq_raiser ignores its result. */
  function RaiseLedgerOf(r: RaiseLedger, pending: bool, ok: bool): RaiseLedger {
    if !ok then r.(raised := r.raised + 1, failed := r.failed + 1)
    else if pending then r.(raised := r.raised + 1, merged := r.merged + 1)
    else r.(raised := r.raised + 1)
  }

  function ApplyTask(s: State, c: nat, ok: bool): State
    requires c < |s.cpus| && !s.cpus[c].raiser.pc.TOff?
  {
    var r := s.cpus[c].raiser;
    var t := s.(cpus := s.cpus[c := s.cpus[c].(raiser := RaiserStatement(r, s.mod.stopping))]);
    if r.pc.TRaise? then
      t.(line := s.line.(pending := s.line.pending || ok),
         hist := s.hist.(raises := RaiseLedgerOf(s.hist.raises, s.line.pending, ok)))
    else t
  }

  function ApplySpawn(s: State, c: nat): State
    requires c < |s.cpus|
  {
    s.(cpus := s.cpus[c := s.cpus[c].(raiser := s.cpus[c].raiser.(spawned := true, pc := TCheck))])
  }

  function Apply(s: State, e: Event): State
    requires Enabled(s, e)
  {
    match e
    case ModStep(ok) => ApplyMod(s, ok)
    case Spawn(c) => ApplySpawn(s, c)
    case Deliver(c) => ApplyDeliver(s, c)
    case HardStep(c) => ApplyHard(s, c)
    case StartBottom(c) => ApplyStartBottom(s, c)
    case SoftStep(c) => ApplySoft(s, c)
    case TaskStep(c, ok) => ApplyTask(s, c, ok)
  }

  /** Every event of the schedule can happen when its turn comes. */
  predicate Feasible(s: State, es: seq<Event>)
    decreases |es|
  {
    es == [] || (Enabled(s, es[0]) && Feasible(Apply(s, es[0]), es[1..]))
  }

  function Exec(s: State, es: seq<Event>): State
    requires Feasible(s, es)
    decreases |es|
  {
    if es == [] then s else Exec(Apply(s, es[0]), es[1..])
  }

  /** The state after a schedule in which what cannot happen is skipped. */
  function Follow(s: State, es: seq<Event>): State
    decreases |es|
  {
    if es == [] then s
    else Follow(if Enabled(s, es[0]) then Apply(s, es[0]) else s, es[1..])
  }

  /** The schedule `es` leads from the initial state `s0` to `s`. */
  ghost predicate Reaches(s0: State, es: seq<Event>, s: State) {
    Initial(s0) && Feasible(s0, es) && Exec(s0, es) == s
  }

  ghost predicate Reachable(s: State) {
    exists s0, es :: Reaches(s0, es, s)
  }

  function LastReport(h: History): nat {
    if h.reports == [] then 0 else h.reports[|h.reports| - 1]
  }

  /** No handler, no bottom half and no tasklet waiting to run. */
  predicate Quiescent(s: State) {
    && !s.tl.sched
    && forall c | 0 <= c < |s.cpus| :: s.cpus[c].top.pc.HIdle? && s.cpus[c].bottom.pc.SIdle?
  }
}
