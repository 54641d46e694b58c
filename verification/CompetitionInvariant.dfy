/**
 The inductive invariant of the interrupt competition and the proof that every statement of
 every context keeps it. There is at most one handler in progress and one bottom half
 running, so all counting is stated about that pair, the variables under the lock and the
 history; only the groups Contexts, Raises and Phases speak of every CPU.
 */
module CompetitionInvariant {
  import opened Wrappers
  import opened CompetitionModel

  // ---------- contexts and the spinlock

  /** At most one handler (INPROGRESS), one bottom half (RUN), one lock holder; a CPU that
      runs a top half has no bottom half suspended with interrupts off. */
  ghost predicate CpuContexts(s: State, c: nat)
    requires c < |s.cpus|
  {
    var top, bottom := s.cpus[c].top.pc, s.cpus[c].bottom.pc;
    && (!top.HIdle? <==> s.line.inprogress == Some(c))
    && (!bottom.SIdle? <==> s.tl.running == Some(c))
    && (HardInCs(top) <==> s.mem.lock == Some(Holder(c, Hard)))
    && (SoftInCs(bottom) <==> s.mem.lock == Some(Holder(c, Soft)))
    && (!top.HIdle? ==> !SoftIrqsOff(bottom))
  }

  ghost predicate Contexts(s: State) {
    && (forall c | 0 <= c < |s.cpus| :: CpuContexts(s, c))
    && (s.line.inprogress.Some? ==> s.line.inprogress.value < |s.cpus|)
    && (s.tl.running.Some? ==> s.tl.running.value < |s.cpus|)
    && (s.mem.lock.Some? ==> s.mem.lock.value.cpu < |s.cpus|)
  }

  /** The handler in progress, an idle one when there is none. */
  ghost function TopOf(s: State): Top {
    if s.line.inprogress.Some? && s.line.inprogress.value < |s.cpus|
    then s.cpus[s.line.inprogress.value].top else Top(HIdle, 0, 0)
  }

  /** The running bottom half, an idle one when there is none. */
  ghost function BottomOf(s: State): Bottom {
    if s.tl.running.Some? && s.tl.running.value < |s.cpus|
    then s.cpus[s.tl.running.value].bottom else Bottom(SIdle, 0)
  }

  /** Mutual exclusion of the two critical sections. */
  ghost predicate Exclusive(t: Top, b: Bottom) {
    !(HardInCs(t.pc) && SoftInCs(b.pc))
  }

  // ---------- variables under the lock, registers, tickets

  ghost predicate BeforeCount(pc: HardPc) { pc.HSpin? || pc.HLoadRun? || pc.HStoreRun? }

  ghost predicate BeforeStamp(pc: HardPc) {
    pc.HReadN? || pc.HLoadShared? || pc.HStoreShared? || pc.HReadVal? || pc.HStamp?
  }

  ghost predicate BeforeRead(pc: SoftPc) { pc.SEnter? || pc.SSpin? || pc.SReadSeq? }

  ghost predicate Numbered(ts: seq<Ticket>) {
    forall i | 0 <= i < |ts| :: ts[i].val == i + 1
  }

  /** Inside a critical section the registers still equal what they were loaded from. */
  ghost predicate Counters(t: Top, b: Bottom, m: Memory, tickets: seq<Ticket>) {
    && (t.pc.HStoreRun? ==> t.reg == m.runCount)
    && (t.pc.HStoreShared? ==> t.reg == m.sharedCount)
    && (t.pc.HLoadShared? || t.pc.HStoreShared? || t.pc.HReadVal? || t.pc.HStamp? ==> t.n == m.runCount)
    && (b.pc.SStoreShared? ==> b.reg == m.sharedCount)
    && m.runCount == m.pendingSeq + Bit(BeforeStamp(t.pc))
    && Numbered(tickets)
    && |tickets| + Bit(t.pc.HReadVal?) + Bit(b.pc.SReadVal?) == m.sharedCount
  }

  // ---------- accounting

  ghost predicate Accounts(t: HardPc, b: SoftPc, m: Memory, sched: bool, h: History) {
    && m.sharedCount == h.hardIncs + h.softIncs
    && h.raises.delivered == m.runCount + Bit(BeforeCount(t))
    && m.runCount == h.hardIncs + Bit(t.HReadN? || t.HLoadShared? || t.HStoreShared?)
    && m.runCount == h.scheduled + Bit(BeforeStamp(t) || t.HUnlock? || t.HSchedule?)
    && h.started + Bit(sched) <= h.scheduled
    && h.started == h.finished + Bit(!b.SIdle?)
    && h.started == |h.reports| + Bit(BeforeRead(b))
    && h.started == h.softIncs + Bit(BeforeRead(b) || b.SLoadShared? || b.SStoreShared?)
  }

  ghost predicate Conserved(r: RaiseLedger, pending: bool) {
    r.raised == r.failed + r.merged + r.dropped + r.discarded + r.delivered + Bit(pending)
  }

  // ---------- what bottom halves report

  ghost predicate Ordered(xs: seq<nat>) {
    forall i, j | 0 <= i <= j < |xs| :: xs[i] <= xs[j]
  }

  /** A stamp nobody has read yet is on its way to a bottom half that will read it. */
  ghost predicate OnItsWay(t: HardPc, b: SoftPc, sched: bool) {
    t.HUnlock? || t.HSchedule? || sched || BeforeRead(b)
  }

  ghost predicate Reports(t: HardPc, b: SoftPc, sched: bool, pendingSeq: nat, h: History) {
    && Ordered(h.reports)
    && (forall i | 0 <= i < |h.reports| :: 1 <= h.reports[i] <= pendingSeq)
    && (LastReport(h) != pendingSeq ==> OnItsWay(t, b, sched))
  }

  /** Everything about the active pair of contexts. */
  ghost predicate Core(t: Top, b: Bottom, m: Memory, sched: bool, h: History) {
    && Exclusive(t, b)
    && Counters(t, b, m, h.tickets)
    && Accounts(t.pc, b.pc, m, sched, h)
    && Reports(t.pc, b.pc, sched, m.pendingSeq, h)
  }

  ghost predicate CoreOf(s: State) {
    Core(TopOf(s), BottomOf(s), s.mem, s.tl.sched, s.hist)
  }

  // ---------- raises

  ghost function TotalCalls(cpus: seq<Cpu>): nat {
    if cpus == [] then 0 else cpus[0].raiser.calls + TotalCalls(cpus[1..])
  }

  lemma {:induction false} TotalCallsUpdate(cpus: seq<Cpu>, c: nat, cpu: Cpu)
    requires c < |cpus|
    ensures TotalCalls(cpus[c := cpu]) + cpus[c].raiser.calls == TotalCalls(cpus) + cpu.raiser.calls
  {
    if c == 0 {
      assert cpus[0 := cpu][1..] == cpus[1..];
    } else {
      assert cpus[c := cpu][1..] == cpus[1..][c - 1 := cpu];
      TotalCallsUpdate(cpus[1..], c - 1, cpu);
    }
  }

  /** The raise precedes the increment of gs_raise_count. */
  ghost predicate RaiserOk(r: Raiser) {
    && r.calls == r.raiseCount + Bit(r.pc.TInc?)
    && r.calls <= RAISES_PER_CPU
    && (r.pc.TRaise? ==> r.raiseCount < RAISES_PER_CPU)
  }

  ghost predicate Raises(s: State) {
    && (forall c | 0 <= c < |s.cpus| :: RaiserOk(s.cpus[c].raiser))
    && s.hist.raises.raised == TotalCalls(s.cpus)
    && Conserved(s.hist.raises, s.line.pending)
  }

  // ---------- resources and the life of the module

  ghost function Rank(pc: ModPc): nat {
    match pc
    case MSetup => 0 case MDomain => 1 case MMapping => 2 case MRequest => 3 case MRegister => 4
    case MLoaded => 5 case MStop => 6 case MFree => 7 case MFreeWait => 8 case MDispose => 9
    case MRemove => 10 case MKill => 11 case MGone => 12
  }

  ghost predicate RaiserPhase(rank: nat, r: Raiser) {
    && (!r.pc.TOff? ==> 4 <= rank <= 6)
    && (rank < 4 ==> !r.spawned)
    && (rank <= 5 ==> (r.spawned <==> !r.pc.TOff?))
    && (rank == 5 ==> r.spawned)
  }

  /** What the loading thread holds at each rung. */
  ghost predicate Held(m: Module, l: Line) {
    var r := Rank(m.pc);
    && (m.tasklet <==> 1 <= r <= 11)
    && (m.domain <==> 2 <= r <= 10)
    && (m.mapping <==> 3 <= r <= 9)
    && (l.registered <==> 4 <= r <= 7)
    && (r <= 5 ==> !m.stopping)
    && (r == 6 ==> m.stopping)
  }

  /** The rungs by which whoever uses it is gone. */
  ghost predicate UsersGone(m: Module, l: Line, tl: Tasklet) {
    var r := Rank(m.pc);
    && (l.inprogress.Some? ==> 4 <= r <= 8)
    && (l.pending ==> 4 <= r <= 10)
    && (tl.sched || tl.running.Some? ==> 4 <= r <= 11)
  }

  ghost predicate Holdings(m: Module, l: Line, tl: Tasklet) {
    Held(m, l) && UsersGone(m, l, tl)
  }

  ghost predicate Phases(s: State) {
    && Holdings(s.mod, s.line, s.tl)
    && forall c | 0 <= c < |s.cpus| :: RaiserPhase(Rank(s.mod.pc), s.cpus[c].raiser)
  }

  ghost predicate Inv(s: State) {
    && Contexts(s)
    && CoreOf(s)
    && Raises(s)
    && Phases(s)
  }

  // ---------- statements of the active pair

  lemma TopKeepsCounters(c: nat, t: Top, b: Bottom, m: Memory, h: History)
    requires !t.pc.HIdle? && Exclusive(t, b) && Counters(t, b, m, h.tickets)
    ensures var (t', m') := TopStatement(c, t, m);
      Counters(t', b, m', TopHistory(t.pc, m, h).tickets)
  {
    match t.pc
    case HSpin => case HLoadRun => case HStoreRun => case HReadN => case HLoadShared =>
    case HStoreShared => case HReadVal => case HStamp => case HUnlock => case HSchedule => case HReturn =>
  }

  lemma TopKeepsAccounts(c: nat, t: Top, b: Bottom, m: Memory, sched: bool, h: History)
    requires !t.pc.HIdle? && Counters(t, b, m, h.tickets) && Accounts(t.pc, b.pc, m, sched, h)
    ensures var (t', m') := TopStatement(c, t, m);
      Accounts(t'.pc, b.pc, m', sched || t.pc.HSchedule?, TopHistory(t.pc, m, h))
  {
    match t.pc
    case HSpin => case HLoadRun => case HStoreRun => case HReadN => case HLoadShared =>
    case HStoreShared => case HReadVal => case HStamp => case HUnlock => case HSchedule => case HReturn =>
  }

  lemma TopKeepsReports(c: nat, t: Top, b: Bottom, m: Memory, sched: bool, h: History)
    requires !t.pc.HIdle? && Core(t, b, m, sched, h)
    ensures var (t', m') := TopStatement(c, t, m);
      Reports(t'.pc, b.pc, sched || t.pc.HSchedule?, m'.pendingSeq, TopHistory(t.pc, m, h))
  {
    match t.pc
    case HSpin => case HLoadRun => case HStoreRun => case HReadN => case HLoadShared =>
    case HStoreShared => case HReadVal => case HStamp => case HUnlock => case HSchedule => case HReturn =>
  }

  lemma BottomKeepsCounters(c: nat, t: Top, b: Bottom, m: Memory, h: History)
    requires !b.pc.SIdle? && Exclusive(t, b) && Counters(t, b, m, h.tickets)
    ensures var (b', m') := BottomStatement(c, b, m);
      Counters(t, b', m', BottomHistory(b.pc, m, h).tickets)
  {
    match b.pc
    case SEnter => case SSpin => case SReadSeq => case SLoadShared => case SStoreShared =>
    case SReadVal => case SUnlock => case SRestore => case SReturn =>
  }

  lemma BottomKeepsAccounts(c: nat, t: Top, b: Bottom, m: Memory, sched: bool, h: History)
    requires !b.pc.SIdle? && Counters(t, b, m, h.tickets) && Accounts(t.pc, b.pc, m, sched, h)
    ensures var (b', m') := BottomStatement(c, b, m);
      Accounts(t.pc, b'.pc, m', sched, BottomHistory(b.pc, m, h))
  {
    match b.pc
    case SEnter => case SSpin => case SReadSeq => case SLoadShared => case SStoreShared =>
    case SReadVal => case SUnlock => case SRestore => case SReturn =>
  }

  /** A bottom half reads a stamp no older than any read before, and at least 1. */
  lemma BottomKeepsReports(c: nat, t: Top, b: Bottom, m: Memory, sched: bool, h: History)
    requires !b.pc.SIdle? && Core(t, b, m, sched, h)
    ensures var (b', m') := BottomStatement(c, b, m);
      Reports(t.pc, b'.pc, sched, m'.pendingSeq, BottomHistory(b.pc, m, h))
  {
    match b.pc
    case SEnter => case SSpin => case SReadSeq => case SLoadShared => case SStoreShared =>
    case SReadVal => case SUnlock => case SRestore => case SReturn =>
  }

  // ---------- steps of the whole state

  /** Where the lock is after a step of CPU c says who may be in a critical section. */
  lemma HardKeepsContexts(s: State, c: nat)
    requires Contexts(s) && Enabled(s, HardStep(c))
    ensures Contexts(ApplyHard(s, c))
  {
    var t := ApplyHard(s, c);
    assert CpuContexts(s, c);
    assert CpuContexts(t, c) by {
      match s.cpus[c].top.pc
      case HSpin => case HLoadRun => case HStoreRun => case HReadN => case HLoadShared =>
      case HStoreShared => case HReadVal => case HStamp => case HUnlock => case HSchedule => case HReturn =>
    }
    forall d | 0 <= d < |t.cpus| && d != c
      ensures CpuContexts(t, d)
    {
      assert CpuContexts(s, d);
      match s.cpus[c].top.pc
      case HSpin => case HLoadRun => case HStoreRun => case HReadN => case HLoadShared =>
      case HStoreShared => case HReadVal => case HStamp => case HUnlock => case HSchedule => case HReturn =>
    }
  }

  lemma SoftKeepsContexts(s: State, c: nat)
    requires Contexts(s) && Enabled(s, SoftStep(c))
    ensures Contexts(ApplySoft(s, c))
  {
    var t := ApplySoft(s, c);
    assert CpuContexts(s, c);
    assert CpuContexts(t, c) by {
      match s.cpus[c].bottom.pc
      case SEnter => case SSpin => case SReadSeq => case SLoadShared => case SStoreShared =>
      case SReadVal => case SUnlock => case SRestore => case SReturn =>
    }
    forall d | 0 <= d < |t.cpus| && d != c
      ensures CpuContexts(t, d)
    {
      assert CpuContexts(s, d);
      match s.cpus[c].bottom.pc
      case SEnter => case SSpin => case SReadSeq => case SLoadShared => case SStoreShared =>
      case SReadVal => case SUnlock => case SRestore => case SReturn =>
    }
  }

  /** Steps that leave every raiser and every raise where they are. */
  lemma RaisesUntouched(s: State, t: State, c: nat)
    requires Raises(s) && Phases(s) && c < |s.cpus| == |t.cpus|
    requires t.cpus == s.cpus[c := t.cpus[c]] && t.cpus[c].raiser == s.cpus[c].raiser
    requires Holdings(t.mod, t.line, t.tl) && t.mod == s.mod
    requires t.hist.raises.raised == s.hist.raises.raised && Conserved(t.hist.raises, t.line.pending)
    ensures Raises(t) && Phases(t)
  {
    TotalCallsUpdate(s.cpus, c, t.cpus[c]);
    forall d | 0 <= d < |t.cpus|
      ensures RaiserOk(t.cpus[d].raiser) && RaiserPhase(Rank(t.mod.pc), t.cpus[d].raiser)
    {
      assert RaiserOk(s.cpus[d].raiser) && RaiserPhase(Rank(s.mod.pc), s.cpus[d].raiser);
    }
  }

  lemma ContextsExclude(s: State)
    requires Contexts(s)
    ensures Exclusive(TopOf(s), BottomOf(s))
  {
    if s.line.inprogress.Some? { assert CpuContexts(s, s.line.inprogress.value); }
    if s.tl.running.Some? { assert CpuContexts(s, s.tl.running.value); }
  }

  /** The handler in progress after its own step; its registers are dead once it has returned. */
  lemma TopOfAfter(s: State, c: nat)
    requires Contexts(s) && Enabled(s, HardStep(c))
    ensures TopOf(s) == s.cpus[c].top && BottomOf(ApplyHard(s, c)) == BottomOf(s)
    ensures var t' := TopStatement(c, TopOf(s), s.mem).0;
      TopOf(ApplyHard(s, c)) == if t'.pc.HIdle? then Top(HIdle, 0, 0) else t'
  {
    assert CpuContexts(s, c);
    var t' := TopStatement(c, TopOf(s), s.mem).0;
    assert t'.pc.HIdle? <==> s.cpus[c].top.pc.HReturn?;
  }

  lemma HardKeepsCore(s: State, c: nat)
    requires Contexts(s) && CoreOf(s) && Enabled(s, HardStep(c))
    ensures CoreOf(ApplyHard(s, c))
  {
    TopOfAfter(s, c);
    TopKeepsCounters(c, TopOf(s), BottomOf(s), s.mem, s.hist);
    TopKeepsAccounts(c, TopOf(s), BottomOf(s), s.mem, s.tl.sched, s.hist);
    TopKeepsReports(c, TopOf(s), BottomOf(s), s.mem, s.tl.sched, s.hist);
    HardKeepsContexts(s, c);
    ContextsExclude(ApplyHard(s, c));
  }

  lemma BottomOfAfter(s: State, c: nat)
    requires Contexts(s) && Enabled(s, SoftStep(c))
    ensures BottomOf(s) == s.cpus[c].bottom && TopOf(ApplySoft(s, c)) == TopOf(s)
    ensures var b' := BottomStatement(c, BottomOf(s), s.mem).0;
      BottomOf(ApplySoft(s, c)) == if b'.pc.SIdle? then Bottom(SIdle, 0) else b'
  {
    assert CpuContexts(s, c);
    var b' := BottomStatement(c, BottomOf(s), s.mem).0;
    assert b'.pc.SIdle? <==> s.cpus[c].bottom.pc.SReturn?;
  }

  lemma SoftKeepsCore(s: State, c: nat)
    requires Contexts(s) && CoreOf(s) && Enabled(s, SoftStep(c))
    ensures CoreOf(ApplySoft(s, c))
  {
    BottomOfAfter(s, c);
    BottomKeepsCounters(c, TopOf(s), BottomOf(s), s.mem, s.hist);
    BottomKeepsAccounts(c, TopOf(s), BottomOf(s), s.mem, s.tl.sched, s.hist);
    BottomKeepsReports(c, TopOf(s), BottomOf(s), s.mem, s.tl.sched, s.hist);
    SoftKeepsContexts(s, c);
    ContextsExclude(ApplySoft(s, c));
  }

  lemma HardKeepsInv(s: State, c: nat)
    requires Inv(s) && Enabled(s, HardStep(c))
    ensures Inv(Apply(s, HardStep(c)))
  {
    assert CpuContexts(s, c);
    HardKeepsCore(s, c);
    HardKeepsContexts(s, c);
    RaisesUntouched(s, ApplyHard(s, c), c);
  }

  lemma SoftKeepsInv(s: State, c: nat)
    requires Inv(s) && Enabled(s, SoftStep(c))
    ensures Inv(Apply(s, SoftStep(c)))
  {
    assert CpuContexts(s, c);
    SoftKeepsCore(s, c);
    SoftKeepsContexts(s, c);
    RaisesUntouched(s, ApplySoft(s, c), c);
  }

  lemma DeliverKeepsContexts(s: State, c: nat)
    requires Contexts(s) && Enabled(s, Deliver(c))
    ensures Contexts(ApplyDeliver(s, c))
  {
    var t := ApplyDeliver(s, c);
    assert CpuContexts(s, c);
    forall d | 0 <= d < |t.cpus|
      ensures CpuContexts(t, d)
    {
      assert CpuContexts(s, d);
    }
  }

  /** The ledger of raises enters the core only through the number of deliveries. */
  lemma CoreIgnoresRaises(t: Top, b: Bottom, m: Memory, sched: bool, h: History, h': History)
    requires Core(t, b, m, sched, h) && h'.(raises := h.raises) == h
    requires h'.raises.delivered == h.raises.delivered
    ensures Core(t, b, m, sched, h')
  {
    assert h'.tickets == h.tickets && h'.reports == h.reports;
  }

  lemma EnterKeepsCore(t: Top, t': Top, b: Bottom, m: Memory, sched: bool, h: History, h': History)
    requires Core(t, b, m, sched, h) && t.pc.HIdle? && t'.pc.HSpin?
    requires h'.(raises := h.raises) == h && h'.raises.delivered == h.raises.delivered + 1
    ensures Core(t', b, m, sched, h')
  {
    assert h'.tickets == h.tickets && h'.reports == h.reports;
  }

  lemma DeliverKeepsCore(s: State, c: nat)
    requires Contexts(s) && CoreOf(s) && Enabled(s, Deliver(c))
    ensures CoreOf(ApplyDeliver(s, c))
  {
    var t := ApplyDeliver(s, c);
    assert CpuContexts(s, c);
    assert BottomOf(t) == BottomOf(s);
    if t.line.inprogress != s.line.inprogress {
      EnterKeepsCore(TopOf(s), TopOf(t), BottomOf(s), s.mem, s.tl.sched, s.hist, t.hist);
    } else {
      CoreIgnoresRaises(TopOf(s), BottomOf(s), s.mem, s.tl.sched, s.hist, t.hist);
    }
  }

  lemma DeliverKeepsLine(s: State, c: nat)
    requires Raises(s) && Phases(s) && Enabled(s, Deliver(c))
    ensures var t := ApplyDeliver(s, c);
      Holdings(t.mod, t.line, t.tl) && Conserved(t.hist.raises, t.line.pending)
  {
  }

  lemma DeliverKeepsRaises(s: State, c: nat)
    requires Raises(s) && Phases(s) && Enabled(s, Deliver(c))
    ensures Raises(ApplyDeliver(s, c)) && Phases(ApplyDeliver(s, c))
  {
    var t := ApplyDeliver(s, c);
    DeliverKeepsLine(s, c);
    assert t.cpus == s.cpus[c := t.cpus[c]];
    RaisesUntouched(s, t, c);
  }

  lemma DeliverKeepsInv(s: State, c: nat)
    requires Inv(s) && Enabled(s, Deliver(c))
    ensures Inv(Apply(s, Deliver(c)))
  {
    DeliverKeepsContexts(s, c);
    DeliverKeepsCore(s, c);
    DeliverKeepsRaises(s, c);
  }

  lemma StartKeepsCore(t: Top, b: Bottom, b': Bottom, m: Memory, h: History)
    requires Core(t, b, m, true, h) && b.pc.SIdle? && b'.pc.SEnter?
    ensures Core(t, b', m, false, h.(started := h.started + 1))
  {
  }

  lemma StartKeepsContexts(s: State, c: nat)
    requires Contexts(s) && Enabled(s, StartBottom(c))
    ensures Contexts(ApplyStartBottom(s, c))
  {
    var t := ApplyStartBottom(s, c);
    assert CpuContexts(s, c);
    forall d | 0 <= d < |t.cpus|
      ensures CpuContexts(t, d)
    {
      assert CpuContexts(s, d);
    }
  }

  lemma StartKeepsCoreOf(s: State, c: nat)
    requires Contexts(s) && CoreOf(s) && Enabled(s, StartBottom(c))
    ensures CoreOf(ApplyStartBottom(s, c))
  {
    var t := ApplyStartBottom(s, c);
    assert CpuContexts(s, c);
    assert TopOf(t) == TopOf(s) && BottomOf(s).pc.SIdle?;
    StartKeepsCore(TopOf(s), BottomOf(s), BottomOf(t), s.mem, s.hist);
  }

  lemma StartBottomKeepsInv(s: State, c: nat)
    requires Inv(s) && Enabled(s, StartBottom(c))
    ensures Inv(Apply(s, StartBottom(c)))
  {
    StartKeepsContexts(s, c);
    StartKeepsCoreOf(s, c);
    RaisesUntouched(s, ApplyStartBottom(s, c), c);
  }

  /** Steps of raisers and of the loading thread keep what concerns handlers and bottom halves. */
  lemma ContextsUntouched(s: State, t: State)
    requires Contexts(s) && CoreOf(s) && |s.cpus| == |t.cpus|
    requires forall d | 0 <= d < |s.cpus| ::
               t.cpus[d].top == s.cpus[d].top && t.cpus[d].bottom == s.cpus[d].bottom
    requires t.mem == s.mem && t.tl == s.tl && t.line.inprogress == s.line.inprogress
    requires t.hist.(raises := s.hist.raises) == s.hist
             && t.hist.raises.delivered == s.hist.raises.delivered
    ensures Contexts(t) && CoreOf(t)
  {
    forall d | 0 <= d < |t.cpus|
      ensures CpuContexts(t, d)
    {
      assert CpuContexts(s, d);
    }
    assert TopOf(t) == TopOf(s) && BottomOf(t) == BottomOf(s);
    CoreIgnoresRaises(TopOf(s), BottomOf(s), s.mem, s.tl.sched, s.hist, t.hist);
  }

  /** The accounts of the raises after CPU c's raiser moved. */
  lemma RaiserKeepsRaises(s: State, t: State, c: nat)
    requires Raises(s) && Phases(s) && c < |s.cpus| == |t.cpus|
    requires t.cpus == s.cpus[c := t.cpus[c]] && t.mod == s.mod
    requires RaiserOk(t.cpus[c].raiser) && RaiserPhase(Rank(s.mod.pc), t.cpus[c].raiser)
    requires t.hist.raises.raised + s.cpus[c].raiser.calls
             == s.hist.raises.raised + t.cpus[c].raiser.calls
    requires Conserved(t.hist.raises, t.line.pending)
    requires Holdings(t.mod, t.line, t.tl)
    ensures Raises(t) && Phases(t)
  {
    TotalCallsUpdate(s.cpus, c, t.cpus[c]);
    forall d | 0 <= d < |t.cpus|
      ensures RaiserOk(t.cpus[d].raiser) && RaiserPhase(Rank(t.mod.pc), t.cpus[d].raiser)
    {
      assert RaiserOk(s.cpus[d].raiser) && RaiserPhase(Rank(s.mod.pc), s.cpus[d].raiser);
    }
  }

  lemma RaiserStatementOk(r: Raiser, stopping: bool, rank: nat)
    requires RaiserOk(r) && RaiserPhase(rank, r) && !r.pc.TOff?
    requires r.pc.TCheck? ==> stopping || r.raiseCount < RAISES_PER_CPU
    requires stopping ==> rank >= 6
    ensures var r' := RaiserStatement(r, stopping);
      RaiserOk(r') && RaiserPhase(rank, r') && r'.calls == r.calls + Bit(r.pc.TRaise?)
  {
  }

  lemma TaskKeepsLine(s: State, c: nat, ok: bool)
    requires Raises(s) && Phases(s) && Enabled(s, TaskStep(c, ok))
    ensures var t := ApplyTask(s, c, ok);
      Holdings(t.mod, t.line, t.tl) && Conserved(t.hist.raises, t.line.pending)
  {
    assert RaiserPhase(Rank(s.mod.pc), s.cpus[c].raiser);
  }

  lemma TaskKeepsRaises(s: State, c: nat, ok: bool)
    requires Raises(s) && Phases(s) && Enabled(s, TaskStep(c, ok))
    ensures var t := ApplyTask(s, c, ok); Raises(t) && Phases(t)
  {
    var r := s.cpus[c].raiser;
    assert RaiserOk(r) && RaiserPhase(Rank(s.mod.pc), r);
    RaiserStatementOk(r, s.mod.stopping, Rank(s.mod.pc));
    TaskKeepsLine(s, c, ok);
    RaiserKeepsRaises(s, ApplyTask(s, c, ok), c);
  }

  lemma TaskKeepsInv(s: State, c: nat, ok: bool)
    requires Inv(s) && Enabled(s, TaskStep(c, ok))
    ensures Inv(Apply(s, TaskStep(c, ok)))
  {
    ContextsUntouched(s, ApplyTask(s, c, ok));
    TaskKeepsRaises(s, c, ok);
  }

  lemma SpawnKeepsInv(s: State, c: nat)
    requires Inv(s) && Enabled(s, Spawn(c))
    ensures Inv(Apply(s, Spawn(c)))
  {
    var t := ApplySpawn(s, c);
    assert RaiserOk(s.cpus[c].raiser) && RaiserPhase(Rank(s.mod.pc), s.cpus[c].raiser);
    ContextsUntouched(s, t);
    RaiserKeepsRaises(s, t, c);
  }

  /** Each rung of the ladder is one step down the ranks, or a jump to the unwind path. */
  lemma ModRaisesRank(m: Module, ok: bool)
    requires !m.pc.MGone?
    ensures var m' := ModStatement(m, ok);
      Rank(m.pc) < Rank(m'.pc) && (Rank(m'.pc) != Rank(m.pc) + 1 ==>
        if m.pc.MRegister? then Rank(m'.pc) == 6 else Rank(m.pc) <= 3 && Rank(m'.pc) >= 9)
  {
    match m.pc
    case MSetup => case MDomain => case MMapping => case MRequest => case MRegister =>
    case MLoaded => case MStop => case MFree => case MFreeWait => case MDispose =>
    case MRemove => case MKill =>
  }

  lemma ModKeepsHeld(s: State, ok: bool)
    requires Held(s.mod, s.line) && ModEnabled(s, ok)
    ensures var t := ApplyMod(s, ok); Held(t.mod, t.line)
  {
    match s.mod.pc
    case MSetup => case MDomain => case MMapping => case MRequest => case MRegister =>
    case MLoaded => case MStop => case MFree => case MFreeWait => case MDispose =>
    case MRemove => case MKill =>
  }

  lemma ModKeepsUsersGone(s: State, ok: bool)
    requires UsersGone(s.mod, s.line, s.tl) && ModEnabled(s, ok)
    ensures var t := ApplyMod(s, ok); UsersGone(t.mod, t.line, t.tl)
  {
    var t := ApplyMod(s, ok);
    ModRaisesRank(s.mod, ok);
    assert t.mod == ModStatement(s.mod, ok) && t.tl == s.tl && t.line.inprogress == s.line.inprogress;
    assert s.mod.pc.MFreeWait? ==> s.line.inprogress.None?;
    assert s.mod.pc.MRemove? ==> !t.line.pending;
    assert s.mod.pc.MKill? ==> !s.tl.sched && s.tl.running.None?;
    assert t.line.pending ==> s.line.pending;
  }

  lemma ModKeepsHoldings(s: State, ok: bool)
    requires Holdings(s.mod, s.line, s.tl) && ModEnabled(s, ok)
    ensures var t := ApplyMod(s, ok); Holdings(t.mod, t.line, t.tl)
  {
    ModKeepsHeld(s, ok);
    ModKeepsUsersGone(s, ok);
  }

  lemma ModKeepsRaiserPhase(s: State, ok: bool, d: nat)
    requires Phases(s) && ModEnabled(s, ok) && d < |s.cpus|
    ensures RaiserPhase(Rank(ModStatement(s.mod, ok).pc), s.cpus[d].raiser)
  {
    ModRaisesRank(s.mod, ok);
    assert RaiserPhase(Rank(s.mod.pc), s.cpus[d].raiser);
    if s.mod.pc.MRegister? && ok { assert AllSpawned(s.cpus) && s.cpus[d].raiser.spawned; }
    if s.mod.pc.MStop? { assert s.cpus[d].raiser.pc.TOff?; }
  }

  /** What a step of the loading thread leaves alone. */
  lemma ModTouchesLittle(s: State, ok: bool)
    requires ModEnabled(s, ok) && Conserved(s.hist.raises, s.line.pending)
    ensures var t := ApplyMod(s, ok);
      && t.cpus == s.cpus && t.mem == s.mem && t.tl == s.tl
      && t.line.inprogress == s.line.inprogress && t.mod == ModStatement(s.mod, ok)
      && t.hist.(raises := s.hist.raises) == s.hist
      && t.hist.raises.delivered == s.hist.raises.delivered
      && t.hist.raises.raised == s.hist.raises.raised
      && Conserved(t.hist.raises, t.line.pending)
  {
  }

  lemma ModKeepsPhases(s: State, ok: bool)
    requires Raises(s) && Phases(s) && ModEnabled(s, ok)
    ensures Phases(ApplyMod(s, ok))
  {
    ModTouchesLittle(s, ok);
    ModKeepsHoldings(s, ok);
    forall d | 0 <= d < |s.cpus|
      ensures RaiserPhase(Rank(ModStatement(s.mod, ok).pc), s.cpus[d].raiser)
    {
      ModKeepsRaiserPhase(s, ok, d);
    }
  }

  lemma ModKeepsInv(s: State, ok: bool)
    requires Inv(s) && ModEnabled(s, ok)
    ensures Inv(Apply(s, ModStep(ok)))
  {
    ModTouchesLittle(s, ok);
    ContextsUntouched(s, ApplyMod(s, ok));
    ModKeepsPhases(s, ok);
  }

  lemma KeepsInv(s: State, e: Event)
    requires Inv(s) && Enabled(s, e)
    ensures Inv(Apply(s, e))
  {
    match e
    case ModStep(ok) => ModKeepsInv(s, ok);
    case Spawn(c) => SpawnKeepsInv(s, c);
    case Deliver(c) => DeliverKeepsInv(s, c);
    case HardStep(c) => HardKeepsInv(s, c);
    case StartBottom(c) => StartBottomKeepsInv(s, c);
    case SoftStep(c) => SoftKeepsInv(s, c);
    case TaskStep(c, ok) => TaskKeepsInv(s, c, ok);
  }

  lemma KeepsCpuCount(s: State, e: Event)
    requires Enabled(s, e)
    ensures |Apply(s, e).cpus| == |s.cpus|
  {
  }

  // ---------- all runs

  lemma {:induction false} FreshCpusHaveNoCalls(cpus: seq<Cpu>)
    requires forall c | 0 <= c < |cpus| :: FreshCpu(cpus[c])
    ensures TotalCalls(cpus) == 0
  {
    if cpus != [] {
      assert FreshCpu(cpus[0]);
      FreshCpusHaveNoCalls(cpus[1..]);
    }
  }

  lemma FreshHasCore(t: Top, b: Bottom, m: Memory, sched: bool, h: History)
    requires t.pc.HIdle? && b.pc.SIdle? && !sched && FreshHistory(h)
    requires m.sharedCount == 0 && m.runCount == 0 && m.pendingSeq == 0
    ensures Core(t, b, m, sched, h)
  {
  }

  lemma InitialHasInv(s: State)
    requires Initial(s)
    ensures Inv(s)
  {
    forall c | 0 <= c < |s.cpus|
      ensures CpuContexts(s, c) && RaiserOk(s.cpus[c].raiser)
      ensures RaiserPhase(Rank(s.mod.pc), s.cpus[c].raiser)
    {
      assert FreshCpu(s.cpus[c]);
    }
    assert Contexts(s);
    assert Raises(s) by { FreshCpusHaveNoCalls(s.cpus); }
    assert Phases(s);
    assert CoreOf(s) by { FreshHasCore(TopOf(s), BottomOf(s), s.mem, s.tl.sched, s.hist); }
  }

  lemma {:induction false} RunKeepsInv(s: State, es: seq<Event>)
    requires Inv(s) && Feasible(s, es)
    ensures Inv(Exec(s, es)) && |Exec(s, es).cpus| == |s.cpus|
    decreases |es|
  {
    if es != [] {
      KeepsInv(s, es[0]);
      KeepsCpuCount(s, es[0]);
      RunKeepsInv(Apply(s, es[0]), es[1..]);
    }
  }

  lemma ReachableHasInv(s: State)
    requires Reachable(s)
    ensures Inv(s) && |s.cpus| >= 1
  {
    var s0, es :| Reaches(s0, es, s);
    InitialHasInv(s0);
    RunKeepsInv(s0, es);
  }
}
