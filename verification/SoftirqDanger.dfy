/**
 interrupts/danger/sleep_in_softirq_danger.c: any number of users write to a debugfs file, any
 number of times; each write raises the simulated line, whose handler schedules a tasklet that
 sleeps if the gate is armed. The properties are about the gate, about the unwind ladder and
 about the exit sequence, which must outlast everything the writes have set in motion.

 The line and the tasklet behave as in the interrupt competition. debugfs_remove first keeps
 new calls out and then waits for the calls under way.
 */
module SoftirqDanger {
  import opened Wrappers

  datatype TopPc = TIdle | TSchedule | TReturn
  datatype BottomPc = BIdle | BCheck | BSleep | BReturn
  datatype ModPc =
    | MSetup | MDomain | MMapping | MRequest | MDir | MGate | MTrigger | MLoaded
    | MUnlink | MDrain | MFree | MFreeWait | MDispose | MRemove | MKill | MGone

  /** Calls of trigger_write under way: before the raise, and after it. */
  datatype Users = Users(raising: nat, returning: nat, trigger: bool, gateFile: bool, gate: bool)
  datatype Line = Line(pending: bool, top: TopPc, registered: bool)
  datatype Tasklet = Tasklet(sched: bool, bottom: BottomPc)
  datatype Module = Module(pc: ModPc, tasklet: bool, domain: bool, mapping: bool, dir: bool)

  /** What happened so far; no step reads it. `covered` are the deliveries before the last start
      of the tasklet. */
  datatype History = History(
    raised: nat, failed: nat, merged: nat, dropped: nat, discarded: nat, delivered: nat,
    covered: nat, wrote: nat, everArmed: bool, armedReads: nat, sleeps: nat, ended: nat)

  datatype State = State(users: Users, line: Line, tl: Tasklet, mod: Module, hist: History)

  datatype Event =
    | ModStep(ok: bool)
    | Arm(gate: bool)
    | Write
    | Raise(ok: bool)
    | WriteDone
    | Deliver
    | TopStep
    | StartBottom
    | BottomStep

  predicate Initial(s: State) {
    && s.users.raising == 0 && s.users.returning == 0
    && !s.users.trigger && !s.users.gateFile && !s.users.gate
    && !s.line.pending && s.line.top.TIdle? && !s.line.registered
    && !s.tl.sched && s.tl.bottom.BIdle?
    && s.mod.pc.MSetup? && !s.mod.tasklet && !s.mod.domain && !s.mod.mapping && !s.mod.dir
    && s.hist.raised == 0 && s.hist.failed == 0 && s.hist.merged == 0 && s.hist.dropped == 0
    && s.hist.discarded == 0 && s.hist.delivered == 0 && s.hist.covered == 0
    && s.hist.wrote == 0 && !s.hist.everArmed
    && s.hist.armedReads == 0 && s.hist.sleeps == 0 && s.hist.ended == 0
  }

  predicate ModEnabled(s: State) {
    match s.mod.pc
    case MDrain => s.users.raising == 0 && s.users.returning == 0
    case MFreeWait => s.line.top.TIdle?
    case MKill => !s.tl.sched && s.tl.bottom.BIdle?
    case MGone => false
    case _ => true
  }

  predicate Enabled(s: State, e: Event) {
    match e
    case ModStep(_) => ModEnabled(s)
    case Arm(_) => s.users.gateFile
    case Write => s.users.trigger
    case Raise(_) => s.users.raising > 0
    case WriteDone => s.users.returning > 0
    case Deliver => s.line.pending
    case TopStep => !s.line.top.TIdle?
    case StartBottom => s.tl.sched && s.tl.bottom.BIdle?
    case BottomStep => !s.tl.bottom.BIdle?
  }

  /** module_init with its unwind ladder, then module_exit. */
  function ModStatement(m: Module, ok: bool): Module
    requires !m.pc.MGone?
  {
    match m.pc
    case MSetup => m.(pc := MDomain, tasklet := true)
    case MDomain => if ok then m.(pc := MMapping, domain := true) else m.(pc := MKill)
    case MMapping => if ok then m.(pc := MRequest, mapping := true) else m.(pc := MRemove)
    case MRequest => if ok then m.(pc := MDir) else m.(pc := MDispose)
    case MDir => if ok then m.(pc := MGate, dir := true) else m.(pc := MFree)
    case MGate => m.(pc := MTrigger)
    case MTrigger => m.(pc := MLoaded)
    case MLoaded => m.(pc := MUnlink)
    case MUnlink => m.(pc := MDrain)
    case MDrain => m.(pc := MFree, dir := false)
    case MFree => m.(pc := MFreeWait)
    case MFreeWait => m.(pc := MDispose)
    case MDispose => m.(pc := MRemove, mapping := false)
    case MRemove => m.(pc := MKill, domain := false)
    case MKill => m.(pc := MGone, tasklet := false)
  }

  function ApplyMod(s: State, ok: bool): State
    requires ModEnabled(s)
  {
    var t := s.(mod := ModStatement(s.mod, ok));
    match s.mod.pc
    case MRequest => t.(line := s.line.(registered := ok))
    // the result of the two create calls is ignored
    case MGate => t.(users := s.users.(gateFile := ok))
    case MTrigger => t.(users := s.users.(trigger := ok))
    case MUnlink => t.(users := s.users.(trigger := false, gateFile := false))
    case MFree => t.(line := s.line.(registered := false))
    case MRemove =>
      t.(line := s.line.(pending := false),
         hist := s.hist.(discarded := s.hist.discarded + if s.line.pending then 1 else 0))
    case _ => t
  }

  /** The one statement of trigger_write that matters: raise the line. */
  function ApplyRaise(s: State, ok: bool): State
    requires s.users.raising > 0
  {
    var h := s.hist.(raised := s.hist.raised + 1);
    s.(users := s.users.(raising := s.users.raising - 1, returning := s.users.returning + 1),
       line := s.line.(pending := s.line.pending || ok),
       hist := if !ok then h.(failed := h.failed + 1)
               else if s.line.pending then h.(merged := h.merged + 1) else h)
  }

  function ApplyDeliver(s: State): State {
    if !s.line.registered then
      s.(line := s.line.(pending := false), hist := s.hist.(discarded := s.hist.discarded + 1))
    else if !s.line.top.TIdle? then
      s.(line := s.line.(pending := false), hist := s.hist.(dropped := s.hist.dropped + 1))
    else
      s.(line := s.line.(pending := false, top := TSchedule),
         hist := s.hist.(delivered := s.hist.delivered + 1))
  }

  function ApplyTop(s: State): State
    requires !s.line.top.TIdle?
  {
    match s.line.top
    case TSchedule => s.(line := s.line.(top := TReturn), tl := s.tl.(sched := true))
    case TReturn => s.(line := s.line.(top := TIdle))
  }

  /** softirq_danger_bottom_half: one read of the gate decides between the mock and the sleep. */
  function ApplyBottom(s: State): State
    requires !s.tl.bottom.BIdle?
  {
    match s.tl.bottom
    case BCheck =>
      if !s.users.gate then s.(tl := s.tl.(bottom := BReturn))
      else s.(tl := s.tl.(bottom := BSleep), hist := s.hist.(armedReads := s.hist.armedReads + 1))
    case BSleep =>
      s.(tl := s.tl.(bottom := BReturn), hist := s.hist.(sleeps := s.hist.sleeps + 1))
    case BReturn =>
      s.(tl := s.tl.(bottom := BIdle), hist := s.hist.(ended := s.hist.ended + 1))
  }

  function Apply(s: State, e: Event): State
    requires Enabled(s, e)
  {
    match e
    case ModStep(ok) => ApplyMod(s, ok)
    case Arm(gate) =>
      s.(users := s.users.(gate := gate), hist := s.hist.(everArmed := s.hist.everArmed || gate))
    case Write => s.(users := s.users.(raising := s.users.raising + 1))
    case Raise(ok) => ApplyRaise(s, ok)
    case WriteDone =>
      s.(users := s.users.(returning := s.users.returning - 1),
         hist := s.hist.(wrote := s.hist.wrote + 1))
    case Deliver => ApplyDeliver(s)
    case TopStep => ApplyTop(s)
    case StartBottom =>
      s.(tl := Tasklet(false, BCheck), hist := s.hist.(covered := s.hist.delivered))
    case BottomStep => ApplyBottom(s)
  }

  predicate Feasible(s: State, es: seq<Event>)
    decreases |es|
  {
    es == [] || (Enabled(s, es[0]) && Feasible(Apply(s, es[0]), es[1..]))
  }

  function Exec(s: State, es: seq<Event>): State
    requires Feasible(s, es)
    decreases |es|
  {
    if es == [] then s else Exec(Apply(s, es[0]), es[1..])
  }

  // ---------- the invariant

  ghost function Rank(pc: ModPc): nat {
    match pc
    case MSetup => 0 case MDomain => 1 case MMapping => 2 case MRequest => 3 case MDir => 4
    case MGate => 5 case MTrigger => 6 case MLoaded => 7 case MUnlink => 8 case MDrain => 9
    case MFree => 10 case MFreeWait => 11 case MDispose => 12 case MRemove => 13
    case MKill => 14 case MGone => 15
  }

  /** What is held, and by when its users are gone. */
  ghost predicate Holdings(s: State) {
    var r := Rank(s.mod.pc);
    && (s.mod.tasklet <==> 1 <= r <= 14)
    && (s.mod.domain <==> 2 <= r <= 13)
    && (s.mod.mapping <==> 3 <= r <= 12)
    && (s.line.registered <==> 4 <= r <= 10)
    && (s.mod.dir <==> 5 <= r <= 9)
    && (s.users.gateFile ==> 6 <= r <= 8)
    && (s.users.trigger ==> 7 <= r <= 8)
    && (s.users.raising + s.users.returning > 0 ==> 7 <= r <= 9)
    && (s.line.pending ==> 7 <= r <= 13)
    && (!s.line.top.TIdle? ==> 7 <= r <= 11)
    && (s.tl.sched || !s.tl.bottom.BIdle? ==> 7 <= r <= 14)
  }

  ghost predicate Ledger(s: State) {
    var h := s.hist;
    && h.raised == h.failed + h.merged + h.dropped + h.discarded + h.delivered + Bit(s.line.pending)
    && h.raised == h.wrote + s.users.returning
    && h.armedReads == h.sleeps + Bit(s.tl.bottom.BSleep?)
    && (s.users.gate || h.armedReads > 0 ==> h.everArmed)
  }

  /** A handler run that no bottom half has covered is still on its way to one. */
  ghost predicate Chained(s: State) {
    && s.hist.covered <= s.hist.delivered
    && (s.hist.covered != s.hist.delivered ==> s.line.top.TSchedule? || s.tl.sched)
  }

  ghost predicate Inv(s: State) { Holdings(s) && Ledger(s) && Chained(s) }

  lemma ModKeepsHoldings(s: State, ok: bool)
    requires Holdings(s) && ModEnabled(s)
    ensures Holdings(ApplyMod(s, ok))
  {
    match s.mod.pc
    case MSetup => case MDomain => case MMapping => case MRequest => case MDir => case MGate =>
    case MTrigger => case MLoaded => case MUnlink => case MDrain => case MFree => case MFreeWait =>
    case MDispose => case MRemove => case MKill =>
  }

  lemma ModKeepsLedger(s: State, ok: bool)
    requires Ledger(s) && ModEnabled(s)
    ensures Ledger(ApplyMod(s, ok))
  {
    match s.mod.pc
    case MSetup => case MDomain => case MMapping => case MRequest => case MDir => case MGate =>
    case MTrigger => case MLoaded => case MUnlink => case MDrain => case MFree => case MFreeWait =>
    case MDispose => case MRemove => case MKill =>
  }

  lemma ModKeepsChained(s: State, ok: bool)
    requires Holdings(s) && Chained(s) && ModEnabled(s)
    ensures Chained(ApplyMod(s, ok))
  {
  }

  lemma RaiseKeepsInv(s: State, ok: bool)
    requires Inv(s) && s.users.raising > 0
    ensures Inv(ApplyRaise(s, ok))
  {
  }

  lemma DeliverKeepsInv(s: State)
    requires Inv(s) && s.line.pending
    ensures Inv(ApplyDeliver(s))
  {
  }

  lemma TopKeepsInv(s: State)
    requires Inv(s) && !s.line.top.TIdle?
    ensures Inv(ApplyTop(s))
  {
    match s.line.top { case TSchedule => case TReturn => }
  }

  lemma BottomKeepsInv(s: State)
    requires Inv(s) && !s.tl.bottom.BIdle?
    ensures Inv(ApplyBottom(s))
  {
    match s.tl.bottom { case BCheck => case BSleep => case BReturn => }
  }

  lemma KeepsInv(s: State, e: Event)
    requires Inv(s) && Enabled(s, e)
    ensures Inv(Apply(s, e))
  {
    match e
    case ModStep(ok) => ModKeepsHoldings(s, ok); ModKeepsLedger(s, ok); ModKeepsChained(s, ok);
    case Raise(ok) => RaiseKeepsInv(s, ok);
    case Deliver => DeliverKeepsInv(s);
    case TopStep => TopKeepsInv(s);
    case BottomStep => BottomKeepsInv(s);
    case Arm(_) => case Write => case WriteDone => case StartBottom =>
  }

  lemma {:induction false} RunKeepsInv(s: State, es: seq<Event>)
    requires Inv(s) && Feasible(s, es)
    ensures Inv(Exec(s, es))
    decreases |es|
  {
    if es != [] {
      KeepsInv(s, es[0]);
      RunKeepsInv(Apply(s, es[0]), es[1..]);
    }
  }

  // ---------- what holds of every run

  /** Whoever runs still has everything it uses, however many writes there are. */
  ghost predicate SafelyHeld(s: State) {
    && (s.users.raising + s.users.returning > 0 ==>
          s.mod.dir && s.mod.mapping && s.mod.domain && s.line.registered)
    && (!s.line.top.TIdle? ==> s.mod.mapping && s.mod.domain && s.mod.tasklet)
    && (s.tl.sched || !s.tl.bottom.BIdle? ==> s.mod.tasklet)
    && (s.line.pending ==> s.mod.domain)
  }

  ghost predicate CleanlyGone(s: State) {
    && s.users.raising == 0 && s.users.returning == 0 && !s.users.trigger && !s.users.gateFile
    && !s.line.pending && s.line.top.TIdle? && !s.line.registered
    && !s.tl.sched && s.tl.bottom.BIdle? && s.hist.covered == s.hist.delivered
    && !s.mod.tasklet && !s.mod.domain && !s.mod.mapping && !s.mod.dir
  }

  lemma EveryRunIsSafe(s0: State, es: seq<Event>)
    requires Initial(s0) && Feasible(s0, es)
    ensures SafelyHeld(Exec(s0, es))
    ensures Exec(s0, es).mod.pc.MGone? ==> CleanlyGone(Exec(s0, es))
    ensures Ledger(Exec(s0, es))
  {
    RunKeepsInv(s0, es);
  }

  /** No handler run is without a bottom half: once the handler is idle and the tasklet is not
      scheduled, a bottom half has started after the last delivery. */
  lemma EveryDeliveryIsCovered(s0: State, es: seq<Event>)
    requires Initial(s0) && Feasible(s0, es)
    ensures var s := Exec(s0, es);
      s.line.top.TIdle? && !s.tl.sched ==> s.hist.covered == s.hist.delivered
  {
    RunKeepsInv(s0, es);
  }

  /** What becomes of each raise, and that a taken delivery starts the handler. */
  lemma RaiseFates(s: State, e: Event)
    requires Enabled(s, e)
    ensures var t := Apply(s, e); var taken := e.Deliver? && s.line.registered && s.line.top.TIdle?;
      && t.hist.raised == s.hist.raised + Bit(e.Raise?)
      && t.hist.failed == s.hist.failed + Bit(e.Raise? && !e.ok)
      && t.hist.merged == s.hist.merged + Bit(e.Raise? && e.ok && s.line.pending)
      && t.hist.delivered == s.hist.delivered + Bit(taken)
      && t.hist.dropped == s.hist.dropped + Bit(e.Deliver? && s.line.registered && !s.line.top.TIdle?)
      && t.hist.discarded == s.hist.discarded + Bit(e.Deliver? && !s.line.registered)
                             + Bit(e.ModStep? && s.mod.pc.MRemove? && s.line.pending)
      && (taken ==> t.line.top.TSchedule?)
  {
  }

  /** The gate: a module whose gate was never armed never sleeps, and a bottom half sleeps
      exactly when its one read of the gate found it armed. */
  lemma UnarmedNeverSleeps(s0: State, es: seq<Event>)
    requires Initial(s0) && Feasible(s0, es) && !Exec(s0, es).hist.everArmed
    ensures Exec(s0, es).hist.sleeps == 0 && !Exec(s0, es).tl.bottom.BSleep?
  {
    RunKeepsInv(s0, es);
  }

  // ---------- one write that nobody interferes with

  lemma ExecOne(s: State, e: Event)
    requires Enabled(s, e)
    ensures Feasible(s, [e]) && Exec(s, [e]) == Apply(s, e)
  {
    assert [e][1..] == [];
  }

  lemma {:induction false} ExecAppend(s: State, a: seq<Event>, b: seq<Event>)
    requires Feasible(s, a) && Feasible(Exec(s, a), b)
    ensures Feasible(s, a + b) && Exec(s, a + b) == Exec(Exec(s, a), b)
    decreases |a|
  {
    if a == [] {
      assert a + b == b;
    } else {
      assert (a + b)[1..] == a[1..] + b;
      ExecAppend(Apply(s, a[0]), a[1..], b);
    }
  }

  /** The schedule `es` can be run from `s` and leads to `t`. */
  ghost predicate Leads(s: State, es: seq<Event>, t: State) {
    Feasible(s, es) && Exec(s, es) == t
  }

  lemma LeadsOn(s: State, e: Event, t: State, es: seq<Event>, u: State)
    requires Enabled(s, e) && Apply(s, e) == t && Leads(t, es, u)
    ensures Leads(s, [e] + es, u)
  {
    ExecOne(s, e);
    ExecAppend(s, [e], es);
  }

  /** Loaded with both files, and nothing goes on. */
  ghost predicate Ready(s: State) {
    && s.mod.pc.MLoaded? && s.users.trigger && s.users.gateFile
    && s.users.raising == 0 && s.users.returning == 0 && s.line.registered
    && !s.line.pending && s.line.top.TIdle? && !s.tl.sched && s.tl.bottom.BIdle?
  }

  function BottomSchedule(gate: bool): seq<Event> {
    [BottomStep] + ([BottomStep] + if gate then [BottomStep] + [] else [])
  }

  /** A bottom half sleeps if it finds the gate armed, and returns at once if not. */
  lemma WholeBottomHalf(s: State) returns (t: State)
    requires s.tl.bottom.BCheck?
    ensures Leads(s, BottomSchedule(s.users.gate), t)
    ensures t.users == s.users && t.line == s.line && t.mod == s.mod
    ensures t.tl == Tasklet(s.tl.sched, BIdle)
    ensures t.hist == s.hist.(armedReads := s.hist.armedReads + Bit(s.users.gate),
                              sleeps := s.hist.sleeps + Bit(s.users.gate),
                              ended := s.hist.ended + 1)
  {
    var a := ApplyBottom(s);
    var b := ApplyBottom(a);
    if s.users.gate {
      t := ApplyBottom(b);
      LeadsOn(b, BottomStep, t, [], t);
      LeadsOn(a, BottomStep, b, [BottomStep] + [], t);
      LeadsOn(s, BottomStep, a, [BottomStep] + ([BottomStep] + []), t);
    } else {
      t := b;
      LeadsOn(a, BottomStep, b, [], t);
      assert [BottomStep] + [] == [BottomStep] + if s.users.gate then [BottomStep] + [] else [];
      LeadsOn(s, BottomStep, a, [BottomStep] + [], t);
    }
  }

  /** The write, its raise and its end; the delivery and the handler; the bottom half. */
  function WriteSchedule(gate: bool): seq<Event> {
    [Write] + ([Raise(true)] + ([WriteDone] + HandlerSchedule(gate)))
  }

  function HandlerSchedule(gate: bool): seq<Event> {
    [Deliver] + ([TopStep] + ([TopStep] + ([StartBottom] + BottomSchedule(gate))))
  }

  lemma DeliverySleepsIfArmed(s: State) returns (t: State)
    requires s.line.pending && s.line.registered && s.line.top.TIdle? && s.tl.bottom.BIdle?
    ensures Leads(s, HandlerSchedule(s.users.gate), t)
    ensures t.users == s.users && t.mod == s.mod
    ensures t.line == s.line.(pending := false) && t.tl == Tasklet(false, BIdle)
    ensures t.hist == s.hist.(delivered := s.hist.delivered + 1, covered := s.hist.delivered + 1,
                              armedReads := s.hist.armedReads + Bit(s.users.gate),
                              sleeps := s.hist.sleeps + Bit(s.users.gate),
                              ended := s.hist.ended + 1)
  {
    var gate := s.users.gate;
    var a := ApplyDeliver(s);
    var b := ApplyTop(a);
    var c := ApplyTop(b);
    var d := Apply(c, StartBottom);
    t := WholeBottomHalf(d);
    LeadsOn(c, StartBottom, d, BottomSchedule(gate), t);
    LeadsOn(b, TopStep, c, [StartBottom] + BottomSchedule(gate), t);
    LeadsOn(a, TopStep, b, [TopStep] + ([StartBottom] + BottomSchedule(gate)), t);
    LeadsOn(s, Deliver, a, [TopStep] + ([TopStep] + ([StartBottom] + BottomSchedule(gate))), t);
  }

  /** One write: one handler run, one bottom half, which sleeps exactly if the gate is armed. */
  lemma OneWrite(s: State) returns (t: State)
    requires Ready(s)
    ensures Leads(s, WriteSchedule(s.users.gate), t) && Ready(t)
    ensures t.hist == s.hist.(raised := s.hist.raised + 1, wrote := s.hist.wrote + 1,
                              delivered := s.hist.delivered + 1, covered := s.hist.delivered + 1,
                              armedReads := s.hist.armedReads + Bit(s.users.gate),
                              sleeps := s.hist.sleeps + Bit(s.users.gate),
                              ended := s.hist.ended + 1)
  {
    var gate := s.users.gate;
    var a := Apply(s, Write);
    var b := ApplyRaise(a, true);
    var c := Apply(b, WriteDone);
    t := DeliverySleepsIfArmed(c);
    LeadsOn(b, WriteDone, c, HandlerSchedule(gate), t);
    LeadsOn(a, Raise(true), b, [WriteDone] + HandlerSchedule(gate), t);
    LeadsOn(s, Write, a, [Raise(true)] + ([WriteDone] + HandlerSchedule(gate)), t);
  }

  function Calls(n: nat): seq<Event> {
    if n == 0 then [] else [ModStep(true)] + Calls(n - 1)
  }

  lemma {:induction false} CallsLoad(s: State, n: nat) returns (t: State)
    requires Rank(s.mod.pc) + n == 7 && (Rank(s.mod.pc) > 3 ==> s.line.registered)
    requires Rank(s.mod.pc) > 5 ==> s.users.gateFile
    requires Rank(s.mod.pc) == 7 ==> s.users.trigger
    ensures Leads(s, Calls(n), t) && t.mod.pc.MLoaded? && t.hist == s.hist && t.tl == s.tl
    ensures t.users == s.users.(trigger := true, gateFile := true)
    ensures t.line == s.line.(registered := true)
    decreases n
  {
    if n == 0 {
      t := s;
    } else {
      var a := ApplyMod(s, true);
      CallsClimb(s);
      t := CallsLoad(a, n - 1);
      LeadsOn(s, ModStep(true), a, Calls(n - 1), t);
    }
  }

  lemma CallsClimb(s: State)
    requires Rank(s.mod.pc) < 7
    ensures ModEnabled(s)
    ensures var t := ApplyMod(s, true); var r := Rank(s.mod.pc);
      && Rank(t.mod.pc) == r + 1 && t.hist == s.hist && t.tl == s.tl
      && t.line == s.line.(registered := r == 3 || s.line.registered)
      && t.users == s.users.(gateFile := r == 5 || s.users.gateFile,
                             trigger := r == 6 || s.users.trigger)
  {
    match s.mod.pc
    case MSetup => case MDomain => case MMapping => case MRequest => case MDir => case MGate =>
    case MTrigger =>
  }

  /** A whole run: load, set the gate, write once. It sleeps exactly if the gate was armed. */
  lemma FirstWrite(s: State, gate: bool) returns (t: State)
    requires Initial(s)
    ensures Leads(s, Calls(7) + ([Arm(gate)] + WriteSchedule(gate)), t)
    ensures t.hist.delivered == t.hist.covered == t.hist.ended == 1
    ensures t.hist.sleeps == if gate then 1 else 0
  {
    var a := CallsLoad(s, 7);
    var b := Apply(a, Arm(gate));
    t := OneWrite(b);
    LeadsOn(a, Arm(gate), b, WriteSchedule(gate), t);
    ExecAppend(s, Calls(7), [Arm(gate)] + WriteSchedule(gate));
  }

  // ---------- the exit path drains whatever the users started

  /** Statements still to run once no new write can begin. */
  ghost function ExitWork(s: State): nat {
    9 * s.users.raising + s.users.returning + 7 * Bit(s.line.pending)
    + (match s.line.top case TIdle => 0 case TSchedule => 6 case TReturn => 1)
    + 4 * Bit(s.tl.sched)
    + (match s.tl.bottom case BIdle => 0 case BCheck => 3 case BSleep => 2 case BReturn => 1)
    + (15 - Rank(s.mod.pc))
  }

  lemma ModRaisesRank(m: Module, ok: bool)
    requires !m.pc.MGone?
    ensures Rank(m.pc) < Rank(ModStatement(m, ok).pc) <= 15
  {
    match m.pc
    case MSetup => case MDomain => case MMapping => case MRequest => case MDir => case MGate =>
    case MTrigger => case MLoaded => case MUnlink => case MDrain => case MFree => case MFreeWait =>
    case MDispose => case MRemove => case MKill =>
  }

  lemma ModLowersWork(s: State, ok: bool)
    requires ModEnabled(s) && Rank(s.mod.pc) >= 9
    ensures ExitWork(ApplyMod(s, ok)) < ExitWork(s)
  {
    ModRaisesRank(s.mod, ok);
    var t := ApplyMod(s, ok);
    assert t.users == s.users && t.tl == s.tl && t.line.top == s.line.top;
    assert Bit(t.line.pending) <= Bit(s.line.pending);
  }

  lemma ExitStepLowersWork(s: State, e: Event)
    requires Inv(s) && Enabled(s, e) && Rank(s.mod.pc) >= 9
    ensures ExitWork(Apply(s, e)) < ExitWork(s) && Rank(Apply(s, e).mod.pc) >= 9
  {
    match e
    case ModStep(ok) => ModLowersWork(s, ok); ModRaisesRank(s.mod, ok);
    case TopStep => match s.line.top { case TSchedule => case TReturn => }
    case BottomStep => match s.tl.bottom { case BCheck => case BSleep => case BReturn => }
    case Raise(_) => case WriteDone => case Deliver => case StartBottom =>
  }

  /** After the files are gone every schedule is finite: at most nine statements for each write
      caught under way, and a constant. */
  lemma {:induction false} ExitIsBounded(s: State, es: seq<Event>)
    requires Inv(s) && Rank(s.mod.pc) >= 9 && Feasible(s, es)
    ensures |es| <= ExitWork(s) <= 9 * (s.users.raising + s.users.returning) + 26
    decreases |es|
  {
    if es != [] {
      ExitStepLowersWork(s, es[0]);
      KeepsInv(s, es[0]);
      ExitIsBounded(Apply(s, es[0]), es[1..]);
    }
  }

  /** ... and it never waits in vain: short of the end some statement can run. */
  lemma ExitNeverStalls(s: State) returns (e: Event)
    requires !s.mod.pc.MGone?
    ensures Enabled(s, e)
    ensures Rank(s.mod.pc) < 9 ==> e == ModStep(true)
  {
    e := if Rank(s.mod.pc) < 9 then ModStep(true)
         else if s.users.raising > 0 then Raise(true)
         else if s.users.returning > 0 then WriteDone
         else if !s.line.top.TIdle? then TopStep
         else if !s.tl.bottom.BIdle? then BottomStep
         else if s.tl.sched then StartBottom
         else ModStep(true);
  }

  ghost predicate Stuck(s: State) {
    forall e :: !Enabled(s, e)
  }

  lemma GoneIsClean(s: State)
    requires Holdings(s) && Chained(s) && s.mod.pc.MGone?
    ensures CleanlyGone(s)
  {
    assert Rank(s.mod.pc) == 15;
  }

  /** A run that cannot be continued, on whatever path, has unloaded the module, cleanly. */
  lemma MaximalRunsUnload(s0: State, es: seq<Event>)
    requires Initial(s0) && Feasible(s0, es) && Stuck(Exec(s0, es))
    ensures CleanlyGone(Exec(s0, es))
  {
    var s := Exec(s0, es);
    RunKeepsInv(s0, es);
    if !s.mod.pc.MGone? {
      var e := ExitNeverStalls(s);
      assert false;
    }
    GoneIsClean(s);
  }

  lemma {:induction false} CanUnload(s: State) returns (es: seq<Event>)
    requires Inv(s)
    ensures Feasible(s, es) && CleanlyGone(Exec(s, es))
    decreases if Rank(s.mod.pc) < 9 then 9 - Rank(s.mod.pc) else 0, ExitWork(s)
  {
    if s.mod.pc.MGone? {
      es := [];
      GoneIsClean(s);
    } else {
      var e := ExitNeverStalls(s);
      KeepsInv(s, e);
      if Rank(s.mod.pc) < 9 { ModRaisesRank(s.mod, true); } else { ExitStepLowersWork(s, e); }
      var rest := CanUnload(Apply(s, e));
      es := [e] + rest;
      assert es[1..] == rest;
    }
  }

  /** However many writes a run has seen, it can be continued until the module is cleanly gone. */
  lemma EveryRunCanUnload(s0: State, es: seq<Event>) returns (rest: seq<Event>)
    requires Initial(s0) && Feasible(s0, es)
    ensures Feasible(Exec(s0, es), rest) && CleanlyGone(Exec(Exec(s0, es), rest))
  {
    RunKeepsInv(s0, es);
    rest := CanUnload(Exec(s0, es));
  }

  // ---------- the statics, acquired and released in place

  /** What the loading thread has reached and holds between two of its calls. */
  datatype Rung = Rung(mod: Module, registered: bool)

  ghost function RungOf(s: State): Rung { Rung(s.mod, s.line.registered) }

  ghost predicate NextRung(a: Rung, b: Rung, ok: bool) {
    && !a.mod.pc.MGone? && b.mod == ModStatement(a.mod, ok)
    && b.registered == if a.mod.pc.MRequest? then ok else a.registered && !a.mod.pc.MFree?
  }

  /** A rung is what one step of the loading thread makes of the whole state ... */
  lemma ModStepIsNextRung(s: State, ok: bool)
    requires ModEnabled(s)
    ensures NextRung(RungOf(s), RungOf(ApplyMod(s, ok)), ok)
  {
    match s.mod.pc
    case MSetup => case MDomain => case MMapping => case MRequest => case MDir => case MGate =>
    case MTrigger => case MLoaded => case MUnlink => case MDrain => case MFree => case MFreeWait =>
    case MDispose => case MRemove => case MKill =>
  }

  /** ... and no other step touches it. */
  lemma OthersKeepRung(s: State, e: Event)
    requires Enabled(s, e) && !e.ModStep?
    ensures RungOf(Apply(s, e)) == RungOf(s)
  {
  }

  /** Each rung follows from the one before by one call, in the order of the transition system. */
  ghost predicate Ladder(trail: seq<Rung>) {
    forall i | 0 < i < |trail| ::
      NextRung(trail[i - 1], trail[i], true) || NextRung(trail[i - 1], trail[i], false)
  }

  /** gs_sim_domain, gs_virq, the irq action, gs_debug_dir and gs_danger_bh. `trail` are the
      rungs so far, each recorded after the variables have been brought to it. */
  class DangerModule {
    var tasklet: bool
    var domain: bool
    var virq: nat
    var registered: bool
    var dir: bool
    ghost var trail: seq<Rung>

    /** The last rung has this pc and agrees with the variables. */
    ghost predicate At(pc: ModPc)
      reads this
    {
      && trail != [] && Ladder(trail)
      && trail[|trail| - 1] == Rung(Module(pc, tasklet, domain, virq != 0, dir), registered)
    }

    constructor ()
      ensures At(MSetup) && NothingHeld()
    {
      tasklet, domain, virq, registered, dir := false, false, 0, false, false;
      trail := [Rung(Module(MSetup, false, false, false, false), false)];
    }

    predicate NothingHeld()
      reads this
    {
      !tasklet && !domain && virq == 0 && !registered && !dir
    }

    predicate AllHeld()
      reads this
    {
      tasklet && domain && virq != 0 && registered && dir
    }

    /** Record the rung that the variables show now. */
    ghost method Climb(pc: ModPc, ok: bool)
      requires trail != [] && Ladder(trail)
      requires NextRung(trail[|trail| - 1],
                 Rung(Module(pc, tasklet, domain, virq != 0, dir), registered), ok)
      modifies this`trail
      ensures At(pc) && old(trail) < trail
    {
      ghost var was := trail;
      trail := trail + [Rung(Module(pc, tasklet, domain, virq != 0, dir), registered)];
      assert trail[..|was|] == was;
    }

    method SetupTasklet()
      requires At(MSetup)
      modifies this`tasklet, this`trail
      ensures At(MDomain) && old(trail) < trail && tasklet
    {
      tasklet := true;
      Climb(MDomain, true);
    }

    method CreateDomain(ok: bool)
      requires At(MDomain) && !domain
      modifies this`domain, this`trail
      ensures At(if ok then MMapping else MKill) && old(trail) < trail && domain == ok
    {
      domain := ok;
      Climb(if ok then MMapping else MKill, ok);
    }

    method CreateMapping(newVirq: nat)
      requires At(MMapping) && virq == 0
      modifies this`virq, this`trail
      ensures At(if newVirq != 0 then MRequest else MRemove) && old(trail) < trail && virq == newVirq
    {
      virq := newVirq;
      Climb(if virq != 0 then MRequest else MRemove, virq != 0);
    }

    method RequestIrq(ok: bool)
      requires At(MRequest) && !registered
      modifies this`registered, this`trail
      ensures At(if ok then MDir else MDispose) && old(trail) < trail && registered == ok
    {
      registered := ok;
      Climb(if ok then MDir else MDispose, ok);
    }

    /** debugfs_create_dir, and if it succeeds the two files in it. */
    method CreateFiles(ok: bool)
      requires At(MDir) && !dir
      modifies this`dir, this`trail
      ensures At(if ok then MLoaded else MFree) && old(trail) < trail && dir == ok
    {
      dir := ok;
      Climb(if ok then MGate else MFree, ok);
      if ok {
        Climb(MTrigger, true);
        Climb(MLoaded, true);
      }
    }

    /** debugfs_remove: new calls are kept out, then the calls under way are waited for. */
    method RemoveFiles()
      requires At(MLoaded)
      modifies this`dir, this`trail
      ensures At(MFree) && old(trail) < trail && !dir
    {
      Climb(MUnlink, true);
      Climb(MDrain, true);
      dir := false;
      Climb(MFree, true);
    }

    /** free_irq, with its wait for a running handler. */
    method FreeIrq()
      requires At(MFree)
      modifies this`registered, this`trail
      ensures At(MDispose) && old(trail) < trail && !registered
    {
      registered := false;
      Climb(MFreeWait, true);
      Climb(MDispose, true);
    }

    method DisposeMapping()
      requires At(MDispose)
      modifies this`virq, this`trail
      ensures At(MRemove) && old(trail) < trail && virq == 0
    {
      virq := 0;
      Climb(MRemove, true);
    }

    method RemoveDomain()
      requires At(MRemove)
      modifies this`domain, this`trail
      ensures At(MKill) && old(trail) < trail && !domain
    {
      domain := false;
      Climb(MKill, true);
    }

    method KillTasklet()
      requires At(MKill)
      modifies this`tasklet, this`trail
      ensures At(MGone) && old(trail) < trail && !tasklet
    {
      tasklet := false;
      Climb(MGone, true);
    }

    /** The arguments are what the four calls that can fail return: a negative error or not
        for the domain and the directory, the virq (0 on failure), the code of request_irq.
        Resources are acquired, and on failure released, rung by rung. */
    method Load(domainErr: int, newVirq: nat, requestErr: int, dirErr: int) returns (ret: int)
      requires At(MSetup) && NothingHeld()
      modifies this
      ensures old(trail) < trail && At(if ret == 0 then MLoaded else MGone)
      ensures if ret == 0 then AllHeld() && virq == newVirq else NothingHeld()
      ensures ret == 0 <==> domainErr >= 0 && newVirq != 0 && requestErr == 0 && dirErr >= 0
      ensures ret == if domainErr < 0 then domainErr
                     else if newVirq == 0 then -ENODEV
                     else if requestErr != 0 then requestErr
                     else if dirErr < 0 then dirErr else 0
    {
      SetupTasklet();
      CreateDomain(domainErr >= 0);
      if domainErr < 0 {
        ret := domainErr;
      } else {
        CreateMapping(newVirq);
        if virq == 0 {
          ret := -ENODEV;
        } else {
          ret := requestErr;
          RequestIrq(ret == 0);
          if ret == 0 {
            CreateFiles(dirErr >= 0);
            if dirErr >= 0 {
              return 0;
            }
            ret := dirErr;
            FreeIrq();
          }
          DisposeMapping();
        }
        RemoveDomain();
      }
      KillTasklet();
    }

    /** Everything is released, in the order of the transition system, which from MLoaded on has
        only one. */
    method Unload()
      requires At(MLoaded)
      modifies this
      ensures NothingHeld() && old(trail) < trail && At(MGone)
    {
      RemoveFiles();
      FreeIrq();
      DisposeMapping();
      RemoveDomain();
      KillTasklet();
    }
  }
}
