/**
 What a run of the interrupt competition does: runs compose step by step, a schedule that can
 be followed is followed to the letter, and one raise that nobody interrupts is one top half
 and one bottom half, with the counters, tickets and reports they leave behind.
 */
module CompetitionRuns {
  import opened Wrappers
  import opened CompetitionModel

  // ---------- runs compose

  lemma ExecOne(s: State, e: Event)
    requires Enabled(s, e)
    ensures Feasible(s, [e]) && Exec(s, [e]) == Apply(s, e)
  {
    assert [e][1..] == [];
  }

  lemma {:induction false} ExecAppend(s: State, a: seq<Event>, b: seq<Event>)
    requires Feasible(s, a) && Feasible(Exec(s, a), b)
    ensures Feasible(s, a + b) && Exec(s, a + b) == Exec(Exec(s, a), b)
    decreases |a|
  {
    if a == [] {
      assert a + b == b;
    } else {
      assert (a + b)[1..] == a[1..] + b;
      ExecAppend(Apply(s, a[0]), a[1..], b);
    }
  }

  /** A schedule is followed event by event; only what cannot happen is skipped. */
  lemma FollowOne(s: State, e: Event)
    ensures Follow(s, [e]) == if Enabled(s, e) then Apply(s, e) else s
  {
    assert [e][1..] == [];
  }

  lemma {:induction false} FollowAppend(s: State, a: seq<Event>, b: seq<Event>)
    ensures Follow(s, a + b) == Follow(Follow(s, a), b)
    decreases |a|
  {
    if a == [] {
      assert a + b == b;
    } else {
      assert (a + b)[1..] == a[1..] + b;
      FollowAppend(if Enabled(s, a[0]) then Apply(s, a[0]) else s, a[1..], b);
    }
  }

  lemma {:induction false} FollowFeasible(s: State, es: seq<Event>)
    requires Feasible(s, es)
    ensures Follow(s, es) == Exec(s, es)
    decreases |es|
  {
    if es != [] {
      FollowFeasible(Apply(s, es[0]), es[1..]);
    }
  }

  /** The schedule `es` can be run from `s` and leads to `t`. */
  ghost predicate Leads(s: State, es: seq<Event>, t: State) {
    Feasible(s, es) && Exec(s, es) == t
  }

  lemma LeadsOne(s: State, e: Event)
    requires Enabled(s, e)
    ensures Leads(s, [e], Apply(s, e))
  {
    ExecOne(s, e);
  }

  lemma LeadsOn(s: State, a: seq<Event>, t: State, b: seq<Event>, u: State)
    requires Leads(s, a, t) && Leads(t, b, u)
    ensures Leads(s, a + b, u)
  {
    ExecAppend(s, a, b);
  }

  function Repeat(e: Event, n: nat): (es: seq<Event>)
    ensures |es| == n && forall i | 0 <= i < n :: es[i] == e
  {
    if n == 0 then [] else [e] + Repeat(e, n - 1)
  }

  lemma LeadsTwice(s: State, e: Event, t: State, n: nat, u: State)
    requires Enabled(s, e) && t == Apply(s, e) && Leads(t, Repeat(e, n), u)
    ensures Leads(s, Repeat(e, n + 1), u)
  {
    LeadsOne(s, e);
    LeadsOn(s, [e], t, Repeat(e, n), u);
  }

  lemma {:induction false} RepeatAdd(e: Event, m: nat, n: nat)
    ensures Repeat(e, m) + Repeat(e, n) == Repeat(e, m + n)
  {
  }

  lemma LeadsAgain(s: State, e: Event, m: nat, t: State, n: nat, u: State)
    requires Leads(s, Repeat(e, m), t) && Leads(t, Repeat(e, n), u)
    ensures Leads(s, Repeat(e, m + n), u)
  {
    LeadsOn(s, Repeat(e, m), t, Repeat(e, n), u);
    RepeatAdd(e, m, n);
  }

  // ---------- a top half that nobody interrupts

  /** Everything but CPU c's top half and what a top half may touch is as before. */
  ghost predicate OnlyTop(s: State, t: State, c: nat) {
    && c < |s.cpus| == |t.cpus| && t.cpus == s.cpus[c := s.cpus[c].(top := t.cpus[c].top)]
    && t.mod == s.mod && t.tl.running == s.tl.running
    && t.line == s.line.(inprogress := t.line.inprogress)
  }

  /** Lock, count, remember. */
  lemma TopCounts(s: State, c: nat) returns (t: State)
    requires c < |s.cpus| && s.cpus[c].top.pc.HSpin? && s.mem.lock.None?
    ensures Leads(s, Repeat(HardStep(c), 4), t) && OnlyTop(s, t, c)
    ensures t.cpus[c].top.pc.HLoadShared? && t.cpus[c].top.n == s.mem.runCount + 1
    ensures t.mem == s.mem.(lock := Some(Holder(c, Hard)), runCount := s.mem.runCount + 1)
    ensures t.tl == s.tl && t.line == s.line && t.hist == s.hist
  {
    var e := HardStep(c);
    var s1 := ApplyHard(s, c);
    var s2 := ApplyHard(s1, c);
    var s3 := ApplyHard(s2, c);
    t := ApplyHard(s3, c);
    LeadsTwice(s3, e, t, 0, t);
    LeadsTwice(s2, e, s3, 1, t);
    LeadsTwice(s1, e, s2, 2, t);
    LeadsTwice(s, e, s1, 3, t);
  }

  /** Take a ticket. */
  lemma TopTakes(s: State, c: nat) returns (t: State)
    requires c < |s.cpus| && s.cpus[c].top.pc.HLoadShared?
    ensures Leads(s, Repeat(HardStep(c), 3), t) && OnlyTop(s, t, c)
    ensures t.cpus[c].top.pc.HStamp? && t.cpus[c].top.n == s.cpus[c].top.n
    ensures t.mem == s.mem.(sharedCount := s.mem.sharedCount + 1)
    ensures t.tl == s.tl && t.line == s.line
    ensures t.hist == s.hist.(hardIncs := s.hist.hardIncs + 1,
                              tickets := s.hist.tickets + [Ticket(Hard, s.mem.sharedCount + 1)])
  {
    var e := HardStep(c);
    var s1 := ApplyHard(s, c);
    var s2 := ApplyHard(s1, c);
    t := ApplyHard(s2, c);
    LeadsTwice(s2, e, t, 0, t);
    LeadsTwice(s1, e, s2, 1, t);
    LeadsTwice(s, e, s1, 2, t);
  }

  /** Stamp, unlock, schedule, return. */
  lemma TopSchedules(s: State, c: nat) returns (t: State)
    requires c < |s.cpus| && s.cpus[c].top.pc.HStamp?
    ensures Leads(s, Repeat(HardStep(c), 4), t) && OnlyTop(s, t, c)
    ensures t.cpus[c].top.pc.HIdle?
    ensures t.mem == s.mem.(lock := None, pendingSeq := s.cpus[c].top.n)
    ensures t.tl.sched && t.line.inprogress.None?
    ensures t.hist == s.hist.(scheduled := s.hist.scheduled + 1)
  {
    var e := HardStep(c);
    var s1 := ApplyHard(s, c);
    var s2 := ApplyHard(s1, c);
    var s3 := ApplyHard(s2, c);
    t := ApplyHard(s3, c);
    LeadsTwice(s3, e, t, 0, t);
    LeadsTwice(s2, e, s3, 1, t);
    LeadsTwice(s1, e, s2, 2, t);
    LeadsTwice(s, e, s1, 3, t);
  }

  /** Eleven statements: the hardirq is counted, takes a ticket, stamps its number and
      schedules the tasklet, and the line is free again. */
  lemma WholeTopHalf(s: State, c: nat) returns (t: State)
    requires c < |s.cpus| && s.cpus[c].top.pc.HSpin? && s.mem.lock.None?
    ensures Leads(s, Repeat(HardStep(c), 11), t) && OnlyTop(s, t, c)
    ensures t.cpus[c].top.pc.HIdle? && t.tl.sched && t.line.inprogress.None?
    ensures var n, val := s.mem.runCount + 1, s.mem.sharedCount + 1;
      && t.mem == Memory(None, val, n, n)
      && t.hist == s.hist.(hardIncs := s.hist.hardIncs + 1, scheduled := s.hist.scheduled + 1,
                           tickets := s.hist.tickets + [Ticket(Hard, val)])
  {
    var e := HardStep(c);
    var a := TopCounts(s, c);
    var b := TopTakes(a, c);
    t := TopSchedules(b, c);
    LeadsAgain(s, e, 4, a, 3, b);
    LeadsAgain(s, e, 7, b, 4, t);
  }

  // ---------- a bottom half that nobody interrupts

  ghost predicate OnlyBottom(s: State, t: State, c: nat) {
    && c < |s.cpus| == |t.cpus| && t.cpus == s.cpus[c := s.cpus[c].(bottom := t.cpus[c].bottom)]
    && t.mod == s.mod && t.line == s.line && t.tl.sched == s.tl.sched
  }

  /** Interrupts off, lock, read the stamp. */
  lemma BottomReads(s: State, c: nat) returns (t: State)
    requires c < |s.cpus| && s.cpus[c].top.pc.HIdle? && s.cpus[c].bottom.pc.SEnter? && s.mem.lock.None?
    ensures Leads(s, Repeat(SoftStep(c), 3), t) && OnlyBottom(s, t, c)
    ensures t.cpus[c].bottom.pc.SLoadShared?
    ensures t.mem == s.mem.(lock := Some(Holder(c, Soft))) && t.tl == s.tl
    ensures t.hist == s.hist.(reports := s.hist.reports + [s.mem.pendingSeq])
  {
    var e := SoftStep(c);
    var s1 := ApplySoft(s, c);
    var s2 := ApplySoft(s1, c);
    t := ApplySoft(s2, c);
    LeadsTwice(s2, e, t, 0, t);
    LeadsTwice(s1, e, s2, 1, t);
    LeadsTwice(s, e, s1, 2, t);
  }

  lemma BottomTakes(s: State, c: nat) returns (t: State)
    requires c < |s.cpus| && s.cpus[c].top.pc.HIdle? && s.cpus[c].bottom.pc.SLoadShared?
    ensures Leads(s, Repeat(SoftStep(c), 3), t) && OnlyBottom(s, t, c)
    ensures t.cpus[c].bottom.pc.SUnlock?
    ensures t.mem == s.mem.(sharedCount := s.mem.sharedCount + 1) && t.tl == s.tl
    ensures t.hist == s.hist.(softIncs := s.hist.softIncs + 1,
                              tickets := s.hist.tickets + [Ticket(Soft, s.mem.sharedCount + 1)])
  {
    var e := SoftStep(c);
    var s1 := ApplySoft(s, c);
    var s2 := ApplySoft(s1, c);
    t := ApplySoft(s2, c);
    LeadsTwice(s2, e, t, 0, t);
    LeadsTwice(s1, e, s2, 1, t);
    LeadsTwice(s, e, s1, 2, t);
  }

  /** Unlock, interrupts on, return. */
  lemma BottomEnds(s: State, c: nat) returns (t: State)
    requires c < |s.cpus| && s.cpus[c].top.pc.HIdle? && s.cpus[c].bottom.pc.SUnlock?
    ensures Leads(s, Repeat(SoftStep(c), 3), t) && OnlyBottom(s, t, c)
    ensures t.cpus[c].bottom.pc.SIdle? && t.tl.running.None?
    ensures t.mem == s.mem.(lock := None)
    ensures t.hist == s.hist.(finished := s.hist.finished + 1)
  {
    var e := SoftStep(c);
    var s1 := ApplySoft(s, c);
    var s2 := ApplySoft(s1, c);
    t := ApplySoft(s2, c);
    LeadsTwice(s2, e, t, 0, t);
    LeadsTwice(s1, e, s2, 1, t);
    LeadsTwice(s, e, s1, 2, t);
  }

  /** Nine statements: the stamp is reported, a ticket taken, and the tasklet may run again. */
  lemma WholeBottomHalf(s: State, c: nat) returns (t: State)
    requires c < |s.cpus| && s.cpus[c].top.pc.HIdle? && s.cpus[c].bottom.pc.SEnter? && s.mem.lock.None?
    ensures Leads(s, Repeat(SoftStep(c), 9), t) && OnlyBottom(s, t, c)
    ensures t.cpus[c].bottom.pc.SIdle? && t.tl.running.None?
    ensures var val := s.mem.sharedCount + 1;
      && t.mem == s.mem.(sharedCount := val)
      && t.hist == s.hist.(softIncs := s.hist.softIncs + 1, finished := s.hist.finished + 1,
                           reports := s.hist.reports + [s.mem.pendingSeq],
                           tickets := s.hist.tickets + [Ticket(Soft, val)])
  {
    var e := SoftStep(c);
    var a := BottomReads(s, c);
    var b := BottomTakes(a, c);
    t := BottomEnds(b, c);
    LeadsAgain(s, e, 3, a, 3, b);
    LeadsAgain(s, e, 6, b, 3, t);
  }

  // ---------- one raise, and as many as a CPU makes

  /** CPU c is about to check whether to raise, the handler is registered, and nothing else
      goes on. */
  ghost predicate Ready(s: State, c: nat) {
    && c < |s.cpus| && s.cpus[c].top.pc.HIdle? && s.cpus[c].bottom.pc.SIdle?
    && s.cpus[c].raiser.pc.TCheck? && !s.mod.stopping && s.mem.lock.None?
    && s.line.registered && !s.line.pending && s.line.inprogress.None?
    && !s.tl.sched && s.tl.running.None?
  }

  /** CPU d's raiser runs and is about to check, with raises left. */
  ghost predicate CanRaise(s: State, d: nat) {
    && d < |s.cpus| && s.cpus[d].top.pc.HIdle? && s.cpus[d].bottom.pc.SIdle?
    && s.cpus[d].raiser.pc.TCheck? && !s.mod.stopping
    && s.cpus[d].raiser.raiseCount < RAISES_PER_CPU
  }

  /** Check, raise, count. */
  lemma RaisesLine(s: State, d: nat) returns (t: State)
    requires CanRaise(s, d) && !s.line.pending
    ensures Leads(s, Repeat(TaskStep(d, true), 3), t)
    ensures |t.cpus| == |s.cpus| && t.cpus == s.cpus[d := s.cpus[d].(raiser := t.cpus[d].raiser)]
    ensures t.cpus[d].raiser.pc.TCheck?
            && t.cpus[d].raiser.raiseCount == s.cpus[d].raiser.raiseCount + 1
    ensures t.mem == s.mem && t.tl == s.tl && t.mod == s.mod && t.line == s.line.(pending := true)
    ensures t.hist == s.hist.(raises := s.hist.raises.(raised := s.hist.raises.raised + 1))
  {
    var e := TaskStep(d, true);
    var s1 := ApplyTask(s, d, true);
    var s2 := ApplyTask(s1, d, true);
    t := ApplyTask(s2, d, true);
    LeadsTwice(s2, e, t, 0, t);
    LeadsTwice(s1, e, s2, 1, t);
    LeadsTwice(s, e, s1, 2, t);
  }

  lemma DeliversTo(s: State, c: nat) returns (t: State)
    requires c < |s.cpus| && s.line.pending && s.line.registered && s.line.inprogress.None?
    requires s.cpus[c].top.pc.HIdle? && (s.cpus[c].bottom.pc.SIdle? || s.cpus[c].bottom.pc.SEnter?)
    ensures Leads(s, [Deliver(c)], t)
    ensures |t.cpus| == |s.cpus| && t.cpus == s.cpus[c := s.cpus[c].(top := t.cpus[c].top)]
    ensures t.cpus[c].top.pc.HSpin? && t.mem == s.mem && t.tl == s.tl && t.mod == s.mod
    ensures t.line == s.line.(pending := false, inprogress := Some(c))
    ensures t.hist == s.hist.(raises := s.hist.raises.(delivered := s.hist.raises.delivered + 1))
  {
    t := ApplyDeliver(s, c);
    LeadsOne(s, Deliver(c));
  }

  lemma RaiseAndDeliver(s: State, c: nat) returns (t: State)
    requires CanRaise(s, c) && !s.line.pending && s.line.registered && s.line.inprogress.None?
    ensures Leads(s, Repeat(TaskStep(c, true), 3) + [Deliver(c)], t)
    ensures |t.cpus| == |s.cpus| && t.cpus[c].top.pc.HSpin? && t.cpus[c].bottom.pc.SIdle?
    ensures t.cpus[c].raiser.pc.TCheck?
            && t.cpus[c].raiser.raiseCount == s.cpus[c].raiser.raiseCount + 1
    ensures t.mem == s.mem && t.tl == s.tl && t.mod == s.mod
    ensures t.line == s.line.(inprogress := Some(c))
    ensures t.hist == s.hist.(raises := t.hist.raises)
    ensures t.hist.raises == s.hist.raises.(raised := s.hist.raises.raised + 1,
                                            delivered := s.hist.raises.delivered + 1)
  {
    var a := RaisesLine(s, c);
    t := DeliversTo(a, c);
    LeadsOn(s, Repeat(TaskStep(c, true), 3), a, [Deliver(c)], t);
  }

  /** Check, raise and count; deliver; the top half; the bottom half. */
  function RaiseSchedule(c: nat): seq<Event> {
    (Repeat(TaskStep(c, true), 3) + [Deliver(c)])
    + Repeat(HardStep(c), 11) + ([StartBottom(c)] + Repeat(SoftStep(c), 9))
  }

  lemma BottomHalfFollows(s: State, c: nat) returns (t: State)
    requires c < |s.cpus| && s.cpus[c].top.pc.HIdle? && s.cpus[c].bottom.pc.SIdle?
    requires s.mem.lock.None? && s.tl.sched && s.tl.running.None?
    ensures Leads(s, [StartBottom(c)] + Repeat(SoftStep(c), 9), t)
    ensures |t.cpus| == |s.cpus| && t.cpus[c].top == s.cpus[c].top && t.cpus[c].bottom.pc.SIdle?
    ensures t.cpus[c].raiser == s.cpus[c].raiser
    ensures t.mod == s.mod && t.line == s.line && !t.tl.sched && t.tl.running.None?
    ensures var val := s.mem.sharedCount + 1;
      && t.mem == s.mem.(sharedCount := val)
      && t.hist.reports == s.hist.reports + [s.mem.pendingSeq]
      && t.hist.tickets == s.hist.tickets + [Ticket(Soft, val)]
      && t.hist.raises == s.hist.raises
  {
    var s1 := ApplyStartBottom(s, c);
    LeadsOne(s, StartBottom(c));
    t := WholeBottomHalf(s1, c);
    LeadsOn(s, [StartBottom(c)], s1, Repeat(SoftStep(c), 9), t);
  }

  /** One raise that nobody interferes with is delivered, counted and reported, takes a ticket
      in each half, and leaves the CPU ready for the next. */
  lemma OneRaise(s: State, c: nat) returns (t: State)
    requires Ready(s, c) && s.cpus[c].raiser.raiseCount < RAISES_PER_CPU
    ensures Leads(s, RaiseSchedule(c), t) && Ready(t, c)
    ensures t.cpus[c].raiser.raiseCount == s.cpus[c].raiser.raiseCount + 1
    ensures var n, val := s.mem.runCount + 1, s.mem.sharedCount + 1;
      && t.mem == Memory(None, val + 1, n, n)
      && t.hist.reports == s.hist.reports + [n]
      && t.hist.tickets == s.hist.tickets + [Ticket(Hard, val), Ticket(Soft, val + 1)]
      && t.hist.raises == s.hist.raises.(raised := s.hist.raises.raised + 1,
                                         delivered := s.hist.raises.delivered + 1)
  {
    var a := RaiseAndDeliver(s, c);
    var b := WholeTopHalf(a, c);
    t := BottomHalfFollows(b, c);
    LeadsOn(s, Repeat(TaskStep(c, true), 3) + [Deliver(c)], a, Repeat(HardStep(c), 11), b);
    LeadsOn(s, (Repeat(TaskStep(c, true), 3) + [Deliver(c)]) + Repeat(HardStep(c), 11), b,
            [StartBottom(c)] + Repeat(SoftStep(c), 9), t);
  }

  /** k raises one after the other, as far as the limit of the CPU allows: k hardirqs, two
      tickets for each, and the reports are their numbers. */
  lemma {:induction false} RaisesInTurn(s: State, c: nat, k: nat) returns (es: seq<Event>, t: State)
    requires Ready(s, c) && s.cpus[c].raiser.raiseCount + k <= RAISES_PER_CPU
    ensures Leads(s, es, t) && Ready(t, c)
    ensures t.cpus[c].raiser.raiseCount == s.cpus[c].raiser.raiseCount + k
    ensures t.mem.runCount == s.mem.runCount + k && t.mem.sharedCount == s.mem.sharedCount + 2 * k
    ensures t.hist.reports == s.hist.reports + seq(k, i => s.mem.runCount + 1 + i)
    ensures t.hist.raises.delivered == s.hist.raises.delivered + k
    decreases k
  {
    if k == 0 {
      es, t := [], s;
    } else {
      var a := OneRaise(s, c);
      var rest;
      rest, t := RaisesInTurn(a, c, k - 1);
      es := RaiseSchedule(c) + rest;
      LeadsOn(s, RaiseSchedule(c), a, rest, t);
      assert seq(k, i => s.mem.runCount + 1 + i)
             == [s.mem.runCount + 1] + seq(k - 1, i => a.mem.runCount + 1 + i);
    }
  }

  // ---------- when raises come close together

  /** Two hardirqs before the softirq gets its turn: one bottom half, which reports the newer. */
  lemma OneSoftirqForTwo(s: State, c: nat) returns (es: seq<Event>, t: State)
    requires Ready(s, c) && s.cpus[c].raiser.raiseCount + 2 <= RAISES_PER_CPU
    ensures Leads(s, es, t) && !t.tl.sched && t.tl.running.None?
    ensures var n, val := s.mem.runCount, s.mem.sharedCount;
      && t.mem == Memory(None, val + 3, n + 2, n + 2) && t.hist.reports == s.hist.reports + [n + 2]
      && t.hist.tickets
         == s.hist.tickets + [Ticket(Hard, val + 1), Ticket(Hard, val + 2)] + [Ticket(Soft, val + 3)]
  {
    var raise, top := Repeat(TaskStep(c, true), 3) + [Deliver(c)], Repeat(HardStep(c), 11);
    var a := RaiseAndDeliver(s, c);
    var b := WholeTopHalf(a, c);
    LeadsOn(s, raise, a, top, b);
    var d := RaiseAndDeliver(b, c);
    LeadsOn(s, raise + top, b, raise, d);
    var e := WholeTopHalf(d, c);
    LeadsOn(s, raise + top + raise, d, top, e);
    t := BottomHalfFollows(e, c);
    LeadsOn(s, raise + top + raise + top, e, [StartBottom(c)] + Repeat(SoftStep(c), 9), t);
    es := raise + top + raise + top + ([StartBottom(c)] + Repeat(SoftStep(c), 9));
  }

  /** A bottom half is entered on CPU c with interrupts still on, and another CPU's raise is
      delivered on top of it. */
  lemma InterruptedBottomHalf(s: State, c: nat, d: nat) returns (es: seq<Event>, t: State)
    requires c < |s.cpus| && c != d && CanRaise(s, d)
    requires s.cpus[c].top.pc.HIdle? && s.cpus[c].bottom.pc.SIdle? && s.mem.lock.None?
    requires s.line.registered && !s.line.pending && s.line.inprogress.None?
    requires s.tl.sched && s.tl.running.None?
    ensures Leads(s, es, t) && |t.cpus| == |s.cpus| && t.cpus[c].top.pc.HIdle? && t.cpus[c].bottom.pc.SEnter?
    ensures t.tl.sched && t.mem.lock.None? && t.mod == s.mod
    ensures var n, val := s.mem.runCount + 1, s.mem.sharedCount + 1;
      && t.mem == Memory(None, val, n, n) && t.hist.reports == s.hist.reports
  {
    var a := ApplyStartBottom(s, c);
    LeadsOne(s, StartBottom(c));
    var b := RaisesLine(a, d);
    LeadsOn(s, [StartBottom(c)], a, Repeat(TaskStep(d, true), 3), b);
    var f := DeliversTo(b, c);
    LeadsOn(s, [StartBottom(c)] + Repeat(TaskStep(d, true), 3), b, [Deliver(c)], f);
    t := WholeTopHalf(f, c);
    es := [StartBottom(c)] + Repeat(TaskStep(d, true), 3) + [Deliver(c)];
    LeadsOn(s, es, f, Repeat(HardStep(c), 11), t);
    es := es + Repeat(HardStep(c), 11);
  }

  /** Then that bottom half reports the newer hardirq, and the one scheduled again reports it a
      second time: reports need not be distinct. */
  lemma SameHardirqTwice(s: State, c: nat, d: nat) returns (es: seq<Event>, t: State)
    requires c < |s.cpus| && c != d && CanRaise(s, d)
    requires s.cpus[c].top.pc.HIdle? && s.cpus[c].bottom.pc.SIdle? && s.mem.lock.None?
    requires s.line.registered && !s.line.pending && s.line.inprogress.None?
    requires s.tl.sched && s.tl.running.None?
    ensures Leads(s, es, t)
    ensures t.hist.reports == s.hist.reports + [s.mem.runCount + 1] + [s.mem.runCount + 1]
  {
    var a;
    es, a := InterruptedBottomHalf(s, c, d);
    var b := WholeBottomHalf(a, c);
    LeadsOn(s, es, a, Repeat(SoftStep(c), 9), b);
    t := BottomHalfFollows(b, c);
    LeadsOn(s, es + Repeat(SoftStep(c), 9), b, [StartBottom(c)] + Repeat(SoftStep(c), 9), t);
    es := es + Repeat(SoftStep(c), 9) + ([StartBottom(c)] + Repeat(SoftStep(c), 9));
  }

  // ---------- from before module_init on, with one CPU

  function LoadSchedule(): seq<Event> {
    Repeat(ModStep(true), 4) + [Spawn(0), ModStep(true)]
  }

  lemma FourCalls(s: State) returns (t: State)
    requires Initial(s)
    ensures Leads(s, Repeat(ModStep(true), 4), t)
    ensures t.mod.pc.MRegister? && !t.mod.stopping && t.line == s.line.(registered := true)
    ensures t.cpus == s.cpus && t.mem == s.mem && t.tl == s.tl && t.hist == s.hist
  {
    var e := ModStep(true);
    var s1 := ApplyMod(s, true);
    var s2 := ApplyMod(s1, true);
    var s3 := ApplyMod(s2, true);
    t := ApplyMod(s3, true);
    LeadsTwice(s3, e, t, 0, t);
    LeadsTwice(s2, e, s3, 1, t);
    LeadsTwice(s1, e, s2, 2, t);
    LeadsTwice(s, e, s1, 3, t);
  }

  lemma SpawnAndLoad(s: State) returns (t: State)
    requires |s.cpus| == 1 && FreshCpu(s.cpus[0]) && s.mod.pc.MRegister?
    ensures Leads(s, [Spawn(0), ModStep(true)], t)
    ensures t.mod == s.mod.(pc := MLoaded) && t.cpus[0].raiser.pc.TCheck?
    ensures t.cpus == s.cpus[0 := s.cpus[0].(raiser := t.cpus[0].raiser)]
    ensures t.cpus[0].raiser.raiseCount == 0
    ensures t.mem == s.mem && t.tl == s.tl && t.hist == s.hist && t.line == s.line
  {
    var a := ApplySpawn(s, 0);
    assert AllSpawned(a.cpus);
    t := ApplyMod(a, true);
    LeadsOne(s, Spawn(0));
    LeadsOne(a, ModStep(true));
    LeadsOn(s, [Spawn(0)], a, [ModStep(true)], t);
    assert [Spawn(0)] + [ModStep(true)] == [Spawn(0), ModStep(true)];
  }

  lemma LoadsOneCpu(s: State) returns (t: State)
    requires Initial(s) && |s.cpus| == 1
    ensures Leads(s, LoadSchedule(), t) && t.mod.pc.MLoaded? && Ready(t, 0)
    ensures t.cpus[0].raiser.raiseCount == 0 && t.mem == s.mem && t.hist == s.hist
  {
    assert FreshCpu(s.cpus[0]);
    var a := FourCalls(s);
    t := SpawnAndLoad(a);
    LeadsOn(s, Repeat(ModStep(true), 4), a, [Spawn(0), ModStep(true)], t);
  }

  /** A whole run: the module is loaded on one CPU, which raises the line once. */
  lemma FirstRaise(s: State, c: nat) returns (t: State)
    requires Initial(s) && c < |s.cpus| == 1
    ensures Leads(s, LoadSchedule() + RaiseSchedule(c), t)
    ensures t.hist.tickets == [Ticket(Hard, 1), Ticket(Soft, 2)] && t.hist.reports == [1]
      && t.mem.runCount == 1 && t.mem.sharedCount == 2 && t.mem.pendingSeq == 1
      && t.hist.raises.raised == 1 && t.hist.raises.delivered == 1
  {
    var a := LoadsOneCpu(s);
    t := OneRaise(a, c);
    LeadsOn(s, LoadSchedule(), a, RaiseSchedule(c), t);
  }

  /** All ten: twenty tickets, and the bottom halves report 1 to 10. */
  lemma TenRaises(s: State) returns (es: seq<Event>, t: State)
    requires Initial(s) && |s.cpus| == 1
    ensures Leads(s, es, t) && t.mem.runCount == 10 && t.mem.sharedCount == 20
    ensures t.hist.reports == seq(10, i => 1 + i) && t.hist.raises.delivered == 10
  {
    var a := LoadsOneCpu(s);
    es, t := RaisesInTurn(a, 0, 10);
    LeadsOn(s, LoadSchedule(), a, es, t);
    assert seq(10, i => a.mem.runCount + 1 + i) == seq(10, i => 1 + i);
    es := LoadSchedule() + es;
  }
}
