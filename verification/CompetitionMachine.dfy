/**
 The module as the program has it: variables that the contexts update in place, one statement
 at a time. Each method carries out one statement and is proved against the transition system,
 so whatever holds of every run of the transition system holds of the variables.
 */
module CompetitionMachine {
  import opened Wrappers
  import opened CompetitionModel
  import opened CompetitionInvariant
  import opened CompetitionTheorems
  import opened CompetitionRuns

  class Machine {
    var cpus: seq<Cpu>
    var counterLock: Option<Holder>
    var sharedCount: nat
    var hardirqRunCount: nat
    var pendingSeq: nat
    var line: Line
    var bottomHalf: Tasklet
    var module_: Module
    var hist: History

    function View(): State
      reads this
    {
      State(cpus, Memory(counterLock, sharedCount, hardirqRunCount, pendingSeq),
            line, bottomHalf, module_, hist)
    }

    constructor (n: nat)
      requires n >= 1
      ensures Initial(View()) && |cpus| == n
    {
      cpus := seq(n, _ => Cpu(Top(HIdle, 0, 0), Bottom(SIdle, 0), Raiser(TOff, false, 0, 0)));
      counterLock, sharedCount, hardirqRunCount, pendingSeq := None, 0, 0, 0;
      line := Line(false, None, false);
      bottomHalf := Tasklet(false, None);
      module_ := Module(MSetup, false, false, false, false);
      hist := History([], [], 0, 0, 0, 0, 0, RaiseLedger(0, 0, 0, 0, 0, 0));
    }

    method SetTop(c: nat, top: Top)
      requires c < |cpus|
      modifies this`cpus
      ensures cpus == old(cpus)[c := old(cpus)[c].(top := top)]
    {
      cpus := cpus[c := cpus[c].(top := top)];
    }

    method SetBottom(c: nat, bottom: Bottom)
      requires c < |cpus|
      modifies this`cpus
      ensures cpus == old(cpus)[c := old(cpus)[c].(bottom := bottom)]
    {
      cpus := cpus[c := cpus[c].(bottom := bottom)];
    }

    method SetRaiser(c: nat, raiser: Raiser)
      requires c < |cpus|
      modifies this`cpus
      ensures cpus == old(cpus)[c := old(cpus)[c].(raiser := raiser)]
    {
      cpus := cpus[c := cpus[c].(raiser := raiser)];
    }

    /** The statements of interrupt_competition_top_half that touch shared variables. */
    method TopHalfMemory(c: nat)
      requires c < |cpus| && HardInCs(cpus[c].top.pc)
      modifies this
      ensures View() == ApplyHard(old(View()), c)
    {
      var top := cpus[c].top;
      match top.pc {
        case HLoadRun => SetTop(c, top.(pc := HStoreRun, reg := hardirqRunCount));
        case HStoreRun => hardirqRunCount := top.reg + 1; SetTop(c, top.(pc := HReadN));
        case HReadN => SetTop(c, top.(pc := HLoadShared, n := hardirqRunCount));
        case HLoadShared => SetTop(c, top.(pc := HStoreShared, reg := sharedCount));
        case HStoreShared =>
          sharedCount := top.reg + 1;
          hist := hist.(hardIncs := hist.hardIncs + 1);
          SetTop(c, top.(pc := HReadVal));
        case HReadVal =>
          hist := hist.(tickets := hist.tickets + [Ticket(Hard, sharedCount)]);
          SetTop(c, top.(pc := HStamp));
        case HStamp => pendingSeq := top.n; SetTop(c, top.(pc := HUnlock));
        case HUnlock => counterLock := None; SetTop(c, top.(pc := HSchedule));
      }
    }

    method TopHalfStep(c: nat)
      requires Enabled(View(), HardStep(c))
      modifies this
      ensures View() == ApplyHard(old(View()), c)
    {
      var top := cpus[c].top;
      if HardInCs(top.pc) {
        TopHalfMemory(c);
      } else if top.pc.HSpin? {
        counterLock := Some(Holder(c, Hard));
        SetTop(c, top.(pc := HLoadRun));
      } else if top.pc.HSchedule? {
        bottomHalf := bottomHalf.(sched := true);
        hist := hist.(scheduled := hist.scheduled + 1);
        SetTop(c, top.(pc := HReturn));
      } else {
        line := line.(inprogress := None);
        SetTop(c, top.(pc := HIdle));
      }
    }

    method BottomHalfStep(c: nat)
      requires Enabled(View(), SoftStep(c))
      modifies this
      ensures View() == ApplySoft(old(View()), c)
    {
      var bottom := cpus[c].bottom;
      match bottom.pc {
        case SEnter => SetBottom(c, bottom.(pc := SSpin));
        case SSpin => counterLock := Some(Holder(c, Soft)); SetBottom(c, bottom.(pc := SReadSeq));
        case SReadSeq =>
          hist := hist.(reports := hist.reports + [pendingSeq]);
          SetBottom(c, bottom.(pc := SLoadShared));
        case SLoadShared => SetBottom(c, bottom.(pc := SStoreShared, reg := sharedCount));
        case SStoreShared =>
          sharedCount := bottom.reg + 1;
          hist := hist.(softIncs := hist.softIncs + 1);
          SetBottom(c, bottom.(pc := SReadVal));
        case SReadVal =>
          hist := hist.(tickets := hist.tickets + [Ticket(Soft, sharedCount)]);
          SetBottom(c, bottom.(pc := SUnlock));
        case SUnlock => counterLock := None; SetBottom(c, bottom.(pc := SRestore));
        case SRestore => SetBottom(c, bottom.(pc := SReturn));
        case SReturn =>
          bottomHalf := bottomHalf.(running := None);
          hist := hist.(finished := hist.finished + 1);
          SetBottom(c, bottom.(pc := SIdle));
      }
    }

    /** irq_set_irqchip_state(.., IRQCHIP_STATE_PENDING, true), which may fail. */
    method RaiseLine(ok: bool)
      modifies this`line, this`hist
      ensures line == old(line).(pending := old(line).pending || ok)
      ensures hist == old(hist).(raises := RaiseLedgerOf(old(hist).raises, old(line).pending, ok))
    {
      var r := hist.raises.(raised := hist.raises.raised + 1);
      if !ok {
        r := r.(failed := r.failed + 1);
      } else if line.pending {
        r := r.(merged := r.merged + 1);
      } else {
        line := line.(pending := true);
      }
      hist := hist.(raises := r);
    }

    method RaiserStep(c: nat, ok: bool)
      requires Enabled(View(), TaskStep(c, ok))
      modifies this
      ensures View() == ApplyTask(old(View()), c, ok)
    {
      var r := cpus[c].raiser;
      if r.pc.TCheck? {
        SetRaiser(c, r.(pc := if module_.stopping then TOff else TRaise));
      } else if r.pc.TRaise? {
        RaiseLine(ok);
        SetRaiser(c, r.(pc := TInc, calls := r.calls + 1));
      } else {
        SetRaiser(c, r.(pc := TCheck, raiseCount := r.raiseCount + 1));
      }
    }

    method DeliverLine(c: nat)
      requires Enabled(View(), Deliver(c))
      modifies this
      ensures View() == ApplyDeliver(old(View()), c)
    {
      var r := hist.raises;
      if !line.registered {
        r := r.(discarded := r.discarded + 1);
      } else if line.inprogress.Some? {
        r := r.(dropped := r.dropped + 1);
      } else {
        line := line.(inprogress := Some(c));
        SetTop(c, cpus[c].top.(pc := HSpin));
        r := r.(delivered := r.delivered + 1);
      }
      line := line.(pending := false);
      hist := hist.(raises := r);
    }

    method StartTasklet(c: nat)
      requires Enabled(View(), StartBottom(c))
      modifies this
      ensures View() == ApplyStartBottom(old(View()), c)
    {
      bottomHalf := Tasklet(false, Some(c));
      hist := hist.(started := hist.started + 1);
      SetBottom(c, cpus[c].bottom.(pc := SEnter));
    }

    /** One call of module_init, of its unwind ladder or of module_exit. */
    method LoaderStep(ok: bool)
      requires ModEnabled(View(), ok)
      modifies this
      ensures View() == ApplyMod(old(View()), ok)
    {
      match module_.pc {
        case MSetup => module_ := module_.(tasklet := true, pc := MDomain);
        case MDomain =>
          if ok { module_ := module_.(domain := true, pc := MMapping); }
          else { module_ := module_.(pc := MKill); }
        case MMapping =>
          if ok { module_ := module_.(mapping := true, pc := MRequest); }
          else { module_ := module_.(pc := MRemove); }
        case MRequest =>
          line := line.(registered := ok);
          module_ := module_.(pc := if ok then MRegister else MDispose);
        case MRegister =>
          if ok { module_ := module_.(pc := MLoaded); }
          else { module_ := module_.(stopping := true, pc := MStop); }
        case MLoaded => module_ := module_.(stopping := true, pc := MStop);
        case MStop => module_ := module_.(pc := MFree);
        case MFree => line := line.(registered := false); module_ := module_.(pc := MFreeWait);
        case MFreeWait => module_ := module_.(pc := MDispose);
        case MDispose => module_ := module_.(mapping := false, pc := MRemove);
        case MRemove =>
          if line.pending {
            hist := hist.(raises := hist.raises.(discarded := hist.raises.discarded + 1));
          }
          line := line.(pending := false);
          module_ := module_.(domain := false, pc := MKill);
        case MKill => module_ := module_.(tasklet := false, pc := MGone);
      }
    }

    method Step(e: Event)
      requires Enabled(View(), e)
      modifies this
      ensures View() == Apply(old(View()), e)
    {
      match e {
        case ModStep(ok) => LoaderStep(ok);
        case Spawn(c) => SetRaiser(c, cpus[c].raiser.(spawned := true, pc := TCheck));
        case Deliver(c) => DeliverLine(c);
        case HardStep(c) => TopHalfStep(c);
        case StartBottom(c) => StartTasklet(c);
        case SoftStep(c) => BottomHalfStep(c);
        case TaskStep(c, ok) => RaiserStep(c, ok);
      }
    }

    /** Follow a schedule, skipping what cannot happen: whatever the schedule, the variables
        keep the invariant and with it every property of CompetitionTheorems. */
    method Run(schedule: seq<Event>)
      requires Inv(View())
      modifies this
      ensures View() == Follow(old(View()), schedule)
      ensures Feasible(old(View()), schedule) ==> View() == Exec(old(View()), schedule)
      ensures Inv(View()) && |cpus| == old(|cpus|)
      ensures Guarantees(View())
    {
      var i := 0;
      while i < |schedule|
        invariant 0 <= i <= |schedule|
        invariant Inv(View()) && |cpus| == old(|cpus|)
        invariant Follow(View(), schedule[i..]) == Follow(old(View()), schedule)
      {
        assert schedule[i..][0] == schedule[i] && schedule[i..][1..] == schedule[i + 1..];
        if Enabled(View(), schedule[i]) {
          KeepsInv(View(), schedule[i]);
          KeepsCpuCount(View(), schedule[i]);
          Step(schedule[i]);
        }
        i := i + 1;
      }
      InvGuarantees(View());
      ghost var s0 := old(View());
      if Feasible(s0, schedule) { FollowFeasible(s0, schedule); }
    }
  }
}
