/**
 interrupts/hardirq/disable_irq.c: a line is disabled, raised k times, enabled again.

 The environment: a raise sets the pending bit of the simulated line, and queued work later
 services the line once, however many raises came together; servicing a disabled line only
 marks it (IRQS_PENDING); enable_irq turns the mark into one queued software resend; the
 resend services the line again. Servicing a line that has no handler runs no handler.
 When the queued work and the resend get their turn is up to the environment.
 */
module DisableIrq {
  import opened Wrappers

  const DISABLED_RAISE_COUNT: nat := 5

  /** Number of raises before the first that fails. */
  function Successes(errs: seq<int>): (j: nat)
    ensures j <= |errs| && (forall i | 0 <= i < j :: errs[i] == 0)
    ensures j < |errs| ==> errs[j] != 0
  {
    if errs == [] || errs[0] != 0 then 0 else 1 + Successes(errs[1..])
  }

  /** After j raises, with `worked[i]` telling whether the queued work ran in the sleep that
      follows raise i: the line is marked if any work ran, and pending if the last did not. */
  predicate Marked(worked: seq<bool>, j: nat)
    requires j <= |worked|
  {
    exists i | 0 <= i < j :: worked[i]
  }

  predicate StillPending(worked: seq<bool>, j: nat)
    requires j <= |worked|
  {
    j > 0 && !worked[j - 1]
  }

  /** Handler runs after enable_irq, of which only those count that get their turn in time. */
  function Deliveries(worked: seq<bool>, j: nat, resendRan: bool, workRan: bool): nat
    requires j <= |worked|
  {
    Bit(Marked(worked, j) && resendRan) + Bit(StillPending(worked, j) && workRan)
  }

  class DisableIrqModule {
    // irq_sim and genirq
    var simPending: bool
    var disabled: bool
    var irqsPending: bool
    var resend: bool
    // what the module holds
    var domain: bool
    var virq: nat
    var registered: bool
    // gs_handler_run_count
    var handlerRuns: nat

    constructor ()
      ensures NothingHeld() && Quiet() && handlerRuns == 0
    {
      simPending, disabled, irqsPending, resend := false, false, false, false;
      domain, virq, registered, handlerRuns := false, 0, false, 0;
    }

    predicate NothingHeld()
      reads this
    {
      !domain && virq == 0 && !registered
    }

    predicate Quiet()
      reads this
    {
      !simPending && !disabled && !irqsPending && !resend
    }

    /** Flow handler of the line, and disable_irq_top_half if it comes to that. */
    method Service()
      modifies this`irqsPending, this`handlerRuns
      ensures disabled || !registered ==> irqsPending && handlerRuns == old(handlerRuns)
      ensures !disabled && registered ==>
                irqsPending == old(irqsPending) && handlerRuns == old(handlerRuns) + 1
    {
      if disabled || !registered {
        irqsPending := true;
      } else {
        handlerRuns := handlerRuns + 1;
      }
    }

    method RunWork()
      modifies this`simPending, this`irqsPending, this`handlerRuns
      ensures !simPending
      ensures irqsPending == (old(irqsPending) || (old(simPending) && (disabled || !registered)))
      ensures handlerRuns == old(handlerRuns) + Bit(old(simPending) && !disabled && registered)
    {
      if simPending {
        simPending := false;
        Service();
      }
    }

    method RunResend()
      modifies this`resend, this`irqsPending, this`handlerRuns
      ensures !resend
      ensures irqsPending == (old(irqsPending) || (old(resend) && (disabled || !registered)))
      ensures handlerRuns == old(handlerRuns) + Bit(old(resend) && !disabled && registered)
    {
      if resend {
        resend := false;
        Service();
      }
    }

    /** irq_set_irqchip_state(.., IRQCHIP_STATE_PENDING, true), failing with `err`. */
    method Raise(err: int) returns (ret: int)
      modifies this`simPending
      ensures ret == err && simPending == (old(simPending) || err == 0)
    {
      if err == 0 {
        simPending := true;
      }
      ret := err;
    }

    method Enable()
      modifies this`disabled, this`irqsPending, this`resend
      ensures !disabled && !irqsPending && resend == (old(resend) || old(irqsPending))
    {
      disabled := false;
      if irqsPending {
        irqsPending := false;
        resend := true;
      }
    }

    /** What gets its turn between enable_irq and the next call: the final sleep, or free_irq. */
    method AfterEnable(resendRan: bool, workRan: bool)
      requires registered && !disabled && !irqsPending
      modifies this`simPending, this`resend, this`irqsPending, this`handlerRuns
      ensures !irqsPending
      ensures handlerRuns
              == old(handlerRuns) + Bit(old(resend) && resendRan) + Bit(old(simPending) && workRan)
    {
      if resendRan {
        RunResend();
      }
      if workRan {
        RunWork();
      }
    }

    /** Release the line in the order of the unwind ladder; removing the domain waits for the
        queued work, which finds no handler. */
    method Release()
      requires domain
      modifies this
      ensures NothingHeld() && handlerRuns == old(handlerRuns) && !simPending
      ensures resend == old(resend) && disabled == old(disabled)
    {
      registered := false;
      virq := 0;
      RunWork();
      domain := false;
    }

    /** disable_irq_module_init for any number of raises, |raiseErrs|. The first arguments are
        the results of the calls that can fail; `worked`, `resendRan` and `workRan` are the
        environment's choices. `seen` are the run counts logged while the line is disabled. */
    method Init(domainErr: int, newVirq: nat, requestErr: int, raiseErrs: seq<int>,
                worked: seq<bool>, resendRan: bool, workRan: bool)
      returns (ret: int, seen: seq<nat>)
      requires |worked| == |raiseErrs| && NothingHeld() && Quiet()
      modifies this
      ensures forall i | 0 <= i < |seen| :: seen[i] == old(handlerRuns)
      ensures var ready := domainErr >= 0 && newVirq != 0 && requestErr == 0;
        var j := Successes(raiseErrs);
        && handlerRuns == old(handlerRuns)
                          + (if ready then Deliveries(worked, j, resendRan, workRan) else 0)
        && |seen| == (if ready then j else 0)
        && ret == (if domainErr < 0 then domainErr else if newVirq == 0 then -ENODEV
                   else if requestErr != 0 then requestErr
                   else if j < |raiseErrs| then raiseErrs[j] else 0)
        && (if ret == 0 then domain && virq == newVirq != 0 && registered && !disabled else NothingHeld())
    {
      seen := [];
      if domainErr < 0 {
        return domainErr, seen;
      }
      domain := true;
      virq := newVirq;
      if virq == 0 {
        Release();
        return -ENODEV, seen;
      }
      if requestErr != 0 {
        Release();
        return requestErr, seen;
      }
      registered := true;

      disabled := true;
      ret := 0;
      var i := 0;
      while i < |raiseErrs|
        invariant 0 <= i <= Successes(raiseErrs)
        invariant ret == 0 && domain && virq == newVirq && registered && disabled && !resend
        invariant simPending == StillPending(worked, i) && irqsPending == Marked(worked, i)
        invariant handlerRuns == old(handlerRuns)
        invariant |seen| == i && forall m | 0 <= m < i :: seen[m] == handlerRuns
      {
        ret := Raise(raiseErrs[i]);
        if ret != 0 {
          break;
        }
        if worked[i] {
          RunWork();
        }
        seen := seen + [handlerRuns];
        i := i + 1;
      }

      Enable();
      AfterEnable(resendRan, workRan);
      if ret != 0 {
        Release();
      }
    }

    method Exit()
      requires domain && virq != 0 && registered
      modifies this
      ensures NothingHeld() && handlerRuns == old(handlerRuns)
    {
      Release();
    }
  }

  /** Nothing is delivered that does not get its turn, nor anything after no raise. */
  lemma NoTurnNoDelivery(worked: seq<bool>, j: nat, resendRan: bool, workRan: bool)
    requires j <= |worked|
    ensures Deliveries(worked, j, false, false) == Deliveries(worked, 0, resendRan, workRan) == 0
  {
  }

  /** What the sample shows: when the sleeps outlast the queued work, any number of raises while
      disabled is one delivery after enable_irq, and no raise is none. */
  lemma RaisesMergeIntoOne(worked: seq<bool>)
    requires forall i | 0 <= i < |worked| :: worked[i]
    ensures Deliveries(worked, |worked|, true, true) == if |worked| >= 1 then 1 else 0
  {
    if |worked| >= 1 { assert worked[0]; }
  }

  /** If everything gets its turn in the end, k >= 1 raises are exactly one delivery if and only
      if the work of the last raise ran while the line was disabled, or no work did. */
  lemma OnceExactly(worked: seq<bool>)
    requires |worked| >= 1
    ensures Deliveries(worked, |worked|, true, true) == 1
            <==> worked[|worked| - 1] || forall i | 0 <= i < |worked| :: !worked[i]
  {
  }

  /** The other case is two deliveries: an earlier raise marked the line, the last is still
      pending when the line is enabled. */
  lemma TwiceIfTheLastIsLate(worked: seq<bool>)
    requires |worked| >= 1
    ensures Deliveries(worked, |worked|, true, true) == 2
            <==> !worked[|worked| - 1] && exists i :: 0 <= i < |worked| - 1 && worked[i]
  {
    var k := |worked|;
    if exists i :: 0 <= i < k - 1 && worked[i] { assert Marked(worked, k); }
    if Marked(worked, k) && !worked[k - 1] {
      var i :| 0 <= i < k && worked[i];
      assert i < k - 1;
    }
  }

  /** So the five raises of the sample are two deliveries when the work of the fifth is late. */
  lemma FiveRaisesCanBeTwo(worked: seq<bool>)
    requires |worked| == DISABLED_RAISE_COUNT
    requires worked[0] && worked[1] && worked[2] && worked[3] && !worked[4]
    ensures Deliveries(worked, DISABLED_RAISE_COUNT, true, true) == 2
  {
    TwiceIfTheLastIsLate(worked);
  }

  /** On the error path, after j raises, the handler runs at most once whatever gets its turn
      before free_irq, if and only if no raise was left pending behind the mark of an earlier
      one; when the sleeps outlast the queued work, none ever is. */
  lemma AtMostOnceOnError(worked: seq<bool>, j: nat)
    requires j <= |worked|
    ensures (forall resendRan, workRan :: Deliveries(worked, j, resendRan, workRan) <= 1)
            <==> j == 0 || worked[j - 1] || forall i | 0 <= i < j :: !worked[i]
  {
    if forall resendRan, workRan :: Deliveries(worked, j, resendRan, workRan) <= 1 {
      assert Deliveries(worked, j, true, true) <= 1;
    }
  }
}
