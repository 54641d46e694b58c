/**
 interrupts/deferred/net_rx_softirq.c: a hook that runs on any number of CPUs at once samples
 every 16th TCP packet with one atomic counter and counts the captured ones with another. Both
 counters are machine words and wrap.
 */
module NetRxSoftirq {
  import opened Modular

  const SAMPLE_EVERY: nat := 16

  /** What a hook invocation is given: no buffer, some other protocol, or a TCP packet. */
  datatype Packet = NoBuffer | OtherProtocol | Tcp

  datatype Verdict = Accept | Drop

  /** The two words, modulo `word`; the true numbers of TCP packets, captures and failed header
      pulls; the hook invocations under way, before the pull and before the second increment;
      and the true numbers of the sampled packets. */
  datatype State = State(
    word: nat, seen: nat, captured: nat,
    trueSeen: nat, trueCaptured: nat, failed: nat, pulling: nat, counting: nat,
    sampled: seq<nat>)

  /** One atomic step of some hook invocation. */
  datatype Event = Arrive(packet: Packet) | Pull(ok: bool) | Count

  predicate Initial(s: State) {
    && s.word > 0 && s.seen == 0 && s.captured == 0 && s.trueSeen == 0 && s.trueCaptured == 0
    && s.failed == 0 && s.pulling == 0 && s.counting == 0 && s.sampled == []
  }

  predicate Enabled(s: State, e: Event) {
    match e
    case Arrive(_) => s.word > 0
    case Pull(_) => s.pulling > 0
    case Count => s.word > 0 && s.counting > 0
  }

  function Apply(s: State, e: Event): State
    requires Enabled(s, e)
  {
    match e
    case Arrive(packet) =>
      if !packet.Tcp? then s
      else
        var t := s.(seen := (s.seen + 1) % s.word, trueSeen := s.trueSeen + 1);
        if s.seen % SAMPLE_EVERY != 0 then t
        else t.(pulling := s.pulling + 1, sampled := s.sampled + [s.trueSeen])
    case Pull(ok) =>
      if ok then s.(pulling := s.pulling - 1, counting := s.counting + 1)
      else s.(pulling := s.pulling - 1, failed := s.failed + 1)
    case Count =>
      s.(counting := s.counting - 1, captured := (s.captured + 1) % s.word,
         trueCaptured := s.trueCaptured + 1)
  }

  predicate Feasible(s: State, es: seq<Event>)
    decreases |es|
  {
    es == [] || (Enabled(s, es[0]) && Feasible(Apply(s, es[0]), es[1..]))
  }

  function Exec(s: State, es: seq<Event>): State
    requires Feasible(s, es)
    decreases |es|
  {
    if es == [] then s else Exec(Apply(s, es[0]), es[1..])
  }

  /** Packets 0, 16, 32, ... below t. */
  function Due(t: nat): nat { (t + 15) / 16 }

  /** Every sampled packet is captured, lost to a failed pull, or still under way; the sampled
      packets are exactly those whose true number is a multiple of 16. */
  ghost predicate Ledger(s: State) {
    && s.trueCaptured + s.failed + s.pulling + s.counting == |s.sampled| == Due(s.trueSeen)
    && (forall i | 0 <= i < |s.sampled| :: s.sampled[i] == 16 * i)
    && s.word > 0 && s.seen == s.trueSeen % s.word && s.captured == s.trueCaptured % s.word
  }

  // ---------- wrapping

  /** A word agrees with the true count about multiples of 16. */
  ghost predicate Samples(word: nat)
    requires word > 0
  {
    forall t: nat :: (t % word) % SAMPLE_EVERY == 0 <==> t % SAMPLE_EVERY == 0
  }

  lemma ModOfMod(t: nat, word: nat)
    requires word > 0 && word % 16 == 0
    ensures (t % word) % 16 == t % 16
  {
    SameResidue(t, word, word / 16, t / word, t % word);
  }

  lemma SameResidue(t: nat, word: nat, k: nat, q: nat, r: nat)
    requires word == 16 * k && t == word * q + r
    ensures r % 16 == t % 16
  {
    MulAssociates(16, k, q);
    ModPlusMultiple(r, k * q);
  }

  lemma ModPlusMultiple(r: nat, m: nat)
    ensures (r + 16 * m) % 16 == r % 16
  {
  }

  /** The sampling survives the wrap of the counter exactly because 16 divides the word. */
  lemma WrapIsHarmless(word: nat)
    requires word > 0
    ensures Samples(word) <==> word % SAMPLE_EVERY == 0
  {
    if word % SAMPLE_EVERY == 0 {
      forall t: nat
        ensures (t % word) % SAMPLE_EVERY == 0 <==> t % SAMPLE_EVERY == 0
      {
        ModOfMod(t, word);
      }
    } else {
      assert (word % word) % SAMPLE_EVERY == 0 && word % SAMPLE_EVERY != 0;
    }
  }

  lemma NextDue(t: nat)
    ensures Due(t + 1) == Due(t) + (if t % 16 == 0 then 1 else 0)
    ensures t % 16 == 0 ==> t == 16 * Due(t)
  {
  }

  // ---------- every interleaving

  lemma KeepsLedger(s: State, e: Event)
    requires Ledger(s) && s.word % 16 == 0 && Enabled(s, e)
    ensures Ledger(Apply(s, e))
  {
    NextMod(s.trueSeen, s.word);
    NextMod(s.trueCaptured, s.word);
    ModOfMod(s.trueSeen, s.word);
    NextDue(s.trueSeen);
  }

  lemma {:induction false} RunKeepsLedger(s: State, es: seq<Event>)
    requires Ledger(s) && s.word % 16 == 0 && Feasible(s, es)
    ensures Ledger(Exec(s, es))
    decreases |es|
  {
    if es != [] {
      KeepsLedger(s, es[0]);
      assert Apply(s, es[0]).word == s.word;
      RunKeepsLedger(Apply(s, es[0]), es[1..]);
    }
  }

  /** However the hooks interleave and however often the counters wrap: when no hook is under
      way, captures and failed pulls are one for every 16 TCP packets, rounded up. */
  lemma SamplingIsExact(s0: State, es: seq<Event>)
    requires Initial(s0) && s0.word % 16 == 0 && Feasible(s0, es)
    ensures Ledger(Exec(s0, es))
    ensures var s := Exec(s0, es); s.pulling == 0 && s.counting == 0 ==>
      s.trueCaptured + s.failed == Due(s.trueSeen)
  {
    RunKeepsLedger(s0, es);
  }

  // ---------- one hook invocation without interruption

  function WholeHook(s: State, packet: Packet, headerOk: bool): State
    requires s.word > 0
  {
    var t := Apply(s, Arrive(packet));
    if t.pulling == s.pulling then t else AfterSample(t, headerOk)
  }

  function AfterSample(s: State, headerOk: bool): State
    requires s.word > 0 && s.pulling > 0
  {
    var t := Apply(s, Pull(headerOk));
    if headerOk then Apply(t, Count) else t
  }

  /** It leaves nothing under way, and adds one capture or one failed pull exactly if the packet
      is a TCP packet whose true number is a multiple of 16. */
  lemma WholeHookCounts(s: State, packet: Packet, headerOk: bool)
    requires Ledger(s) && s.word % 16 == 0
    ensures var t := WholeHook(s, packet, headerOk);
      var sample := packet.Tcp? && s.trueSeen % SAMPLE_EVERY == 0;
      && t.pulling == s.pulling && t.counting == s.counting
      && t.trueSeen == s.trueSeen + (if packet.Tcp? then 1 else 0)
      && t.trueCaptured == s.trueCaptured + (if sample && headerOk then 1 else 0)
      && t.failed == s.failed + (if sample && !headerOk then 1 else 0)
  {
    ModOfMod(s.trueSeen, s.word);
  }

  // ---------- the two counters, updated in place

  class Hook {
    var gs_seen_count: nat
    var gs_captured_count: nat
    const word: nat
    ghost var pulling: nat
    ghost var counting: nat
    ghost var trueSeen: nat
    ghost var trueCaptured: nat
    ghost var failed: nat
    ghost var sampled: seq<nat>

    ghost function View(): State
      reads this
    {
      State(word, gs_seen_count, gs_captured_count, trueSeen, trueCaptured, failed,
            pulling, counting, sampled)
    }

    ghost predicate Valid()
      reads this
    {
      Ledger(View()) && word % 16 == 0
    }

    constructor (word: nat)
      requires word > 0 && word % 16 == 0
      ensures Initial(View()) && Valid() && this.word == word
    {
      this.word := word;
      gs_seen_count, gs_captured_count := 0, 0;
      pulling, counting, trueSeen, trueCaptured, failed, sampled := 0, 0, 0, 0, 0, [];
    }

    /** Up to the sampling test; `go` tells whether this packet is a sample. */
    method Arrive(packet: Packet) returns (go: bool, n: nat)
      requires Valid()
      modifies this
      ensures View() == Apply(old(View()), Event.Arrive(packet)) && Valid()
      ensures go <==> packet.Tcp? && old(trueSeen) % SAMPLE_EVERY == 0
      ensures packet.Tcp? ==> n == old(gs_seen_count)
      ensures pulling == old(pulling) + (if go then 1 else 0)
    {
      KeepsLedger(View(), Event.Arrive(packet));
      go, n := false, 0;
      if packet.Tcp? {
        ModOfMod(trueSeen, word);
        n := gs_seen_count;
        gs_seen_count := (gs_seen_count + 1) % word;
        if n % SAMPLE_EVERY == 0 {
          go := true;
          pulling := pulling + 1;
          sampled := sampled + [trueSeen];
        }
        trueSeen := trueSeen + 1;
      }
    }

    method Pull(ok: bool)
      requires Valid() && pulling > 0
      modifies this
      ensures View() == Apply(old(View()), Event.Pull(ok)) && Valid()
    {
      KeepsLedger(View(), Event.Pull(ok));
      pulling := pulling - 1;
      if ok {
        counting := counting + 1;
      } else {
        failed := failed + 1;
      }
    }

    method Count()
      requires Valid() && counting > 0
      modifies this
      ensures View() == Apply(old(View()), Event.Count) && Valid()
    {
      KeepsLedger(View(), Event.Count);
      counting := counting - 1;
      gs_captured_count := (gs_captured_count + 1) % word;
      trueCaptured := trueCaptured + 1;
    }

    /** From the header pull on. */
    method Sample(headerOk: bool)
      requires Valid() && pulling > 0
      modifies this
      ensures Valid() && View() == AfterSample(old(View()), headerOk)
    {
      Pull(headerOk);
      if headerOk {
        Count();
      }
    }

    /** net_rx_softirq_hook run without interruption; it accepts every packet. */
    method Run(packet: Packet, headerOk: bool) returns (verdict: Verdict)
      requires Valid()
      modifies this
      ensures Valid() && verdict == Accept
      ensures View() == WholeHook(old(View()), packet, headerOk)
    {
      var go, _ := Arrive(packet);
      if go {
        Sample(headerOk);
      }
      verdict := Accept;
    }
  }
}
