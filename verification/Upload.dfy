/** One upload as a value: acknowledgements, loss reactions and the congestion window. */
module Upload {
  const SSTHRESH_INIT: int := 64
  const CC_TIMEOUT: int := 5

  /** The counters of a sender record; `avoiding` is its congestion-avoidance flag. */
  datatype Sender = Sender(num: nat, lastAcked: int, lastSent: int, window: int, recvd: int, ssthresh: int,
                           avoiding: bool, retransmit: int, sentTime: int, dropped: int)

  datatype Option<+T> = None | Some(value: T)

  function NewSender(num: nat): Sender {
    Sender(num, 0, 0, 1, 0, SSTHRESH_INIT, false, 0, 0, 0)
  }

  /** Increment of a signed 8-bit counter. */
  function Inc8(x: int): int {
    if x == 127 then -128 else x + 1
  }

  // ---------- acknowledgements ----------

  function GrowWindow(s: Sender): Sender {
    if !s.avoiding then s.(window := s.window + 1, avoiding := s.window + 1 > s.ssthresh)
    else if s.recvd + 1 == s.window then s.(window := s.window + 1, recvd := 0)
    else s.(recvd := s.recvd + 1)
  }

  /** An acknowledgement of everything up to packet a. */
  function Ack(s: Sender, a: int): Sender {
    GrowWindow(
      if s.lastAcked == a then s.(retransmit := Inc8(s.retransmit))
      else if s.lastAcked < a then s.(lastAcked := a, retransmit := 0, dropped := 0)
      else s)
  }

  // ---------- one pass of congestion control ----------

  predicate TimedOut(s: Sender, now: int) {
    now - s.sentTime > CC_TIMEOUT && s.sentTime != 0
  }

  function UpTo(s: Sender, start: int): int {
    if start + s.window - 1 > s.num then s.num else start + s.window - 1
  }

  /** The numbers from..to in order. */
  function Numbers(from: int, to: int): (ns: seq<int>)
    ensures from <= to + 1 ==> |ns| == to + 1 - from
    ensures forall i :: 0 <= i < |ns| ==> ns[i] == from + i
    ensures forall n :: n in ns ==> from <= n <= to
    ensures forall n :: from <= n <= to ==> n in ns
    decreases if to < from then 0 else to + 1 - from
  {
    if to < from then [] else [from] + Numbers(from + 1, to)
  }

  /** The state after the window from `start` has been queued. */
  function Sent(s: Sender, start: int, now: int): Sender {
    s.(sentTime := now, lastSent := UpTo(s, start))
  }

  function Halved(window: int): int {
    if window / 2 < 2 then 2 else window / 2
  }

  /** The reaction to a loss: the threshold halves, the window closes to one packet. */
  function Reacted(s: Sender): Sender {
    s.(avoiding := false, ssthresh := Halved(s.window), window := 1)
  }

  /** What one pass does to an upload: the surviving state if any, the packets queued, and the loss reactions. */
  datatype Outcome = Outcome(kept: Option<Sender>, queued: seq<int>, losses: nat)

  function Repeat(n: int, times: nat): (r: seq<int>)
    ensures |r| == times && forall i :: 0 <= i < times ==> r[i] == n
  {
    if times == 0 then [] else [n] + Repeat(n, times - 1)
  }

  /** How often a sender with two duplicate acknowledgements is told to resend before it is dropped. */
  function Resends(s: Sender, now: int): nat {
    var room := 5 - s.dropped - if TimedOut(s, now) then 1 else 0;
    if room < 0 then 0 else room
  }

  /** One pass over one upload in closed form.  Because the duplicate count is never cleared here, two
      duplicates always end the upload within the pass. */
  function Pass(s: Sender, now: int): Outcome {
    if s.num == s.lastAcked then Outcome(None, [], 0)
    else if s.retransmit >= 2 then
      Outcome(None, if s.lastAcked < s.num then Repeat(s.lastAcked + 1, Resends(s, now)) else [], Resends(s, now) + 1)
    else if TimedOut(s, now) then
      if s.dropped >= 5 then Outcome(None, [], 1)
      else
        var r := Reacted(s.(dropped := s.dropped + 1));
        Outcome(Some(Sent(r, s.lastAcked + 1, now)), Numbers(s.lastAcked + 1, UpTo(r, s.lastAcked + 1)), 1)
    else if s.dropped > 5 then Outcome(None, [], 0)
    else if s.lastAcked == s.lastSent then
      Outcome(Some(Sent(s, s.lastAcked + 1, now)), Numbers(s.lastAcked + 1, UpTo(s, s.lastAcked + 1)), 0)
    else Outcome(Some(s), [], 0)
  }

  // ---------- the same pass, one iteration at a time ----------

  /** Loss detection: one drop for two duplicates, one for an overdue window. */
  function Counted(s: Sender, now: int): Sender {
    s.(dropped := s.dropped + (if s.retransmit >= 2 then 1 else 0) + (if TimedOut(s, now) then 1 else 0))
  }

  predicate Lossy(s: Sender, now: int) {
    s.retransmit >= 2 || TimedOut(s, now)
  }

  function Retried(s: Sender, now: int): Sender {
    Sent(Reacted(Counted(s, now)), s.lastAcked + 1, now)
  }

  /** After a loss reaction the pass looks at the same upload again; the closed form accounts for that. */
  lemma RetryUnfolds(s: Sender, now: int)
    requires Steady(s) && s.lastAcked != s.num && Lossy(s, now) && Counted(s, now).dropped <= 5
    ensures var r := Retried(s, now);
            && Steady(r) && r.dropped > s.dropped
            && Pass(s, now).kept == Pass(r, now).kept
            && Pass(s, now).queued == Numbers(s.lastAcked + 1, UpTo(r, s.lastAcked + 1)) + Pass(r, now).queued
            && Pass(s, now).losses == 1 + Pass(r, now).losses
  {
    var r := Retried(s, now);
    assert UpTo(r, s.lastAcked + 1) == s.lastAcked + 1;
    assert Numbers(s.lastAcked + 1, s.lastAcked + 1) == [s.lastAcked + 1];
  }

  lemma DropUnfolds(s: Sender, now: int)
    requires Steady(s) && (s.lastAcked == s.num || Counted(s, now).dropped > 5)
    ensures Pass(s, now).kept == None && Pass(s, now).queued == []
  {
  }

  // ---------- what every run keeps ----------

  /** Window control, and counters as honest acknowledgements leave them. */
  ghost predicate Steady(s: Sender) {
    && s.window >= 1 && s.ssthresh >= 2 && s.recvd >= 0
    && (s.avoiding <==> s.window > s.ssthresh)
    && 0 <= s.lastAcked <= s.num && 0 <= s.dropped <= 5
    && (s.lastAcked == s.num ==> s.dropped == 0)
    && 0 <= s.lastSent <= s.num
  }

  lemma NewIsSteady(num: nat)
    ensures Steady(NewSender(num))
  {
  }

  lemma AckKeepsSteady(s: Sender, a: int)
    requires Steady(s) && a <= s.num
    ensures Steady(Ack(s, a)) && Ack(s, a).num == s.num
  {
  }

  lemma PassKeepsSteady(s: Sender, now: int)
    requires Steady(s)
    ensures Pass(s, now).kept.Some? ==> Steady(Pass(s, now).kept.value) && Pass(s, now).kept.value.num == s.num
  {
  }

  /** A survivor is unfinished, has fewer than two duplicates and at most five drops, and is not overdue. */
  lemma SurvivorIsHealthy(s: Sender, now: int)
    requires Steady(s) && Pass(s, now).kept.Some?
    ensures var k := Pass(s, now).kept.value;
            k.lastAcked < k.num && k.retransmit < 2 && k.dropped <= 5 && !TimedOut(k, now)
  {
  }

  /** An unfinished upload ends in a pass exactly when it has two duplicates, or is overdue for the sixth time
      in a row. */
  lemma DiesExactly(s: Sender, now: int)
    requires Steady(s) && s.lastAcked < s.num
    ensures Pass(s, now).kept.None? <==> s.retransmit >= 2 || (TimedOut(s, now) && s.dropped == 5)
  {
  }

  /** Every queued number names a packet of the upload; a fresh window is exactly the next `window` packets
      that exist. */
  lemma QueuedAreReal(s: Sender, now: int)
    requires Steady(s)
    ensures var o := Pass(s, now);
            && (forall n :: n in o.queued ==> s.lastAcked < n <= s.num)
            && (s.lastAcked < s.num && s.retransmit < 2 && !TimedOut(s, now) && s.lastAcked == s.lastSent ==>
                  forall n :: n in o.queued <==> (s.lastAcked < n <= s.num && n <= s.lastAcked + s.window))
  {
  }

  lemma OverdueFromSixSeconds(s: Sender, now: int)
    ensures TimedOut(s, now) <==> s.sentTime != 0 && now >= s.sentTime + 6
  {
  }

  /** The first pass sends packet 1 alone; until then an upload cannot be overdue. */
  lemma FirstPass(num: nat, now: int)
    requires num > 0
    ensures var s := NewSender(num);
            Pass(s, now) == Outcome(Some(s.(lastSent := 1, sentTime := now)), [1], 0)
            && s.lastSent == 0 && s.lastAcked == 0 && s.window == 1 && s.retransmit == 0 && s.dropped == 0
  {
    assert Numbers(1, 1) == [1];
  }

  /** What is sent and when is left alone by an acknowledgement, and one that advances forgives all drops. */
  lemma AckForgives(s: Sender, a: int)
    ensures var r := Ack(s, a);
            && r.num == s.num && r.lastSent == s.lastSent && r.sentTime == s.sentTime && r.ssthresh == s.ssthresh
            && r.dropped == if a > s.lastAcked then 0 else s.dropped
  {
  }

  /** What an overdue upload survives with: half the window it had as the threshold, at least two, slow start from
      one packet, and that packet queued. */
  lemma LossHalves(s: Sender, now: int)
    requires Steady(s) && Lossy(s, now) && Pass(s, now).kept.Some?
    ensures var o := Pass(s, now);
            var k := o.kept.value;
            && k.window == 1 && !k.avoiding && k.recvd == s.recvd
            && (if s.window >= 4 then 2 * k.ssthresh <= s.window <= 2 * k.ssthresh + 1 else k.ssthresh == 2)
            && k.dropped == s.dropped + 1 && k.retransmit == s.retransmit && k.lastAcked == s.lastAcked
            && k.lastSent == s.lastAcked + 1 && k.sentTime == now && o.queued == [s.lastAcked + 1] && o.losses == 1
  {
  }

  /** Without a loss a pass changes nothing but, when everything sent is acknowledged, what is sent next. */
  lemma NoLossNoChange(s: Sender, now: int)
    requires Steady(s) && s.lastAcked < s.num && !Lossy(s, now)
    ensures var o := Pass(s, now);
            && o.kept.Some? && o.losses == 0
            && if s.lastAcked != s.lastSent then o.kept.value == s && o.queued == []
               else
                 var to := if s.lastAcked + s.window <= s.num then s.lastAcked + s.window else s.num;
                 o.kept.value == s.(lastSent := to, sentTime := now)
                 && |o.queued| == to - s.lastAcked
                 && forall i :: 0 <= i < |o.queued| ==> o.queued[i] == s.lastAcked + 1 + i
  {
  }

  // ---------- runs of one upload ----------

  datatype Event = Acked(a: int) | Tick(now: int)

  ghost predicate Honest(num: nat, es: seq<Event>) {
    forall i :: 0 <= i < |es| && es[i].Acked? ==> es[i].a <= num
  }

  function After(s: Option<Sender>, e: Event): Option<Sender> {
    match s
    case None => None
    case Some(u) =>
      match e
      case Acked(a) => Some(Ack(u, a))
      case Tick(now) => Pass(u, now).kept
  }

  /** Loss reactions and acknowledgements that advance. */
  function Effort(s: Option<Sender>, e: Event): nat {
    match s
    case None => 0
    case Some(u) =>
      match e
      case Acked(a) => if u.lastAcked < a then 1 else 0
      case Tick(now) => Pass(u, now).losses
  }

  function AfterAll(s: Option<Sender>, es: seq<Event>): Option<Sender>
    decreases |es|
  {
    if es == [] then s else AfterAll(After(s, es[0]), es[1..])
  }

  function TotalEffort(s: Option<Sender>, es: seq<Event>): nat
    decreases |es|
  {
    if es == [] then 0 else Effort(s, es[0]) + TotalEffort(After(s, es[0]), es[1..])
  }

  /** Six per packet still to be acknowledged, less the drops in a row. */
  function Budget(s: Option<Sender>): int {
    match s
    case None => 0
    case Some(u) => 6 * (u.num - u.lastAcked) - u.dropped
  }

  ghost predicate SteadyIfAlive(s: Option<Sender>, num: nat) {
    s.Some? ==> Steady(s.value) && s.value.num == num
  }

  lemma EventSpendsBudget(s: Option<Sender>, e: Event, num: nat)
    requires SteadyIfAlive(s, num) && (e.Acked? ==> e.a <= num)
    ensures SteadyIfAlive(After(s, e), num)
    ensures Budget(s) >= 0 && Effort(s, e) + Budget(After(s, e)) <= Budget(s)
  {
    if s.Some? {
      match e
      case Acked(a) => AckKeepsSteady(s.value, a);
      case Tick(now) => PassKeepsSteady(s.value, now);
    }
  }

  lemma BudgetIsSound(s: Option<Sender>, num: nat)
    requires SteadyIfAlive(s, num)
    ensures Budget(s) >= 0
  {
  }

  lemma {:induction false} EffortWithinBudget(s: Option<Sender>, es: seq<Event>, num: nat)
    requires SteadyIfAlive(s, num) && Honest(num, es)
    ensures SteadyIfAlive(AfterAll(s, es), num)
    ensures Budget(s) >= 0 && TotalEffort(s, es) <= Budget(s)
    decreases |es|
  {
    hide Effort, After, Budget, SteadyIfAlive;
    if es == [] {
      BudgetIsSound(s, num);
    } else {
      EventSpendsBudget(s, es[0], num);
      EffortWithinBudget(After(s, es[0]), es[1..], num);
    }
  }

  /** Over any run of honest acknowledgements and passes, at any times, window control holds throughout, and an
      upload of num packets sees at most 6 * num loss reactions and advancing acknowledgements. */
  lemma BoundedEffort(num: nat, es: seq<Event>)
    requires Honest(num, es)
    ensures SteadyIfAlive(AfterAll(Some(NewSender(num)), es), num)
    ensures TotalEffort(Some(NewSender(num)), es) <= 6 * num
  {
    NewIsSteady(num);
    EffortWithinBudget(Some(NewSender(num)), es, num);
  }

  /** The main loop makes a pass before each packet it reads. */
  ghost predicate Paced(es: seq<Event>) {
    forall i :: 0 < i < |es| && es[i].Acked? ==> es[i - 1].Tick?
  }

  lemma {:induction false} AfterAllLast(s: Option<Sender>, es: seq<Event>)
    requires es != []
    ensures AfterAll(s, es) == After(AfterAll(s, es[..|es| - 1]), es[|es| - 1])
    decreases |es|
  {
    hide After;
    if |es| > 1 {
      AfterAllLast(After(s, es[0]), es[1..]);
      assert es[1..][..|es| - 2] == es[..|es| - 1][1..];
    } else {
      assert es[1..] == [];
    }
  }

  /** In the main loop the signed 8-bit counters never get near their limits. */
  lemma {:induction false} CountersStaySmall(num: nat, es: seq<Event>)
    requires Honest(num, es) && Paced(es)
    ensures var s := AfterAll(Some(NewSender(num)), es);
            s.Some? ==> 0 <= s.value.retransmit <= 2 && 0 <= s.value.dropped <= 5
    ensures var s := AfterAll(Some(NewSender(num)), es);
            es != [] && es[|es| - 1].Tick? && s.Some? ==> s.value.retransmit < 2
    decreases |es|
  {
    NewIsSteady(num);
    EffortWithinBudget(Some(NewSender(num)), es, num);
    if es != [] {
      var p := es[..|es| - 1];
      CountersStaySmall(num, p);
      EffortWithinBudget(Some(NewSender(num)), p, num);
      AfterAllLast(Some(NewSender(num)), es);
      hide AfterAll;
      if es[|es| - 1].Acked? && p != [] {
        assert p[|p| - 1] == es[|es| - 2];
      }
    }
  }

  // ---------- the counters of a run ----------

  /** The acknowledgements of a run, in order. */
  function AcksOf(es: seq<Event>): seq<int> {
    if es == [] then []
    else
      var acks := AcksOf(es[..|es| - 1]);
      match es[|es| - 1]
      case Acked(a) => acks + [a]
      case Tick(_) => acks
  }

  /** An int kept in a signed 8-bit variable. */
  function Signed8(n: int): int {
    (n + 128) % 256 - 128
  }

  /** h is the highest number acknowledged, and r how often it has been acknowledged again since it first was. */
  ghost predicate Tells(acks: seq<int>, h: int, r: int) {
    && h >= 0 && (h > 0 ==> h in acks) && (forall i :: 0 <= i < |acks| ==> acks[i] <= h)
    && r == Signed8(multiset(acks)[h] - if h > 0 then 1 else 0)
  }

  lemma Inc8Counts(n: int)
    ensures Inc8(Signed8(n)) == Signed8(n + 1)
  {
  }

  lemma NothingTold(num: nat)
    ensures Tells([], NewSender(num).lastAcked, NewSender(num).retransmit) && Signed8(0) == 0
  {
  }

  lemma OneAckTells(acks: seq<int>, a: int, s: Sender)
    requires Tells(acks, s.lastAcked, s.retransmit)
    ensures Tells(acks + [a], Ack(s, a).lastAcked, Ack(s, a).retransmit)
  {
    hide Inc8, Signed8;
    var all := acks + [a];
    if a == s.lastAcked { Inc8Counts(multiset(acks)[a] - if a > 0 then 1 else 0); }
    NothingTold(0);
    assert multiset(all) == multiset(acks) + multiset{a};
    assert all[|acks|] == a && forall i :: 0 <= i < |acks| ==> all[i] == acks[i];
    if a > s.lastAcked { assert a !in multiset(acks) by { assert a !in acks; } }
  }

  lemma PassTells(acks: seq<int>, s: Sender, now: int)
    requires Tells(acks, s.lastAcked, s.retransmit) && Pass(s, now).kept.Some?
    ensures Tells(acks, Pass(s, now).kept.value.lastAcked, Pass(s, now).kept.value.retransmit)
  {
  }

  /** In every run, whatever the acknowledgements and the passes between them: a living upload has the highest
      number acknowledged, and its duplicate count is how often that number came again, as far as 8 bits tell. */
  lemma {:induction false} DuplicatesCounted(num: nat, es: seq<Event>)
    ensures var s := AfterAll(Some(NewSender(num)), es);
            s.Some? ==> Tells(AcksOf(es), s.value.lastAcked, s.value.retransmit)
    decreases |es|
  {
    hide Tells, Pass, Ack;
    if es == [] {
      NothingTold(num);
    } else {
      var p, e := es[..|es| - 1], es[|es| - 1];
      DuplicatesCounted(num, p);
      AfterAllLast(Some(NewSender(num)), es);
      var s := AfterAll(Some(NewSender(num)), p);
      if s.Some? {
        match e
        case Acked(a) => OneAckTells(AcksOf(p), a, s.value);
        case Tick(now) => if Pass(s.value, now).kept.Some? { PassTells(AcksOf(p), s.value, now); }
      }
    }
  }

  // ---------- growth without losses ----------

  function Acks(s: Sender, acks: seq<int>): Sender {
    if acks == [] then s else Ack(Acks(s, acks[..|acks| - 1]), acks[|acks| - 1])
  }

  lemma NextTriangle(w: int)
    ensures (w + 1) * w == w * (w - 1) + 2 * w
  {
  }

  /** In congestion avoidance every full window of acknowledgements adds one, unless more acknowledgements are
      counted already than the window has packets: then it never grows again. */
  lemma {:induction false} AvoidanceGrowth(s: Sender, acks: seq<int>)
    requires s.avoiding && s.recvd >= 0
    ensures var r, n := Acks(s, acks), |acks|;
            && r.avoiding && r.ssthresh == s.ssthresh
            && if s.recvd < s.window then
                 0 <= r.recvd < r.window
                 && r.window * (r.window - 1) + 2 * r.recvd == s.window * (s.window - 1) + 2 * (s.recvd + n)
               else r.window == s.window && r.recvd == s.recvd + n
  {
    if acks != [] {
      AvoidanceGrowth(s, acks[..|acks| - 1]);
      NextTriangle(Acks(s, acks[..|acks| - 1]).window);
    }
  }

  lemma {:induction false} SlowStartGrowth(s: Sender, acks: seq<int>)
    requires !s.avoiding && s.window <= s.ssthresh && |acks| <= s.ssthresh + 1 - s.window
    ensures var r := Acks(s, acks);
            && r.window == s.window + |acks| && r.recvd == s.recvd && r.ssthresh == s.ssthresh
            && (r.avoiding <==> |acks| == s.ssthresh + 1 - s.window)
  {
    if acks != [] { SlowStartGrowth(s, acks[..|acks| - 1]); }
  }

  lemma {:induction false} AcksAppend(s: Sender, before: seq<int>, after: seq<int>)
    ensures Acks(s, before + after) == Acks(Acks(s, before), after)
  {
    if after == [] {
      assert before + after == before;
    } else {
      AcksAppend(s, before, after[..|after| - 1]);
      assert (before + after)[..|before + after| - 1] == before + after[..|after| - 1];
    }
  }

  lemma GrowthFromOne(k: Sender, acks: seq<int>)
    requires !k.avoiding && k.window == 1 && 2 <= k.ssthresh <= |acks| && k.recvd >= 0
    ensures var r, t, n := Acks(k, acks), k.ssthresh, |acks|;
            if k.recvd <= t then
              0 <= r.recvd < r.window
              && r.window * (r.window - 1) + 2 * r.recvd == (t + 1) * t + 2 * (k.recvd + n - t)
            else r.window == t + 1 && r.recvd == k.recvd + n - t
  {
    hide Acks;
    var first, rest := acks[..k.ssthresh], acks[k.ssthresh..];
    SlowStartGrowth(k, first);
    AvoidanceGrowth(Acks(k, first), rest);
    AcksAppend(k, first, rest);
    assert first + rest == acks;
  }

  /** After a loss the window grows by one per acknowledgement up to one above the threshold.  Beyond that it grows
      exactly if no more acknowledgements than the threshold had been counted before the loss, since a loss does not
      clear the count. */
  lemma GrowthAfterLoss(s: Sender, now: int, acks: seq<int>)
    requires Steady(s) && Lossy(s, now) && Pass(s, now).kept.Some?
    ensures var k, n := Pass(s, now).kept.value, |acks|;
            var r, t := Acks(k, acks), k.ssthresh;
            if n < t then r.window == 1 + n && !r.avoiding && r.recvd == s.recvd
            else if s.recvd <= t then
              0 <= r.recvd < r.window
              && r.window * (r.window - 1) + 2 * r.recvd == (t + 1) * t + 2 * (s.recvd + n - t)
            else r.window == t + 1 && r.recvd == s.recvd + n - t
  {
    hide Pass, Acks, Lossy;
    var k := Pass(s, now).kept.value;
    LossHalves(s, now);
    PassKeepsSteady(s, now);
    if |acks| < k.ssthresh { SlowStartGrowth(k, acks); } else { GrowthFromOne(k, acks); }
  }

  /** Slow start adds one per acknowledgement up to 65 packets; from there on every full
      window of acknowledgements adds one. */
  lemma {:induction false} WindowGrowth(num: nat, acks: seq<int>)
    ensures var s, n := Acks(NewSender(num), acks), |acks|;
            && s.ssthresh == SSTHRESH_INIT
            && (n < 64 ==> s.window == 1 + n && !s.avoiding && s.recvd == 0)
            && (n >= 64 ==> s.avoiding && 0 <= s.recvd < s.window && s.window >= 65
                            && s.window * (s.window - 1) + 2 * s.recvd == 2 * (2080 + (n - 64)))
  {
    if acks != [] {
      WindowGrowth(num, acks[..|acks| - 1]);
      var s := Acks(NewSender(num), acks[..|acks| - 1]);
      NextTriangle(s.window);
    }
  }

  lemma LargerTriangle(w: nat, w': nat)
    requires 0 < w < w'
    ensures w' * (w' - 1) >= w * (w - 1) + 2 * w
  {
    assert w' * (w' - 1) >= (w + 1) * w;
  }

  /** The equation leaves one window only. */
  lemma GrowthIsUnique(w: nat, r: nat, w': nat, r': nat)
    requires r < w && r' < w'
    requires w * (w - 1) + 2 * r == w' * (w' - 1) + 2 * r'
    ensures w == w' && r == r'
  {
    if w < w' {
      LargerTriangle(w, w');
    } else if w' < w {
      LargerTriangle(w', w);
    }
  }
}
