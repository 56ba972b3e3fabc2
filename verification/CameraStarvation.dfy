/** What the lease protocol guarantees over every run: no request is lost or duplicated, the counter
    is exact, and the consumers can hold every request exactly when fewer were allocated than the
    encoder's admission rule was configured for. */
module CameraStarvation {
  import opened Basics
  import opened LatestFrameQueues
  import opened CameraLeases

  lemma RequestsAreConserved(total: nat, buffers: nat, steps: seq<Step>, r: nat)
    ensures var s := Run(total, buffers, steps);
      InPool(s.pool, r) + One(r in Held(s.holders)) == One(r < s.pool.next)
  {
    EveryRunKeepsInv(total, buffers, steps);
    var s := Run(total, buffers, steps);
    assert Placed(s.pool, Held(s.holders), r);
  }

  lemma OutstandingCountsLeases(total: nat, buffers: nat, steps: seq<Step>)
    ensures var s := Run(total, buffers, steps);
      s.outstanding == |Held(s.holders) + s.pool.dying| && s.outstanding <= s.peak <= total
  {
    EveryRunKeepsInv(total, buffers, steps);
  }

  // ----- How much the consumers can hold -----

  lemma OnlySize(a: Option<nat>, b: Option<nat>)
    ensures |Only(a) + Only(b)| <= 2
  {
    SubsetSize(Only(a) + Only(b), if b.Some? then Only(a) + {b.value} else Only(a));
  }

  lemma UnionSize(a: set<nat>, b: set<nat>)
    ensures |a + b| <= |a| + |b|
  {
    assert a + b == a + (b - a);
    SubsetSize(b - a, b);
  }

  lemma HeldBound(h: Holders, buffers: nat)
    requires WithinLimit(h.callback, h.encoder, buffers) && h.callback.Outside?
    ensures |Held(h)| <= EncoderLimit(buffers) + 2
  {
    OnlySize(h.inference.slot.value, h.inference.worker);
    UnionSize(ByEncoder(h.encoder), ByInference(h.inference));
    assert Held(h) == ByEncoder(h.encoder) + ByInference(h.inference);
  }

  /** The encoder holds at most buffers - reserve - 1 leases at any time, inference at most two, and
      outside the completion callback at most buffers - 1 requests are leased. */
  lemma ConsumersLeaveOne(total: nat, buffers: nat, steps: seq<Step>)
    requires buffers >= 4
    ensures var s := Run(total, buffers, steps);
      && |ByEncoder(s.holders.encoder)| <= buffers - Reserve(buffers) - 1
      && |ByInference(s.holders.inference)| <= 2
      && (s.holders.callback.Outside? ==> |Held(s.holders)| <= buffers - 1)
  {
    EveryRunKeepsInv(total, buffers, steps);
    var s := Run(total, buffers, steps);
    OnlySize(s.holders.inference.slot.value, s.holders.inference.worker);
    if s.holders.callback.Outside? {
      HeldBound(s.holders, buffers);
    }
  }

  /** Closing a latest-frame queue empties it, and a frame that nobody else holds is on its way back. */
  lemma ClosingLetsGo(s: Capture)
    ensures var s' := Apply(s, OfConsumer(EncoderClose)); var was := s.holders.encoder.slot.value;
      && s'.holders.encoder.slot == Latest(None, true)
      && (was.Some? ==> was.value in Held(s'.holders) || was.value in s'.pool.dying)
    ensures var s' := Apply(s, OfConsumer(InferenceClose)); var was := s.holders.inference.slot.value;
      && s'.holders.inference.slot == Latest(None, true)
      && (was.Some? ==> was.value in Held(s'.holders) || was.value in s'.pool.dying)
  {
  }

  // ----- Starvation -----

  /** Every request has been handed out and is held by a consumer: the camera has none, and none
      comes back until a consumer lets go. */
  predicate Starved(s: Capture) {
    s.pool.next == s.total && s.holders.callback.Outside? && |Held(s.holders)| == s.total
  }

  /** The initial queueing, the source's own check on the number of pairs being at least four, and
      the admission limit together decide starvation: the consumers can take every request exactly
      when fewer pairs were allocated than buffer_count. */
  lemma StarvationExactly(total: nat, buffers: nat)
    requires total >= 4 && buffers >= 4
    ensures (exists steps :: Starved(Run(total, buffers, steps))) <==> total < buffers
  {
    if total < buffers {
      AllTaken(total, buffers);
    } else {
      forall steps ensures !Starved(Run(total, buffers, steps)) {
        ConsumersLeaveOne(total, buffers, steps);
        EveryRunKeepsInv(total, buffers, steps);
      }
    }
  }

  // ----- A run in which the consumers take every request -----

  ghost predicate Reaches(s: Capture, s': Capture) {
    exists steps :: RunFrom(s, steps) == s'
  }

  lemma {:induction false} RunFromAppend(s: Capture, a: seq<Step>, b: seq<Step>)
    ensures RunFrom(s, a + b) == RunFrom(RunFrom(s, a), b)
    decreases |a|
  {
    if a == [] {
      assert a + b == b;
    } else {
      assert (a + b)[0] == a[0] && (a + b)[1..] == a[1..] + b;
      RunFromAppend(Apply(s, a[0]), a[1..], b);
    }
  }

  lemma Then(s0: Capture, s: Capture, step: Step)
    requires Reaches(s0, s)
    ensures Reaches(s0, Apply(s, step))
  {
    var steps :| RunFrom(s0, steps) == s;
    RunFromAppend(s0, steps, [step]);
    assert RunFrom(s, [step]) == RunFrom(Apply(s, step), []);
  }

  /** A step of the holders after which the same leases are held. */
  lemma ThenHolders(s0: Capture, s: Capture, step: Step, h: Holders)
    requires Reaches(s0, s) && Held(h) == Held(s.holders)
    requires (step.OfCallback? && h == CallbackNext(s.holders, s.outstanding, s.buffers, step.c))
          || (step.OfConsumer? && h == ConsumerNext(s.holders, step.u))
    ensures Reaches(s0, s.(holders := h))
  {
    Then(s0, s, step);
    assert s.pool.dying + (Held(s.holders) - Held(h)) == s.pool.dying;
    assert Apply(s, step) == s.(holders := h);
  }

  function Below(n: nat): set<nat> {
    if n == 0 then {} else Below(n - 1) + {n - 1}
  }

  lemma {:induction false} BelowMembers(n: nat, r: nat)
    ensures r in Below(n) <==> r < n
  {
    if n > 0 {
      BelowMembers(n - 1, r);
    }
  }

  function Waiting(total: nat, k: nat): set<nat> {
    Below(total) - Below(k)
  }

  /** Both consumers on, requests 0..k taken: `raw` in the encoder, `slot` and `worker` in inference. */
  function TakenState(total: nat, buffers: nat, k: nat, raw: set<nat>, slot: Option<nat>, worker: Option<nat>): Capture
  {
    Capture(total, buffers, k, k,
            Pool(total, Waiting(total, k), None, {}, {}, {}, [], None, {}, {}, false),
            Holders(Outside, Encoder(true, Reopened(), None, raw), Inference(true, Latest(slot, false), worker)))
  }

  function Queueing(total: nat, buffers: nat, k: nat): Capture {
    var s := Initial(total, buffers);
    s.(pool := s.pool.(next := k, queued := Below(k)),
       holders := s.holders.(encoder := s.holders.encoder.(running := true),
                             inference := s.holders.inference.(running := true)))
  }

  lemma {:induction false} AllQueued(total: nat, buffers: nat, k: nat)
    requires k <= total
    ensures Reaches(Initial(total, buffers), Queueing(total, buffers, k))
  {
    var s := Initial(total, buffers);
    if k == 0 {
      assert RunFrom(s, []) == s;
      var h1 := s.holders.(encoder := s.holders.encoder.(running := true));
      ThenHolders(s, s, OfConsumer(EncoderRun(true)), h1);
      var h2 := h1.(inference := h1.inference.(running := true));
      ThenHolders(s, s.(holders := h1), OfConsumer(InferenceRun(true)), h2);
      assert s.(holders := h2) == Queueing(total, buffers, 0);
    } else {
      AllQueued(total, buffers, k - 1);
      Then(s, Queueing(total, buffers, k - 1), OfPool(QueueInitial(true)));
    }
  }

  /** The camera completes request k and the callback makes a lease of it. */
  lemma LeaseMade(s0: Capture, s: Capture, total: nat, k: nat)
    requires Reaches(s0, s) && k < total && s.outstanding == k == s.peak && s.holders.callback.Outside?
    requires s.pool == Pool(total, Waiting(total, k), None, {}, {}, {}, [], None, {}, {}, false)
    ensures Reaches(s0, s.(outstanding := k + 1, peak := k + 1,
                           pool := s.pool.(queued := Waiting(total, k + 1)),
                           holders := s.holders.(callback := Inside(k, ToEncoder))))
  {
    BelowMembers(total, k);
    BelowMembers(k, k);
    Then(s0, s, OfPool(Complete(k)));
    assert Waiting(total, k) - {k} == Waiting(total, k + 1);
    var s1 := s.(pool := s.pool.(queued := Waiting(total, k + 1), completing := Some(k)));
    Then(s0, s1, Examine(RequestComplete));
  }

  /** The encoder's part of a callback, up to a raw buffer; then the inference slot takes the frame. */
  lemma FrameAdmitted(s0: Capture, s: Capture, k: nat)
    requires Reaches(s0, s) && s.holders.callback == Inside(k, ToEncoder)
    requires s.holders.encoder.running && s.holders.encoder.slot == Reopened() && s.holders.encoder.input.None?
    requires s.outstanding < s.buffers - Reserve(s.buffers)
    ensures Reaches(s0, s.(holders := s.holders.(
        callback := Inside(k, ToInference), encoder := s.holders.encoder.(raw := s.holders.encoder.raw + {k}))))
  {
    var e, h := s.holders.encoder, s.holders;
    var h1 := h.(callback := Inside(k, ToAdmission));
    ThenHolders(s0, s, OfCallback(Consult), h1);
    var h2 := h.(callback := Inside(k, ToEncoderSlot));
    ThenHolders(s0, s.(holders := h1), OfCallback(Consult), h2);
    var h3 := h.(callback := Inside(k, ToInference), encoder := e.(slot := Latest(Some(k), false)));
    ThenHolders(s0, s.(holders := h2), OfCallback(Consult), h3);
    var h4 := h.(callback := Inside(k, ToInference), encoder := e.(input := Some(k)));
    ThenHolders(s0, s.(holders := h3), OfConsumer(InputPop), h4);
    var h5 := h.(callback := Inside(k, ToInference), encoder := e.(raw := e.raw + {k}));
    ThenHolders(s0, s.(holders := h4), OfConsumer(MakeRaw(true)), h5);
  }

  lemma FrameRefused(s0: Capture, s: Capture, k: nat)
    requires Reaches(s0, s) && s.holders.callback == Inside(k, ToEncoder) && s.holders.encoder.running
    requires s.outstanding >= s.buffers - Reserve(s.buffers)
    ensures Reaches(s0, s.(holders := s.holders.(callback := Inside(k, ToInference))))
  {
    var h1 := s.holders.(callback := Inside(k, ToAdmission));
    ThenHolders(s0, s, OfCallback(Consult), h1);
    ThenHolders(s0, s.(holders := h1), OfCallback(Consult), s.holders.(callback := Inside(k, ToInference)));
  }

  lemma FrameInferred(s0: Capture, s: Capture, k: nat)
    requires Reaches(s0, s) && s.holders.callback == Inside(k, ToInference)
    requires s.holders.inference.running && !s.holders.inference.slot.closed
    requires Only(s.holders.inference.slot.value) <= s.holders.encoder.raw
    ensures Reaches(s0, s.(holders := s.holders.(
        callback := Outside, inference := s.holders.inference.(slot := Latest(Some(k), false)))))
  {
    var h := s.holders;
    var h1 := h.(callback := Inside(k, ToInferenceSlot));
    ThenHolders(s0, s, OfCallback(Consult), h1);
    var h2 := h.(callback := Inside(k, Leaving), inference := h.inference.(slot := Latest(Some(k), false)));
    ThenHolders(s0, s.(holders := h1), OfCallback(Consult), h2);
    ThenHolders(s0, s.(holders := h2), OfCallback(Leave), h2.(callback := Outside));
  }

  /** One frame: inference keeps it, and the encoder too if its admission rule allows. */
  lemma FrameTaken(s0: Capture, total: nat, buffers: nat, k: nat, raw: set<nat>, slot: Option<nat>,
                   worker: Option<nat>)
    returns (raw': set<nat>)
    requires k < total && Only(slot) <= raw && Reaches(s0, TakenState(total, buffers, k, raw, slot, worker))
    ensures Reaches(s0, TakenState(total, buffers, k + 1, raw', Some(k), worker))
    ensures raw' == raw || raw' == raw + {k}
    ensures k + 1 < buffers - Reserve(buffers) ==> raw' == raw + {k}
  {
    var s := TakenState(total, buffers, k, raw, slot, worker);
    LeaseMade(s0, s, total, k);
    var s1 := s.(outstanding := k + 1, peak := k + 1, pool := s.pool.(queued := Waiting(total, k + 1)),
                 holders := s.holders.(callback := Inside(k, ToEncoder)));
    var h := s1.holders;
    if k + 1 < buffers - Reserve(buffers) {
      raw' := raw + {k};
      FrameAdmitted(s0, s1, k);
    } else {
      raw' := raw;
      FrameRefused(s0, s1, k);
    }
    FrameInferred(s0, s1.(holders := h.(callback := Inside(k, ToInference), encoder := h.encoder.(raw := raw'))), k);
  }

  lemma {:induction false} FirstFramesTaken(total: nat, buffers: nat, k: nat)
    returns (slot: Option<nat>)
    requires k + 2 <= total < buffers && buffers >= 4
    ensures Reaches(Initial(total, buffers), TakenState(total, buffers, k, Below(k), slot, None))
    ensures Only(slot) <= Below(k)
  {
    if k == 0 {
      AllQueued(total, buffers, total);
      slot := None;
      assert Waiting(total, 0) == Below(total);
      assert TakenState(total, buffers, 0, {}, None, None) == Queueing(total, buffers, total);
    } else {
      slot := FirstFramesTaken(total, buffers, k - 1);
      var raw := FrameTaken(Initial(total, buffers), total, buffers, k - 1, Below(k - 1), slot, None);
      slot := Some(k - 1);
    }
  }

  lemma AllTaken(total: nat, buffers: nat)
    requires 4 <= total < buffers
    ensures exists steps :: Starved(Run(total, buffers, steps))
  {
    var s0, n := Initial(total, buffers), total - 2;
    var slot := FirstFramesTaken(total, buffers, n);
    var raw := FrameTaken(s0, total, buffers, n, Below(n), slot, None);
    var s := TakenState(total, buffers, n + 1, raw, Some(n), None);
    ThenHolders(s0, s, OfConsumer(WorkerPop), s.holders.(inference := Inference(true, Reopened(), Some(n))));
    assert s.(holders := s.holders.(inference := Inference(true, Reopened(), Some(n))))
        == TakenState(total, buffers, n + 1, raw, None, Some(n));
    var raw' := FrameTaken(s0, total, buffers, n + 1, raw, None, Some(n));
    var last := TakenState(total, buffers, total, raw', Some(n + 1), Some(n));
    forall r <- Below(total) ensures r in Held(last.holders) {
      BelowMembers(total, r);
      BelowMembers(n, r);
    }
    AllHeld(last, total);
  }

  lemma {:induction false} BelowCount(n: nat)
    ensures |Below(n)| == n
  {
    if n > 0 {
      BelowCount(n - 1);
      BelowMembers(n - 1, n - 1);
    }
  }

  lemma AllHeld(s: Capture, total: nat)
    requires Reaches(Initial(total, s.buffers), s) && Below(total) <= Held(s.holders)
    requires s.pool.next == s.total == total && s.holders.callback.Outside?
    ensures exists steps :: Starved(Run(total, s.buffers, steps))
  {
    var steps :| RunFrom(Initial(total, s.buffers), steps) == s;
    EveryRunKeepsInv(total, s.buffers, steps);
    forall r <- Held(s.holders) ensures r < total {
      assert Placed(s.pool, Held(s.holders), r);
    }
    BelowSize(Held(s.holders), total);
    BelowCount(total);
    SubsetSize(Below(total), Held(s.holders));
    assert Starved(Run(total, s.buffers, steps));
  }

  // ----- A request nobody holds finds its way back -----

  /** The steps lease destructors and the recycler take by themselves, queueRequest succeeding. */
  predicate Homing(step: Step) {
    || step.Uncount?
    || (step.OfPool? && (step.p.Test? || step.p.HandBack? || step.p.RecyclerPop? || step.p == Requeue(true)))
  }

  /** Outside the callback, everything started, nothing failed, and at least buffer_count requests. */
  ghost predicate Steady(s: Capture) {
    && Inv(s) && s.pool.next == s.total >= s.buffers >= 4
    && !s.pool.stopping && s.pool.failed == {} == s.pool.dropped
    && s.holders.callback.Outside? && s.pool.completing.None?
  }

  /** A list of such steps, each of which does something. */
  ghost predicate HomingSchedule(s: Capture, steps: seq<Step>)
    decreases |steps|
  {
    steps == [] || (Homing(steps[0]) && Apply(s, steps[0]) != s && HomingSchedule(Apply(s, steps[0]), steps[1..]))
  }

  /** Nothing is left to do for the destructors and the recycler. */
  ghost predicate Exhausted(s: Capture) {
    forall step | Homing(step) :: Apply(s, step) == s
  }

  /** How many homing steps the requests on their way can still take. */
  function Distance(p: Pool): nat {
    5 * |p.dying| + 4 * |p.releasing| + 3 * |p.returning| + 2 * |p.recycler| + One(p.popped.Some?)
  }

  lemma Removed(a: set<nat>, b: set<nat>, r: nat)
    requires r in a
    ensures |a - {r}| == |a| - 1 && |b + {r}| <= |b| + 1
  {
  }

  lemma StepIsCloser(s: Capture, step: Step)
    requires !s.pool.stopping && Homing(step) && Apply(s, step) != s
    ensures Distance(Apply(s, step).pool) < Distance(s.pool)
  {
    var p := s.pool;
    match step
    case Uncount(r) => Removed(p.dying, p.releasing, r);
    case OfPool(h) =>
      match h
      case Test(r) => Removed(p.releasing, p.returning, r);
      case HandBack(r) => Removed(p.returning, {}, r);
      case _ =>
  }

  lemma StepStaysSteady(s: Capture, step: Step)
    requires Steady(s) && Homing(step)
    ensures Steady(Apply(s, step))
  {
    ApplyKeepsInv(s, step);
  }

  lemma FreeIsQueued(s: Capture, r: nat)
    requires Steady(s) && Exhausted(s) && InPool(s.pool, r) == 1
    ensures r in s.pool.queued
  {
    var p := s.pool;
    assert r in p.recycler <==> r in multiset(p.recycler);
    assert Apply(s, Uncount(r)) == s;
    assert r in p.dying ==> r in Leases(s);
    assert Apply(s, OfPool(CameraLeases.Test(r))) == s && Apply(s, OfPool(HandBack(r))) == s;
    RecyclerIsEmpty(s);
  }

  lemma RecyclerIsEmpty(s: Capture)
    requires !s.pool.stopping && Exhausted(s)
    ensures s.pool.recycler == [] && s.pool.popped.None?
  {
    assert Apply(s, OfPool(Requeue(true))) == s && Apply(s, OfPool(RecyclerPop)) == s;
  }

  lemma SteadyAndExhaustedIsFed(s: Capture)
    requires Steady(s) && Exhausted(s)
    ensures s.pool.queued != {}
  {
    HeldBound(s.holders, s.buffers);
    var r := NotHeld(Held(s.holders), s.total);
    assert Placed(s.pool, Held(s.holders), r);
    FreeIsQueued(s, r);
  }

  lemma NotHeld(a: set<nat>, total: nat) returns (r: nat)
    requires |a| < total
    ensures r < total && r !in a
  {
    BelowCount(total);
    if Below(total) <= a {
      SubsetSize(Below(total), a);
    }
    r :| r in Below(total) && r !in a;
    BelowMembers(total, r);
  }

  lemma {:induction false} EveryScheduleFeeds(s: Capture, homes: seq<Step>)
    requires Steady(s) && HomingSchedule(s, homes)
    ensures |homes| <= Distance(s.pool)
    ensures Steady(RunFrom(s, homes))
    ensures Exhausted(RunFrom(s, homes)) ==> RunFrom(s, homes).pool.queued != {}
    decreases |homes|
  {
    if homes == [] {
      if Exhausted(s) { SteadyAndExhaustedIsFed(s); }
    } else {
      StepIsCloser(s, homes[0]);
      StepStaysSteady(s, homes[0]);
      EveryScheduleFeeds(Apply(s, homes[0]), homes[1..]);
    }
  }

  /** With at least buffer_count pairs and no queueRequest failure the camera is never without: whatever
      order the destructors and the recycler work in, they are done after at most Distance steps, and
      then the camera has a request. No consumer has to let go of a frame for it. */
  lemma CameraIsFed(total: nat, buffers: nat, steps: seq<Step>, homes: seq<Step>)
    requires total >= buffers >= 4
    requires var s := Run(total, buffers, steps);
      && s.pool.next == total && !s.pool.stopping && s.pool.failed == {} == s.pool.dropped
      && s.holders.callback.Outside? && s.pool.completing.None? && HomingSchedule(s, homes)
    ensures var s := Run(total, buffers, steps);
      |homes| <= Distance(s.pool) && (Exhausted(RunFrom(s, homes)) ==> RunFrom(s, homes).pool.queued != {})
  {
    EveryRunKeepsInv(total, buffers, steps);
    EveryScheduleFeeds(Run(total, buffers, steps), homes);
  }
}
