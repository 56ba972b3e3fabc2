/** The camera's requests during one start-to-stop epoch, with every thread that can hold one: the
    completion callback, the encoder, the inference worker, lease destructors and the recycler.
    Each step is one atomic access of src/camera_capture.cpp, src/h264_encoder.cpp or
    src/inference.cpp. Requests are numbered 0..total in the order start() queues them. */
module CameraLeases {
  import opened Basics
  import opened LatestFrameQueues

  // ----- Who holds a lease -----

  datatype Phase = ToEncoder | ToAdmission | ToEncoderSlot | ToInference | ToInferenceSlot | Leaving

  /** The completion callback once it has made a lease. */
  datatype Callback = Outside | Inside(request: nat, phase: Phase)

  /** `input` is inputLoop's local; `raw` are the leases attached to GStreamer buffers. */
  datatype Encoder = Encoder(running: bool, slot: Latest<nat>, input: Option<nat>, raw: set<nat>)

  datatype Inference = Inference(running: bool, slot: Latest<nat>, worker: Option<nat>)

  datatype Holders = Holders(callback: Callback, encoder: Encoder, inference: Inference)

  function Only(o: Option<nat>): set<nat> {
    if o.Some? then {o.value} else {}
  }

  function InCallback(c: Callback): set<nat> {
    if c.Inside? then {c.request} else {}
  }

  function ByEncoder(e: Encoder): set<nat> {
    Only(e.slot.value) + Only(e.input) + e.raw
  }

  function ByInference(i: Inference): set<nat> {
    Only(i.slot.value) + Only(i.worker)
  }

  /** The requests whose lease has at least one reference. */
  function Held(h: Holders): set<nat> {
    InCallback(h.callback) + ByEncoder(h.encoder) + ByInference(h.inference)
  }

  // ----- Requests nobody holds -----

  /** `next` is start()'s loop index. `dying` leases run their destructor; after its fetch_sub a
      request is `releasing`, and once the stopping test has passed it is `returning`. */
  datatype Pool = Pool(
    next: nat, queued: set<nat>, completing: Option<nat>,
    dying: set<nat>, releasing: set<nat>, returning: set<nat>,
    recycler: seq<nat>, popped: Option<nat>, failed: set<nat>, dropped: set<nat>, stopping: bool)

  datatype Capture = Capture(total: nat, buffers: nat, outstanding: nat, peak: nat, pool: Pool, holders: Holders)

  // ----- Steps -----

  datatype Status = RequestCancelled | RequestErrored | RequestComplete

  datatype CallbackStep = Consult | Throw | Leave

  datatype ConsumerStep =
    | InputPop | MakeRaw(ok: bool) | FreeRaw(r: nat)
    | EncoderRun(on: bool) | EncoderClose | EncoderReopen
    | WorkerPop | WorkerDone | InferenceRun(on: bool) | InferenceClose

  datatype PoolStep =
    | QueueInitial(ok: bool) | Complete(r: nat)
    | Test(r: nat) | HandBack(r: nat) | RecyclerPop | Requeue(ok: bool)
    | RequestStop | ClearRecycler

  datatype Step =
    | Examine(status: Status)
    | OfCallback(c: CallbackStep)
    | OfConsumer(u: ConsumerStep)
    | OfPool(p: PoolStep)
    | Uncount(r: nat)

  function Reserve(buffers: nat): nat {
    if buffers / 2 < 2 then buffers / 2 else 2
  }

  /** One step of the callback through its two consumers: H264Encoder::submit in three accesses, then
      InferenceWorker::submit in two. An exception from a consumer ends it. */
  function CallbackNext(h: Holders, outstanding: nat, buffers: nat, c: CallbackStep): Holders {
    if h.callback.Outside? then h else
    match c
    case Throw => h.(callback := h.callback.(phase := Leaving))
    case Leave => if h.callback.phase.Leaving? then h.(callback := Outside) else h
    case Consult =>
      match h.callback.phase
      case ToEncoder => h.(callback := h.callback.(phase := if h.encoder.running then ToAdmission else ToInference))
      case ToAdmission =>
        var full := outstanding >= buffers - Reserve(buffers);
        h.(callback := h.callback.(phase := if full then ToInference else ToEncoderSlot))
      case ToEncoderSlot =>
        h.(callback := h.callback.(phase := ToInference),
           encoder := h.encoder.(slot := Pushed(h.encoder.slot, h.callback.request)))
      case ToInference => h.(callback := h.callback.(phase := if h.inference.running then ToInferenceSlot else Leaving))
      case ToInferenceSlot =>
        h.(callback := h.callback.(phase := Leaving),
           inference := h.inference.(slot := Pushed(h.inference.slot, h.callback.request)))
      case Leaving => h
  }

  function EncoderNext(e: Encoder, u: ConsumerStep): Encoder {
    match u
    case InputPop =>
      if e.input.None? && e.slot.value.Some? then e.(input := e.slot.value, slot := Taken(e.slot)) else e
    case MakeRaw(ok) =>
      if e.input.None? then e else e.(input := None, raw := if ok then e.raw + {e.input.value} else e.raw)
    case FreeRaw(r) => e.(raw := e.raw - {r})
    case EncoderRun(on) => e.(running := on)
    case EncoderClose => e.(slot := Closed())
    case EncoderReopen => e.(slot := Reopened())
    case _ => e
  }

  function InferenceNext(i: Inference, u: ConsumerStep): Inference {
    match u
    case WorkerPop =>
      if i.worker.None? && i.slot.value.Some? then i.(worker := i.slot.value, slot := Taken(i.slot)) else i
    case WorkerDone => i.(worker := None)
    case InferenceRun(on) => i.(running := on)
    case InferenceClose => i.(slot := Closed())
    case _ => i
  }

  function ConsumerNext(h: Holders, u: ConsumerStep): Holders {
    h.(encoder := EncoderNext(h.encoder, u), inference := InferenceNext(h.inference, u))
  }

  function PoolNext(p: Pool, total: nat, busy: bool, step: PoolStep): Pool {
    match step
    case QueueInitial(ok) =>
      if p.next >= total || p.stopping then p
      else if ok then p.(next := p.next + 1, queued := p.queued + {p.next})
      else p.(next := p.next + 1, failed := p.failed + {p.next}, stopping := true)
    case Complete(r) =>
      if busy || p.completing.Some? || r !in p.queued then p
      else p.(queued := p.queued - {r}, completing := Some(r))
    case Test(r) =>
      if r !in p.releasing then p
      else if p.stopping then p.(releasing := p.releasing - {r}, dropped := p.dropped + {r})
      else p.(releasing := p.releasing - {r}, returning := p.returning + {r})
    case HandBack(r) =>
      if r !in p.returning then p
      else p.(returning := p.returning - {r}, recycler := p.recycler + [r])
    case RecyclerPop =>
      if p.stopping || p.popped.Some? || p.recycler == [] then p
      else p.(popped := Some(p.recycler[0]), recycler := p.recycler[1..])
    case Requeue(ok) =>
      if p.popped.None? then p
      else if ok then p.(popped := None, queued := p.queued + {p.popped.value})
      else p.(popped := None, failed := p.failed + {p.popped.value})
    case RequestStop => p.(stopping := true)
    case ClearRecycler =>
      if !p.stopping || p.popped.Some? then p
      else p.(recycler := [], dropped := p.dropped + (set r | r in p.recycler))
  }

  /** Leases that lost their last reference start their destructor. */
  function Released(s: Capture, h: Holders): Capture {
    s.(holders := h, pool := s.pool.(dying := s.pool.dying + (Held(s.holders) - Held(h))))
  }

  /** onRequestCompleted up to its lease: a cancelled request is left alone, a failed one goes back. */
  function Examined(s: Capture, status: Status): Capture {
    if s.pool.completing.None? then s else
    var r, p := s.pool.completing.value, s.pool.(completing := None);
    if status.RequestCancelled? || p.stopping then s.(pool := p.(dropped := p.dropped + {r}))
    else if status.RequestErrored? then s.(pool := p.(returning := p.returning + {r}))
    else s.(pool := p, outstanding := s.outstanding + 1,
            peak := if s.outstanding + 1 > s.peak then s.outstanding + 1 else s.peak,
            holders := s.holders.(callback := Inside(r, ToEncoder)))
  }

  /** The release closure's fetch_sub; a dying lease is still counted, so there is one to subtract. */
  function Uncounted(s: Capture, r: nat): Capture {
    if r !in s.pool.dying || s.outstanding == 0 then s
    else s.(outstanding := s.outstanding - 1,
            pool := s.pool.(dying := s.pool.dying - {r}, releasing := s.pool.releasing + {r}))
  }

  function Apply(s: Capture, step: Step): Capture {
    match step
    case Examine(status) => if s.holders.callback.Inside? then s else Examined(s, status)
    case OfCallback(c) => Released(s, CallbackNext(s.holders, s.outstanding, s.buffers, c))
    case OfConsumer(u) => Released(s, ConsumerNext(s.holders, u))
    case OfPool(p) => s.(pool := PoolNext(s.pool, s.total, s.holders.callback.Inside?, p))
    case Uncount(r) => Uncounted(s, r)
  }

  function Initial(total: nat, buffers: nat): Capture {
    Capture(total, buffers, 0, 0,
            Pool(0, {}, None, {}, {}, {}, [], None, {}, {}, false),
            Holders(Outside, Encoder(false, Reopened(), None, {}), Inference(false, Reopened(), None)))
  }

  function RunFrom(s: Capture, steps: seq<Step>): Capture
    decreases |steps|
  {
    if steps == [] then s else RunFrom(Apply(s, steps[0]), steps[1..])
  }

  function Run(total: nat, buffers: nat, steps: seq<Step>): Capture {
    RunFrom(Initial(total, buffers), steps)
  }

  // ----- The invariant -----

  function One(b: bool): nat {
    if b then 1 else 0
  }

  /** How many places outside the leases a request is in. */
  function InPool(p: Pool, r: nat): nat {
    One(r in p.queued) + One(p.completing == Some(r)) + One(r in p.dying) + One(r in p.releasing)
    + One(r in p.returning) + multiset(p.recycler)[r] + One(p.popped == Some(r))
    + One(r in p.failed) + One(r in p.dropped)
  }

  /** A request start() has reached is in exactly one place, any other in none. */
  predicate Placed(p: Pool, held: set<nat>, r: nat) {
    InPool(p, r) + One(r in held) == One(r < p.next)
  }

  ghost predicate AllPlaced(p: Pool, held: set<nat>) {
    forall r: nat :: Placed(p, held, r)
  }

  function EncoderLimit(buffers: nat): nat {
    if buffers - Reserve(buffers) >= 1 then buffers - Reserve(buffers) - 1 else 0
  }

  predicate WithinLimit(c: Callback, e: Encoder, buffers: nat) {
    |ByEncoder(e)| <= EncoderLimit(buffers)
    && (c.Inside? && c.phase.ToEncoderSlot? ==> |ByEncoder(e) + {c.request}| <= EncoderLimit(buffers))
  }

  /** outstanding_leases counts the leases not yet uncounted by their destructor. */
  predicate Counted(outstanding: nat, peak: nat, total: nat, leases: set<nat>) {
    outstanding == |leases| && outstanding <= peak <= total
  }

  function Leases(s: Capture): set<nat> {
    Held(s.holders) + s.pool.dying
  }

  ghost predicate Inv(s: Capture) {
    s.pool.next <= s.total && AllPlaced(s.pool, Held(s.holders))
    && Counted(s.outstanding, s.peak, s.total, Leases(s))
    && WithinLimit(s.holders.callback, s.holders.encoder, s.buffers)
  }

  lemma SubsetSize(a: set<nat>, b: set<nat>)
    requires a <= b
    ensures |a| <= |b|
  {
    assert b == a + (b - a);
  }

  lemma {:induction false} BelowSize(a: set<nat>, n: nat)
    requires forall r <- a :: r < n
    ensures |a| <= n
    ensures |a| == n ==> forall r: nat | r < n :: r in a
  {
    if n > 0 {
      BelowSize(a - {n - 1}, n - 1);
    }
  }

  // ----- The requests outside the leases -----

  lemma StartPlaces(p: Pool, held: set<nat>, total: nat, busy: bool, step: PoolStep, r: nat)
    requires step.QueueInitial? || step.Complete? || step.Requeue?
    requires Placed(p, held, r) && Placed(p, held, p.next)
    ensures Placed(PoolNext(p, total, busy, step), held, r)
  {
  }

  lemma RecyclerPlaces(p: Pool, held: set<nat>, total: nat, busy: bool, step: PoolStep, r: nat)
    requires !step.QueueInitial? && !step.Complete? && !step.Requeue?
    requires Placed(p, held, r)
    ensures Placed(PoolNext(p, total, busy, step), held, r)
  {
    if step.RecyclerPop? && p.recycler != [] {
      assert p.recycler == [p.recycler[0]] + p.recycler[1..];
    }
    assert r in p.recycler <==> r in multiset(p.recycler);
  }

  lemma PoolKeepsPlaces(p: Pool, held: set<nat>, total: nat, busy: bool, step: PoolStep)
    requires AllPlaced(p, held)
    ensures AllPlaced(PoolNext(p, total, busy, step), held)
  {
    assert Placed(p, held, p.next);
    forall r: nat ensures Placed(PoolNext(p, total, busy, step), held, r) {
      assert Placed(p, held, r);
      if step.QueueInitial? || step.Complete? || step.Requeue? {
        StartPlaces(p, held, total, busy, step, r);
      } else {
        RecyclerPlaces(p, held, total, busy, step, r);
      }
    }
  }

  lemma PoolKeepsRest(p: Pool, total: nat, busy: bool, step: PoolStep)
    requires p.next <= total
    ensures PoolNext(p, total, busy, step).next <= total
    ensures PoolNext(p, total, busy, step).dying == p.dying
  {
  }

  lemma PoolKeepsInv(s: Capture, p': Pool)
    requires Inv(s) && AllPlaced(p', Held(s.holders)) && p'.next <= s.total && p'.dying == s.pool.dying
    ensures Inv(s.(pool := p'))
  {
  }

  // ----- The leases -----

  /** Letting references go moves requests from the leases to their destructors, and no further. */
  lemma ReleasedKeeps(s: Capture, h: Holders)
    requires Inv(s) && Held(h) <= Held(s.holders) && WithinLimit(h.callback, h.encoder, s.buffers)
    ensures Inv(Released(s, h))
  {
    var p' := Released(s, h).pool;
    ReleasedPlaces(s.pool, Held(s.holders), Held(h));
    assert Held(h) + p'.dying == Held(s.holders) + s.pool.dying;
  }

  lemma ReleasedPlaces(p: Pool, held: set<nat>, held': set<nat>)
    requires AllPlaced(p, held) && held' <= held
    ensures AllPlaced(p.(dying := p.dying + (held - held')), held')
  {
    var p' := p.(dying := p.dying + (held - held'));
    forall r: nat ensures Placed(p', held', r) {
      assert Placed(p, held, r);
    }
  }

  /** The admission test bounds the encoder with the frame it is offered, since all are counted. */
  lemma AdmissionWithin(c: Callback, e: Encoder, leases: set<nat>, buffers: nat)
    requires c.Inside? && ByEncoder(e) + {c.request} <= leases
    requires |ByEncoder(e)| <= EncoderLimit(buffers) && |leases| < buffers - Reserve(buffers)
    ensures WithinLimit(c.(phase := ToEncoderSlot), e, buffers)
  {
    SubsetSize(ByEncoder(e) + {c.request}, leases);
  }

  lemma OfferWithin(c: Callback, e: Encoder, buffers: nat)
    requires c.Inside? && c.phase.ToEncoderSlot? && WithinLimit(c, e, buffers)
    ensures WithinLimit(c.(phase := ToInference), e.(slot := Pushed(e.slot, c.request)), buffers)
  {
    SubsetSize(ByEncoder(e.(slot := Pushed(e.slot, c.request))), ByEncoder(e) + {c.request});
  }

  lemma OtherPhaseWithin(c: Callback, e: Encoder, buffers: nat, c': Callback)
    requires WithinLimit(c, e, buffers)
    requires c' == c || c'.Outside? || (c'.Inside? && !c'.phase.ToEncoderSlot?)
    ensures WithinLimit(c', e, buffers)
  {
  }

  lemma ConsultWithin(h: Holders, leases: set<nat>, buffers: nat)
    requires h.callback.Inside? && WithinLimit(h.callback, h.encoder, buffers) && Held(h) <= leases
    ensures var h' := CallbackNext(h, |leases|, buffers, Consult);
      WithinLimit(h'.callback, h'.encoder, buffers)
  {
    var h' := CallbackNext(h, |leases|, buffers, Consult);
    match h.callback.phase
    case ToAdmission =>
      if |leases| < buffers - Reserve(buffers) {
        AdmissionWithin(h.callback, h.encoder, leases, buffers);
      } else {
        OtherPhaseWithin(h.callback, h.encoder, buffers, h'.callback);
      }
    case ToEncoderSlot => OfferWithin(h.callback, h.encoder, buffers);
    case _ => OtherPhaseWithin(h.callback, h.encoder, buffers, h'.callback);
  }

  lemma CallbackWithin(h: Holders, leases: set<nat>, buffers: nat, c: CallbackStep)
    requires WithinLimit(h.callback, h.encoder, buffers) && Held(h) <= leases
    ensures var h' := CallbackNext(h, |leases|, buffers, c);
      WithinLimit(h'.callback, h'.encoder, buffers)
  {
    if h.callback.Inside? && c.Consult? {
      ConsultWithin(h, leases, buffers);
    } else {
      OtherPhaseWithin(h.callback, h.encoder, buffers, CallbackNext(h, |leases|, buffers, c).callback);
    }
  }

  lemma CallbackHolds(h: Holders, outstanding: nat, buffers: nat, c: CallbackStep)
    ensures Held(CallbackNext(h, outstanding, buffers, c)) <= Held(h)
  {
  }

  lemma ConsumerWithin(h: Holders, buffers: nat, u: ConsumerStep)
    requires WithinLimit(h.callback, h.encoder, buffers)
    ensures Held(ConsumerNext(h, u)) <= Held(h)
    ensures WithinLimit(h.callback, EncoderNext(h.encoder, u), buffers)
  {
    var e, e' := h.encoder, EncoderNext(h.encoder, u);
    assert ByEncoder(e') <= ByEncoder(e);
    SubsetSize(ByEncoder(e'), ByEncoder(e));
    if h.callback.Inside? {
      SubsetSize(ByEncoder(e') + {h.callback.request}, ByEncoder(e) + {h.callback.request});
    }
    assert ByInference(InferenceNext(h.inference, u)) <= ByInference(h.inference);
  }

  // ----- Making and uncounting a lease -----

  lemma ExaminePlaces(s: Capture, status: Status, r: nat)
    requires Placed(s.pool, Held(s.holders), r) && s.holders.callback.Outside? && s.pool.completing.Some?
    requires Placed(s.pool, Held(s.holders), s.pool.completing.value)
    ensures Placed(Examined(s, status).pool, Held(Examined(s, status).holders), r)
  {
  }

  lemma LeasesBelow(s: Capture, q: nat)
    requires AllPlaced(s.pool, Held(s.holders)) && q in Leases(s)
    ensures q < s.pool.next
  {
    assert Placed(s.pool, Held(s.holders), q);
  }

  lemma LeaseCounts(s: Capture, leases': set<nat>, r: nat)
    requires Inv(s) && s.pool.completing == Some(r) && leases' == Leases(s) + {r}
    ensures |leases'| == s.outstanding + 1 <= s.total
  {
    assert Placed(s.pool, Held(s.holders), r);
    assert r !in Leases(s);
    forall q <- leases' ensures q < s.total {
      if q != r {
        LeasesBelow(s, q);
      }
    }
    BelowSize(leases', s.total);
  }

  lemma ExamineCounts(s: Capture, status: Status)
    requires Inv(s) && s.holders.callback.Outside? && s.pool.completing.Some?
    ensures var s' := Examined(s, status);
      Counted(s'.outstanding, s'.peak, s'.total, Leases(s'))
  {
    var s' := Examined(s, status);
    if s'.holders == s.holders {
      assert Leases(s') == Leases(s);
    } else {
      LeaseCounts(s, Leases(s'), s.pool.completing.value);
    }
  }

  lemma ExamineKeepsPlaces(s: Capture, status: Status)
    requires AllPlaced(s.pool, Held(s.holders)) && s.holders.callback.Outside? && s.pool.completing.Some?
    ensures AllPlaced(Examined(s, status).pool, Held(Examined(s, status).holders))
  {
    assert Placed(s.pool, Held(s.holders), s.pool.completing.value);
    forall r: nat ensures Placed(Examined(s, status).pool, Held(Examined(s, status).holders), r) {
      assert Placed(s.pool, Held(s.holders), r);
      ExaminePlaces(s, status, r);
    }
  }

  lemma ExamineKeepsRest(s: Capture, status: Status)
    requires s.pool.next <= s.total && WithinLimit(s.holders.callback, s.holders.encoder, s.buffers)
    ensures var s' := Examined(s, status);
      && s'.pool.next <= s'.total
      && (s'.holders.callback == s.holders.callback || s'.holders.callback.Inside?)
      && WithinLimit(s'.holders.callback, s'.holders.encoder, s'.buffers)
  {
  }

  lemma ExamineKeepsInv(s: Capture, status: Status)
    requires Inv(s) && s.holders.callback.Outside? && s.pool.completing.Some?
    ensures Inv(Examined(s, status))
  {
    ExamineKeepsPlaces(s, status);
    ExamineCounts(s, status);
    ExamineKeepsRest(s, status);
  }

  lemma UncountPlaces(p: Pool, held: set<nat>, r: nat)
    requires AllPlaced(p, held) && r in p.dying
    ensures AllPlaced(p.(dying := p.dying - {r}, releasing := p.releasing + {r}), held) && r !in held
  {
    var p' := p.(dying := p.dying - {r}, releasing := p.releasing + {r});
    forall q: nat ensures Placed(p', held, q) {
      assert Placed(p, held, q);
    }
    assert Placed(p, held, r);
  }

  lemma UncountKeepsInv(s: Capture, r: nat)
    requires Inv(s) && r in s.pool.dying
    ensures Inv(Uncounted(s, r))
  {
    UncountPlaces(s.pool, Held(s.holders), r);
    var s' := Uncounted(s, r);
    assert r in Leases(s);
    assert Leases(s') == Leases(s) - {r};
  }

  // ----- Every run -----

  lemma CallbackKeepsInv(s: Capture, c: CallbackStep)
    requires Inv(s)
    ensures Inv(Apply(s, OfCallback(c)))
  {
    CallbackWithin(s.holders, Leases(s), s.buffers, c);
    CallbackHolds(s.holders, s.outstanding, s.buffers, c);
    ReleasedKeeps(s, CallbackNext(s.holders, s.outstanding, s.buffers, c));
  }

  lemma ConsumerKeepsInv(s: Capture, u: ConsumerStep)
    requires Inv(s)
    ensures Inv(Apply(s, OfConsumer(u)))
  {
    ConsumerWithin(s.holders, s.buffers, u);
    ReleasedKeeps(s, ConsumerNext(s.holders, u));
  }

  lemma PoolStepKeepsInv(s: Capture, step: PoolStep)
    requires Inv(s)
    ensures Inv(Apply(s, OfPool(step)))
  {
    var busy := s.holders.callback.Inside?;
    PoolKeepsPlaces(s.pool, Held(s.holders), s.total, busy, step);
    PoolKeepsRest(s.pool, s.total, busy, step);
    PoolKeepsInv(s, PoolNext(s.pool, s.total, busy, step));
  }

  lemma ExamineStepKeepsInv(s: Capture, status: Status)
    requires Inv(s)
    ensures Inv(Apply(s, Examine(status)))
  {
    if s.holders.callback.Outside? && s.pool.completing.Some? {
      ExamineKeepsInv(s, status);
    }
  }

  lemma UncountStepKeepsInv(s: Capture, r: nat)
    requires Inv(s)
    ensures Inv(Apply(s, Uncount(r)))
  {
    if r in s.pool.dying {
      UncountKeepsInv(s, r);
    }
  }

  lemma ApplyKeepsInv(s: Capture, step: Step)
    requires Inv(s)
    ensures Inv(Apply(s, step))
  {
    match step
    case Examine(status) => ExamineStepKeepsInv(s, status);
    case OfCallback(c) => CallbackKeepsInv(s, c);
    case OfConsumer(u) => ConsumerKeepsInv(s, u);
    case OfPool(p) => PoolStepKeepsInv(s, p);
    case Uncount(r) => UncountStepKeepsInv(s, r);
  }

  lemma ApplyKeepsSizes(s: Capture, step: Step)
    ensures Apply(s, step).total == s.total && Apply(s, step).buffers == s.buffers
  {
  }

  lemma {:induction false} RunFromKeepsInv(s: Capture, steps: seq<Step>)
    requires Inv(s)
    ensures Inv(RunFrom(s, steps))
    decreases |steps|
  {
    if steps != [] {
      ApplyKeepsInv(s, steps[0]);
      RunFromKeepsInv(Apply(s, steps[0]), steps[1..]);
    }
  }

  lemma {:induction false} RunFromKeepsSizes(s: Capture, steps: seq<Step>)
    ensures RunFrom(s, steps).total == s.total && RunFrom(s, steps).buffers == s.buffers
    decreases |steps|
  {
    if steps != [] {
      ApplyKeepsSizes(s, steps[0]);
      RunFromKeepsSizes(Apply(s, steps[0]), steps[1..]);
    }
  }

  lemma EveryRunKeepsInv(total: nat, buffers: nat, steps: seq<Step>)
    ensures Inv(Run(total, buffers, steps))
    ensures Run(total, buffers, steps).total == total && Run(total, buffers, steps).buffers == buffers
  {
    forall r: nat ensures Placed(Initial(total, buffers).pool, {}, r) {
    }
    RunFromKeepsInv(Initial(total, buffers), steps);
    RunFromKeepsSizes(Initial(total, buffers), steps);
  }
}
