/** Appsrc references are linear: each one taken is in exactly one variable until it is released,
    and it is released once. */
module RtspOwnership {
  import opened Basics
  import opened RtspSections
  import opened RtspSystem
  import opened RtspInvariants

  // ----- The three moves -----

  lemma OwnSame(h: Holders, h': Holders, l: Ledger)
    requires OwnInv(h, l)
    requires forall p :: Held(h', p) == Held(h, p)
    ensures OwnInv(h', l)
  {
  }

  lemma OwnTake(h: Holders, h': Holders, l: Ledger, to: Place)
    requires OwnInv(h, l)
    requires forall p, id :: id in Held(h', p) <==> id in Held(h, p) || (p == to && id == l.taken)
    ensures OwnInv(h', TakeInto(l, to))
  {
    var l' := TakeInto(l, to);
    forall p, id | id in Held(h', p) ensures id in l'.place && l'.place[id] == p {
      if id in Held(h, p) { assert id in l.place; }
    }
  }

  lemma OwnMove(h: Holders, h': Holders, l: Ledger, r: Ref, from: Place, to: Place)
    requires OwnInv(h, l) && r.id in Held(h, from) && from != to
    requires forall p, id :: id in Held(h', p) <==>
               (id in Held(h, p) && !(p == from && id == r.id)) || (p == to && id == r.id)
    ensures OwnInv(h', MoveTo(l, Some(r), to))
  {
    var l' := MoveTo(l, Some(r), to);
    assert r.id in l.place && l.place[r.id] == from;
    assert l'.place.Keys == l.place.Keys;
  }

  lemma OwnUnref(h: Holders, h': Holders, l: Ledger, id0: nat, from: Place)
    requires OwnInv(h, l) && id0 in Held(h, from)
    requires forall p, id :: id in Held(h', p) <==> id in Held(h, p) && !(p == from && id == id0)
    ensures OwnInv(h', Unref(l, id0))
  {
    HeldUnref(h, h', l.place, id0, from);
    LedgerUnref(l, id0);
  }

  lemma HeldUnref(h: Holders, h': Holders, place: map<nat, Place>, id0: nat, from: Place)
    requires HeldAs(h, place) && id0 in Held(h, from)
    requires forall p, id :: id in Held(h', p) <==> id in Held(h, p) && !(p == from && id == id0)
    ensures id0 in place && HeldAs(h', place - {id0})
  {
    assert id0 in place && place[id0] == from;
  }

  lemma LedgerUnref(l: Ledger, id: nat)
    requires LedgerInv(l) && id in l.place
    ensures LedgerInv(Unref(l, id))
  {
    var l' := Unref(l, id);
    assert forall i :: 0 <= i < |l.released| ==> l'.released[i] == l.released[i] && l.released[i] in l.released;
    assert l'.released[|l.released|] == id;
  }

  // ----- The moves the program makes -----

  /** What `h` becomes when body `t` moves on to `pc`. */
  function AtPc(h: Holders, t: nat, epoch: nat, pc: Pc): Holders {
    h.(tasks := h.tasks[t := Task(epoch, pc)])
  }

  lemma TaskMoves(h: Holders, l: Ledger, t: nat, epoch: nat, pc: Pc)
    requires OwnInv(h, l) && Locals(pc) == Held(h, InTask(t))
    ensures OwnInv(AtPc(h, t, epoch, pc), l)
  {
    OwnSame(h, AtPc(h, t, epoch, pc), l);
  }

  lemma TaskEnds(h: Holders, l: Ledger, t: nat)
    requires OwnInv(h, l) && Held(h, InTask(t)) == {}
    ensures OwnInv(h.(tasks := h.tasks - {t}), l)
  {
    OwnSame(h, h.(tasks := h.tasks - {t}), l);
  }

  lemma FieldToTask(h: Holders, l: Ledger, t: nat, epoch: nat, pc: Pc)
    requires OwnInv(h, l) && Held(h, InTask(t)) == {} && Locals(pc) == Id(h.field)
    ensures OwnInv(AtPc(h.(field := None), t, epoch, pc), MoveTo(l, h.field, InTask(t)))
  {
    var h' := AtPc(h.(field := None), t, epoch, pc);
    if h.field.None? {
      OwnSame(h, h', l);
    } else {
      assert h.field.value.id in Held(h, Field);
      OwnMove(h, h', l, h.field.value, Field, InTask(t));
    }
  }

  /** The new source goes into the field and the previous one into the locals. */
  lemma FieldSwaps(h: Holders, l: Ledger, t: nat, epoch: nat, pc: Pc, r: Ref)
    requires OwnInv(h, l) && Held(h, InTask(t)) == {r.id} && Locals(pc) == Id(h.field)
    ensures OwnInv(AtPc(h.(field := Some(r)), t, epoch, pc), MoveTo(MoveTo(l, h.field, InTask(t)), Some(r), Field))
  {
    var l1 := MoveTo(l, h.field, InTask(t));
    var l' := MoveTo(l1, Some(r), Field);
    assert r.id in Held(h, InTask(t));
    if h.field.Some? {
      assert h.field.value.id in Held(h, Field);
    }
    assert l'.place.Keys == l.place.Keys;
    SwapHolds(h, AtPc(h.(field := Some(r)), t, epoch, pc), l.place, l'.place, t, r);
  }

  /** The ledger agrees with the variables once the two references have changed places. */
  lemma SwapHolds(h: Holders, h': Holders, place: map<nat, Place>, place': map<nat, Place>, t: nat, r: Ref)
    requires HeldAs(h, place) && Swapped(h, h', place, place', t, r)
    ensures HeldAs(h', place')
  {
    AllSwapPlaces(h, h', place, place', t, r);
    forall id | id in place' ensures id in Held(h', place'[id]) {
      SwapHeld(h, h', place, place', t, r, id);
    }
  }

  lemma AllSwapPlaces(h: Holders, h': Holders, place: map<nat, Place>, place': map<nat, Place>, t: nat, r: Ref)
    requires HeldAs(h, place) && Swapped(h, h', place, place', t, r)
    ensures forall p, id :: id in Held(h', p) ==> id in place' && place'[id] == p
  {
    forall p, id | id in Held(h', p) ensures id in place' && place'[id] == p {
      SwapPlaces(h, h', place, place', t, r, p, id);
    }
  }

  ghost predicate Swapped(h: Holders, h': Holders, place: map<nat, Place>, place': map<nat, Place>, t: nat, r: Ref) {
    && place'.Keys == place.Keys && h'.field == Some(r)
    && Held(h, InTask(t)) == {r.id} && Held(h', InTask(t)) == Id(h.field)
    && (forall p :: p != Field && p != InTask(t) ==> Held(h', p) == Held(h, p))
    && (forall id :: id in place' ==>
          place'[id] == if id == r.id then Field else if id in Id(h.field) then InTask(t) else place[id])
  }

  lemma SwapPlaces(h: Holders, h': Holders, place: map<nat, Place>, place': map<nat, Place>, t: nat, r: Ref,
                   p: Place, id: nat)
    requires HeldAs(h, place) && Swapped(h, h', place, place', t, r) && id in Held(h', p)
    ensures id in place' && place'[id] == p
  {
    assert place[r.id] == InTask(t) by { assert r.id in Held(h, InTask(t)); }
    if h.field.Some? { assert h.field.value.id in Held(h, Field); }
    var was := if p == Field then InTask(t) else if p == InTask(t) then Field else p;
    assert id in Held(h, was);
  }

  lemma SwapHeld(h: Holders, h': Holders, place: map<nat, Place>, place': map<nat, Place>, t: nat, r: Ref, id: nat)
    requires HeldAs(h, place) && Swapped(h, h', place, place', t, r) && id in place'
    ensures id in Held(h', place'[id])
  {
    assert id in Held(h, place[id]);
  }

  lemma TaskTakes(h: Holders, l: Ledger, t: nat, epoch: nat, pc: Pc)
    requires OwnInv(h, l) && Held(h, InTask(t)) == {} && Locals(pc) == {l.taken}
    ensures OwnInv(AtPc(h, t, epoch, pc), TakeInto(l, InTask(t)))
  {
    OwnTake(h, AtPc(h, t, epoch, pc), l, InTask(t));
  }

  /** A body at a place where it owns one reference lets go of it and owns nothing afterwards. */
  lemma TaskReleases(h: Holders, l: Ledger, t: nat, epoch: nat, pc: Pc, id: nat)
    requires OwnInv(h, l) && Held(h, InTask(t)) == {id} && Locals(pc) == {}
    ensures OwnInv(AtPc(h, t, epoch, pc), Unref(l, id))
  {
    assert id in Held(h, InTask(t));
    OwnUnref(h, AtPc(h, t, epoch, pc), l, id, InTask(t));
  }

  lemma FieldToJob(h: Holders, l: Ledger, job: Job)
    requires OwnInv(h, l) && job.source == h.field
    ensures OwnInv(h.(field := None, jobs := h.jobs + [job]), MoveTo(l, h.field, InJob(|h.jobs|)))
  {
    var h' := h.(field := None, jobs := h.jobs + [job]);
    if h.field.None? {
      OwnSame(h, h', l);
    } else {
      assert h.field.value.id in Held(h, Field);
      OwnMove(h, h', l, h.field.value, Field, InJob(|h.jobs|));
    }
  }

  lemma JobReleases(h: Holders, l: Ledger, j: nat, job: Job)
    requires OwnInv(h, l) && j < |h.jobs| && h.jobs[j].source.Some? && job.source.None?
    ensures OwnInv(h.(jobs := h.jobs[j := job]), Unref(l, h.jobs[j].source.value.id))
  {
    assert h.jobs[j].source.value.id in Held(h, InJob(j));
    OwnUnref(h, h.(jobs := h.jobs[j := job]), l, h.jobs[j].source.value.id, InJob(j));
  }

  lemma JobKeepsSource(h: Holders, l: Ledger, j: nat, job: Job)
    requires OwnInv(h, l) && j < |h.jobs| && job.source == h.jobs[j].source
    ensures OwnInv(h.(jobs := h.jobs[j := job]), l)
  {
    OwnSame(h, h.(jobs := h.jobs[j := job]), l);
  }

  lemma FieldToStop(h: Holders, l: Ledger)
    requires OwnInv(h, l) && h.stop.None?
    ensures OwnInv(h.(field := None, stop := h.field), MoveTo(l, h.field, InStop))
  {
    var h' := h.(field := None, stop := h.field);
    if h.field.None? {
      OwnSame(h, h', l);
    } else {
      assert h.field.value.id in Held(h, Field);
      OwnMove(h, h', l, h.field.value, Field, InStop);
    }
  }

  lemma StopReleases(h: Holders, l: Ledger)
    requires OwnInv(h, l) && h.stop.Some?
    ensures OwnInv(h.(stop := None), Unref(l, h.stop.value.id))
  {
    assert h.stop.value.id in Held(h, InStop);
    OwnUnref(h, h.(stop := None), l, h.stop.value.id, InStop);
  }

  lemma FeederTakes(h: Holders, l: Ledger, r: Ref)
    requires OwnInv(h, l) && h.feeder.None? && r.id == l.taken
    ensures OwnInv(h.(feeder := Some(r)), TakeInto(l, InFeeder))
  {
    OwnTake(h, h.(feeder := Some(r)), l, InFeeder);
  }

  lemma FeederReleases(h: Holders, l: Ledger)
    requires OwnInv(h, l) && h.feeder.Some?
    ensures OwnInv(h.(feeder := None), Unref(l, h.feeder.value.id))
  {
    assert h.feeder.value.id in Held(h, InFeeder);
    OwnUnref(h, h.(feeder := None), l, h.feeder.value.id, InFeeder);
  }

  // ----- Every step -----

  ghost predicate Owns(s: System) { OwnInv(HoldersOf(s), s.ledger) && BindInv(s.tasks) }

  lemma GotoOwns(s: System, t: nat, pc: Pc, v: Server)
    requires Owns(s) && t in s.tasks && v.appsrc == s.v.appsrc && v.jobs == s.v.jobs
    requires Locals(pc) == Locals(s.tasks[t].pc) && BindResult(pc)
    ensures Owns(Goto(s, t, pc, v))
  {
    TaskMoves(HoldersOf(s), s.ledger, t, s.tasks[t].epoch, pc);
  }

  lemma ConfigureOwns(s: System, t: nat, media: nat, factory: nat)
    requires Owns(s) && t in s.tasks && s.tasks[t].pc.AtConfigure?
    ensures Owns(ApplyConfigure(s, t, media, factory))
  {
    GotoOwns(s, t, AtExit, s.v);
    FieldToTask(HoldersOf(s), s.ledger, t, s.tasks[t].epoch, AtDropPrevious(media, s.v.appsrc));
  }

  lemma AcquireOwns(s: System, t: nat, media: nat, after: After, element: Option<nat>, isAppsrc: bool)
    requires Owns(s) && t in s.tasks && s.tasks[t].pc.AtBindCall?
    ensures Owns(ApplyAcquire(s, t, media, after, element, isAppsrc))
  {
    if element.None? {
      GotoOwns(s, t, AfterBind(media, false, after), s.v);
    } else {
      var r := Ref(s.ledger.taken, element.value);
      TaskTakes(HoldersOf(s), s.ledger, t, s.tasks[t].epoch,
                if isAppsrc then AtBind(media, r, after) else AtReject(media, r, after));
    }
  }

  lemma BindOwns(s: System, t: nat, media: nat, r: Ref, after: After)
    requires Owns(s) && t in s.tasks && s.tasks[t].pc == AtBind(media, r, after)
    ensures Owns(ApplyBind(s, t, media, r, after))
  {
    if !BindAccepts(s.v, media) {
      GotoOwns(s, t, AtDropSource(media, r, false, false, None, after), s.v);
    } else if !BindChanges(s.v, r) {
      GotoOwns(s, t, AtDropSource(media, r, true, false, None, after), s.v);
    } else {
      FieldSwaps(HoldersOf(s), s.ledger, t, s.tasks[t].epoch, AtDropSource(media, r, true, true, s.v.appsrc, after), r);
    }
  }

  lemma FinishBindOwns(s: System, t: nat, media: nat, accepted: bool, after: After)
    requires Owns(s) && t in s.tasks && s.tasks[t].pc.AfterBind?
    ensures Owns(ApplyFinishBind(s, t, media, accepted, after))
  {
    GotoOwns(s, t, AtExit, s.v);
    GotoOwns(s, t, AtExit, SetupFailed(s.v, media));
    GotoOwns(s, t, AtExit, PreparedBy(s.v, media));
  }

  lemma UnpreparedOwns(s: System, t: nat, media: nat)
    requires Owns(s) && t in s.tasks && s.tasks[t].pc.AtUnprepared?
    ensures Owns(ApplyUnprepared(s, t, media))
  {
    GotoOwns(s, t, AtExit, s.v);
    FieldToTask(HoldersOf(s), s.ledger, t, s.tasks[t].epoch, AtDropRetired(s.v.appsrc));
  }

  /** Each unref releases exactly what the body owns there: the conditions of the code are right. */
  lemma UnrefsOwn(s: System, t: nat)
    requires Owns(s) && t in s.tasks
    ensures Owns(ApplyUnrefs(s, t))
  {
    var s', pc := ApplyUnrefs(s, t), s.tasks[t].pc;
    if s' != s {
      var pc' := s'.tasks[t].pc;
      if s'.ledger == s.ledger {
        TaskMoves(HoldersOf(s), s.ledger, t, s.tasks[t].epoch, pc');
      } else {
        assert BindResult(pc);
        var id :| Locals(pc) == {id} && s'.ledger == Unref(s.ledger, id);
        TaskReleases(HoldersOf(s), s.ledger, t, s.tasks[t].epoch, pc', id);
      }
    }
  }

  /** Nothing is owned where a body ends, so leaving loses nothing. */
  lemma LeaveOwns(s: System, t: nat)
    requires Owns(s) && t in s.tasks
    ensures Owns(ApplyLeave(s, t))
  {
    if s.tasks[t].pc == AtExit { TaskEnds(HoldersOf(s), s.ledger, t); }
  }

  lemma RecoverOwns(s: System, t: nat, expected: nat, memory: bool)
    requires Owns(s) && t in s.tasks && s.tasks[t].pc.AtRecover?
    ensures Owns(ApplyRecover(s, t, expected, memory))
  {
    GotoOwns(s, t, AtCatch(expected), s.v);
    GotoOwns(s, t, AtExit, s.v);
    GotoOwns(s, t, AtExit, CancelRequest(s.v, expected));
    var job := Recovering(s.v, expected).jobs[|s.v.jobs|];
    FieldToJob(HoldersOf(Goto(s, t, AtExit, s.v)), s.ledger, job);
  }

  lemma WatchOwns(s: System, t: nat, act: Act)
    requires Owns(s) && t in s.tasks && OfWatchdog(s.tasks[t].pc)
    ensures Owns(ApplyWatch(s, t, s.tasks[t].pc, act))
  {
    var pc := s.tasks[t].pc;
    match act
    case WatchFinish =>
      GotoOwns(s, t, AtExit, s.v);
      GotoOwns(s, t, if FinishReady(s.v) then AtResume else AtLook, Finished(s.v));
    case WatchResume(created) => GotoOwns(s, t, AtLook, Resumed(s.v, created));
    case WatchLook(ageUs) =>
      var target := WatchdogTarget(s.v, ageUs);
      GotoOwns(s, t, if target == 0 then AtExit else AtRecover(target), s.v);
    case WatchRecover(memory) => if pc.AtRecover? { RecoverOwns(s, t, pc.expected, memory); }
    case WatchCatch => if pc.AtCatch? { GotoOwns(s, t, AtExit, CancelRequest(s.v, pc.expected)); }
    case _ =>
  }

  lemma NotifyOwns(s: System, t: nat)
    requires Owns(s) && t in s.tasks
    ensures Owns(ApplyNotify(s, t, s.tasks[t].pc))
  {
    var pc := s.tasks[t].pc;
    if pc.AtUnprepared? { UnpreparedOwns(s, t, pc.media); }
    if pc.AtTargetNull? { GotoOwns(s, t, AtExit, TargetNull(s.v, pc.media)); }
    if pc.AtBusError? { GotoOwns(s, t, AtExit, BusError(s.v, pc.media)); }
  }

  lemma TaskOwns(s: System, t: nat, act: Act)
    requires Owns(s)
    ensures Owns(ApplyTask(s, t, act))
  {
    if t in s.tasks {
      var pc := s.tasks[t].pc;
      match act
      case Configure => if pc.AtConfigure? { ConfigureOwns(s, t, pc.media, pc.factory); }
      case Acquire(e, app) => if pc.AtBindCall? { AcquireOwns(s, t, pc.media, pc.after, e, app); }
      case Bind => if pc.AtBind? { BindOwns(s, t, pc.media, pc.source, pc.after); }
      case FinishBind => if pc.AfterBind? { FinishBindOwns(s, t, pc.media, pc.accepted, pc.after); }
      case Notify => NotifyOwns(s, t);
      case Unrefs => UnrefsOwn(s, t);
      case Leave => LeaveOwns(s, t);
      case _ => if OfWatchdog(pc) { WatchOwns(s, t, act); }
    }
  }

  lemma WorkerOwns(s: System, step: WorkStep)
    requires Owns(s)
    ensures Owns(ApplyWorker(s, step))
  {
    var w := s.v.worker;
    if w.busy.Some? && w.busy.value < |s.v.jobs| {
      var j := w.busy.value;
      if s.v.jobs[j].source.Some? {
        JobReleases(HoldersOf(s), s.ledger, j, s.v.jobs[j].(source := None));
      }
      JobKeepsSource(HoldersOf(s), s.ledger, j, s.v.jobs[j].(done := true));
    }
  }

  lemma FeederOwns(s: System, step: FeedStep)
    requires Owns(s)
    ensures Owns(ApplyFeeder(s, step))
  {
    match step
    case FeedSnapshot(unit, memory) =>
      if s.v.appsrc.Some? && s.feeder.pc == FeedIdle {
        FeederTakes(HoldersOf(s), s.ledger, Ref(s.ledger.taken, s.v.appsrc.value.element));
      }
    case FeedRelease => if s.feeder.pc.FeedDone? { FeederReleases(HoldersOf(s), s.ledger); }
    case _ =>
  }

  lemma StartOwns(s: System, step: StartStep)
    requires Owns(s) && LifeInv(s)
    ensures Owns(ApplyStart(s, step))
  {
  }

  lemma StopOwns(s: System, step: StopStep)
    requires Owns(s) && LifeInv(s)
    ensures Owns(ApplyStop(s, step))
  {
    if s.stopRef.None? { FieldToStop(HoldersOf(s), s.ledger); }
    if s.stopRef.Some? { StopReleases(HoldersOf(s), s.ledger); }
  }

  lemma EnterOwns(s: System, t: nat, epoch: nat, pc: Pc)
    requires Owns(s)
    ensures Owns(ApplyEnter(s, t, epoch, pc))
  {
    if t !in s.tasks && IsEntry(pc) { TaskMoves(HoldersOf(s), s.ledger, t, epoch, pc); }
  }
}
