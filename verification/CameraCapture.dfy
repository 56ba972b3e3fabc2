/** CameraCapture's recycler and H264Encoder's submit as the source has them: the deque and the flag
    that the methods change in place. Where every request is, is ghost state that each method keeps in
    step; what other threads do in between is in CameraLeases.dfy. */
module CameraCaptures {
  import opened Basics
  import opened LatestFrameQueues
  import opened CameraLeases

  class CameraCapture {
    var requests: seq<nat>
    var stopping: bool
    var outstanding: nat
    ghost var pool: Pool
    ghost var held: set<nat>

    /** Every request is in exactly one place, those that wait are the ones in the deque, and the counter
        counts those under a lease. */
    ghost predicate Valid()
      reads this
    {
      pool.recycler == requests && pool.stopping == stopping && AllPlaced(pool, held) && outstanding == |held|
    }

    constructor ()
      ensures Valid() && requests == [] && !stopping && held == {} && pool.next == 0 && pool.popped.None?
    {
      requests, stopping, outstanding := [], false, 0;
      pool, held := Pool(0, {}, None, {}, {}, {}, [], None, {}, {}, false), {};
      new;
      forall r: nat ensures Placed(pool, held, r) {
      }
    }

    /** The ghost side of a step of the pool. */
    ghost method Track(total: nat, step: PoolStep)
      requires AllPlaced(pool, held)
      modifies this`pool
      ensures pool == PoolNext(old(pool), total, false, step) && AllPlaced(pool, held)
    {
      PoolKeepsPlaces(pool, held, total, false, step);
      pool := PoolNext(pool, total, false, step);
    }

    /** start()'s loop: each request is queued in turn, and the first refusal stops the capture. */
    method QueueAll(total: nat, accepted: seq<bool>) returns (ok: bool)
      requires Valid() && !stopping && requests == [] && pool.next == 0 && |accepted| == total
      modifies this
      ensures Valid() && held == old(held) && pool.popped == old(pool.popped)
      ensures ok <==> forall i | 0 <= i < total :: accepted[i]
      ensures ok ==> !stopping && requests == [] && pool.next == total
      ensures ok ==> forall r: nat | r < total :: r in pool.queued
      ensures !ok ==> stopping && requests == [] && pool.next > 0 && pool.next - 1 in pool.failed
    {
      var i := 0;
      while i < total
        invariant 0 <= i <= total && Valid() && !stopping && requests == [] && held == old(held)
        invariant pool.next == i && pool.popped == old(pool.popped)
        invariant forall j | 0 <= j < i :: accepted[j]
        invariant forall r: nat | r < i :: r in pool.queued
      {
        Track(total, QueueInitial(accepted[i]));
        if !accepted[i] {
          stopping := true;
          return false;
        }
        i := i + 1;
      }
      ok := true;
    }

    /** onRequestCompleted: a finished request comes under a lease, which is counted; a failed one goes to the
        end of the deque; a cancelled one, or any once the capture is stopping, is left alone. */
    method OnRequestCompleted(r: nat, status: Status) returns (leased: bool)
      requires Valid() && r in pool.queued
      modifies this
      ensures Valid() && stopping == old(stopping) && pool.popped == old(pool.popped) && r !in pool.queued
      ensures leased <==> status.RequestComplete? && !stopping
      ensures held == if leased then old(held) + {r} else old(held)
      ensures outstanding == old(outstanding) + if leased then 1 else 0
      ensures requests == if status.RequestErrored? && !stopping then old(requests) + [r] else old(requests)
      ensures r !in old(held) && r !in old(requests)
      ensures status.RequestCancelled? || stopping ==> r in pool.dropped
    {
      CompletionPlaces(pool, held, r);
      leased := false;
      if status.RequestCancelled? || stopping {
        pool := pool.(queued := pool.queued - {r}, dropped := pool.dropped + {r});
        return;
      }
      if status.RequestErrored? {
        pool := pool.(queued := pool.queued - {r}, recycler := pool.recycler + [r]);
        requests := requests + [r];
        return;
      }
      pool := pool.(queued := pool.queued - {r});
      held := held + {r};
      outstanding := outstanding + 1;
      leased := true;
    }

    /** The destructor of a lease that nobody refers to any more: it is uncounted, and its request goes to the
        end of the deque, or is given up once the capture is stopping. */
    method Release(r: nat)
      requires Valid() && r in held
      modifies this
      ensures Valid() && held == old(held) - {r} && outstanding == old(outstanding) - 1
      ensures stopping == old(stopping) && pool.popped == old(pool.popped)
      ensures requests == if stopping then old(requests) else old(requests) + [r]
      ensures stopping ==> r in pool.dropped
      ensures r !in old(requests)
    {
      assert Placed(pool, held, r);
      assert r in pool.recycler <==> r in multiset(pool.recycler);
      ReleasedPlaces(pool, held, held - {r});
      pool := pool.(dying := pool.dying + (held - (held - {r})));
      held := held - {r};
      outstanding := outstanding - 1;
      UncountPlaces(pool, held, r);
      pool := pool.(dying := pool.dying - {r}, releasing := pool.releasing + {r});
      Track(0, CameraLeases.Test(r));
      if !stopping {
        Track(0, HandBack(r));
        requests := requests + [r];
      }
    }

    /** One turn of recyclerLoop once its wait has ended: it leaves when stopping; else the request that
        waited longest is queued with the camera, or lost when the camera refuses it. */
    method RecycleOne(accepted: bool) returns (got: Option<nat>)
      requires Valid() && pool.popped.None? && (stopping || requests != [])
      modifies this
      ensures Valid() && held == old(held) && stopping == old(stopping) && pool.popped.None?
      ensures got.None? <==> stopping
      ensures got.None? ==> requests == old(requests)
      ensures got.Some? ==> [got.value] + requests == old(requests) && got.value !in requests
      ensures got.Some? ==> if accepted then got.value in pool.queued else got.value in pool.failed
    {
      if stopping {
        return None;
      }
      got := Some(requests[0]);
      WaitsOnce(pool, held, requests[0]);
      assert requests == [requests[0]] + requests[1..];
      Track(0, RecyclerPop);
      requests := requests[1..];
      Track(0, Requeue(accepted));
    }

    /** The end of stop(), with the recycler thread joined: what still waits is given up. */
    method GiveUpWaiting()
      requires Valid() && stopping && pool.popped.None?
      modifies this
      ensures Valid() && held == old(held) && stopping && requests == []
      ensures forall r | r in old(requests) :: r in pool.dropped
    {
      Track(0, ClearRecycler);
      requests := [];
    }
  }

  /** A completed request changes places in one of three ways. */
  lemma CompletionPlaces(p: Pool, held: set<nat>, r: nat)
    requires AllPlaced(p, held) && r in p.queued
    ensures r !in held && r !in p.recycler
    ensures AllPlaced(p.(queued := p.queued - {r}, dropped := p.dropped + {r}), held)
    ensures AllPlaced(p.(queued := p.queued - {r}, recycler := p.recycler + [r]), held)
    ensures AllPlaced(p.(queued := p.queued - {r}), held + {r})
  {
    assert Placed(p, held, r);
    assert r in p.recycler <==> r in multiset(p.recycler);
    forall q: nat ensures Placed(p.(queued := p.queued - {r}, dropped := p.dropped + {r}), held, q) {
      assert Placed(p, held, q);
    }
    forall q: nat ensures Placed(p.(queued := p.queued - {r}, recycler := p.recycler + [r]), held, q) {
      assert Placed(p, held, q);
    }
    forall q: nat ensures Placed(p.(queued := p.queued - {r}), held + {r}, q) {
      assert Placed(p, held, q);
    }
  }

  /** From a new object: every request is queued, one is completed, leased, released and recycled, and the
      camera has all of them again. */
  method CaptureOne(total: nat, r: nat) returns (capture: CameraCapture)
    requires r < total
    ensures fresh(capture) && capture.Valid() && capture.held == {} && capture.requests == []
    ensures r in capture.pool.queued
  {
    capture := new CameraCapture();
    var ok := capture.QueueAll(total, seq(total, _ => true));
    var leased := capture.OnRequestCompleted(r, RequestComplete);
    assert leased && capture.outstanding == 1;
    capture.Release(r);
    assert capture.requests == [r];
    var got := capture.RecycleOne(true);
    assert ([got.value] + capture.requests)[0] == got.value;
  }

  /** No request waits twice. */
  lemma WaitsOnce(p: Pool, held: set<nat>, r: nat)
    requires AllPlaced(p, held) && r in p.recycler
    ensures multiset(p.recycler)[r] == 1
    ensures p.recycler[0] == r ==> r !in p.recycler[1..]
  {
    assert Placed(p, held, r);
    assert r in multiset(p.recycler);
    assert p.recycler == [p.recycler[0]] + p.recycler[1..];
    assert r in p.recycler[1..] <==> r in multiset(p.recycler[1..]);
  }

  /** H264Encoder::submit without interference: the latest slot takes the frame unless the encoder is
      off or `outstanding`, which counts that frame too, has reached the configured limit. */
  method Submit(q: LatestFrameQueue<nat>, running: bool, frame: Option<nat>, outstanding: nat, buffers: nat)
    returns (refused: bool)
    requires q.Valid()
    modifies q
    ensures q.Valid()
    ensures refused <==>
      running && frame.Some? && outstanding >= if buffers >= 4 then buffers - 2 else buffers - buffers / 2
    ensures q.View() == if running && frame.Some? && !refused then Pushed(old(q.View()), frame.value) else old(q.View())
  {
    refused := false;
    if !running || frame.None? {
      return;
    }
    var reserve := if buffers / 2 < 2 then buffers / 2 else 2;
    if outstanding >= buffers - reserve {
      return true;
    }
    var replaced := q.Push(frame.value);
  }
}
