/** DMA-BUF read synchronisation (src/dma_buf_sync.cpp): every session that was started is ended. */
module DmaBufSync {
  import opened Basics

  datatype Kind = Start | End

  datatype Call = Call(kind: Kind, fd: int)

  /** A call of the sync operation that was not asked for again, and its result. */
  datatype Done = Done(call: Call, result: int)

  const EINTR: int := 4
  const EAGAIN: int := 11

  predicate Retries(result: int) {
    result == EINTR || result == EAGAIN
  }

  function Calls(done: seq<Done>): (c: seq<Call>)
    ensures |c| == |done| && forall i | 0 <= i < |c| :: c[i] == done[i].call
  {
    seq(|done|, i requires 0 <= i < |done| => done[i].call)
  }

  lemma CallsAppend(a: seq<Done>, b: seq<Done>)
    ensures Calls(a + b) == Calls(a) + Calls(b)
  {
  }

  predicate AllSucceed(done: seq<Done>) {
    forall i | 0 <= i < |done| :: done[i].result == 0
  }

  /** The DMA_BUF_IOCTL_SYNC side: `script` holds the results to come, successes after it ends, so
      that any outcomes with finitely many retries can be had; `done` is what has completed. */
  class SyncDevice {
    var script: seq<int>
    var done: seq<Done>

    constructor (results: seq<int>)
      ensures script == results && done == []
    {
      script, done := results, [];
    }

    method Operation(call: Call) returns (result: int)
      modifies this
      ensures old(script) == [] ==> result == 0 && script == []
      ensures old(script) != [] ==> result == old(script)[0] && script == old(script)[1..]
      ensures done == if Retries(result) then old(done) else old(done) + [Done(call, result)]
    {
      result := 0;
      if script != [] {
        result := script[0];
        script := script[1..];
      }
      if !Retries(result) {
        done := done + [Done(call, result)];
      }
    }
  }

  // ----- Distinct file descriptors -----

  /** The values of `s` in the order they are first seen. */
  function Distinct(s: seq<int>): seq<int> {
    if s == [] then [] else
    var before, last := Distinct(s[..|s| - 1]), s[|s| - 1];
    if last in before then before else before + [last]
  }

  /** The index at which a value is first seen. */
  predicate FirstSeen(s: seq<int>, i: nat, x: int) {
    i < |s| && s[i] == x && x !in s[..i]
  }

  lemma FirstSeenLonger(s: seq<int>, t: seq<int>, i: nat, x: int)
    requires FirstSeen(s, i, x)
    ensures FirstSeen(s + t, i, x)
  {
    assert (s + t)[..i] == s[..i];
  }

  lemma {:induction false} DistinctMembers(s: seq<int>, x: int)
    ensures x in Distinct(s) <==> x in s
  {
    if s != [] {
      var n := |s| - 1;
      DistinctMembers(s[..n], x);
      assert s == s[..n] + [s[n]];
    }
  }

  /** Distinct lists every value once, in the order of its first occurrence. */
  lemma {:induction false} DistinctIsFirstSeen(s: seq<int>) returns (at: seq<nat>)
    ensures |at| == |Distinct(s)|
    ensures forall k | 0 <= k < |at| :: FirstSeen(s, at[k], Distinct(s)[k])
    ensures forall j, k | 0 <= j < k < |at| :: at[j] < at[k] && Distinct(s)[j] != Distinct(s)[k]
  {
    at := [];
    if s != [] {
      var n := |s| - 1;
      var before := s[..n];
      at := DistinctIsFirstSeen(before);
      assert s == before + [s[n]];
      forall k | 0 <= k < |at| ensures FirstSeen(s, at[k], Distinct(before)[k]) {
        FirstSeenLonger(before, [s[n]], at[k], Distinct(before)[k]);
      }
      DistinctMembers(before, s[n]);
      if s[n] !in Distinct(before) {
        at := at + [n];
      }
    }
  }

  // ----- Calls in order -----

  function Starts(fds: seq<int>): (c: seq<Call>)
    ensures |c| == |fds| && forall i | 0 <= i < |c| :: c[i] == Call(Start, fds[i])
  {
    seq(|fds|, i requires 0 <= i < |fds| => Call(Start, fds[i]))
  }

  /** One END per descriptor, the last started first. */
  function Ends(fds: seq<int>): (c: seq<Call>) {
    if fds == [] then [] else Ends(fds[1..]) + [Call(End, fds[0])]
  }

  lemma {:induction false} EndsAreReversed(fds: seq<int>, k: nat)
    ensures |Ends(fds)| == |fds|
    ensures k < |fds| ==> Ends(fds)[k] == Call(End, fds[|fds| - 1 - k])
  {
    if fds != [] {
      EndsAreReversed(fds[1..], k);
    }
  }

  /** What a whole life of the object asks of the device when `k` of the descriptors could be
      started: those STARTs, the one that failed if any, and the matching ENDs in reverse order. */
  function Session(fds: seq<int>, k: nat): seq<Call>
    requires k <= |fds|
  {
    Starts(fds[..k]) + (if k < |fds| then [Call(Start, fds[k])] else []) + Ends(fds[..k])
  }

  lemma {:induction false} EndCount(fds: seq<int>, x: int)
    ensures multiset(Ends(fds))[Call(End, x)] == multiset(fds)[x] && Call(Start, x) !in Ends(fds)
  {
    if fds != [] {
      EndCount(fds[1..], x);
      assert fds == [fds[0]] + fds[1..];
    }
  }

  lemma {:induction false} DistinctCount(s: seq<int>, x: int, k: nat)
    requires k <= |Distinct(s)|
    ensures multiset(Distinct(s)[..k])[x] == if x in Distinct(s)[..k] then 1 else 0
  {
    if k > 0 {
      DistinctCount(s, x, k - 1);
      var d := Distinct(s);
      var at := DistinctIsFirstSeen(s);
      assert d[..k] == d[..k - 1] + [d[k - 1]];
    }
  }

  /** In a session each descriptor whose START succeeded is ended exactly once, any other never. */
  lemma EndedOnce(planes: seq<int>, k: nat, x: int)
    requires k <= |Distinct(planes)|
    ensures var fds := Distinct(planes);
      multiset(Session(fds, k))[Call(End, x)] == if x in fds[..k] then 1 else 0
  {
    var fds := Distinct(planes);
    EndCount(fds[..k], x);
    DistinctCount(planes, x, k);
    assert Call(End, x) !in Starts(fds[..k]);
  }

  /** Sessions nest: the END that comes `j` places before the last closes the START that came `j` places
      after the first. */
  lemma SessionsNest(planes: seq<int>, k: nat, j: nat)
    requires j < k <= |Distinct(planes)|
    ensures var calls := Session(Distinct(planes), k);
      && |calls| > k + j && calls[j] == Call(Start, Distinct(planes)[j])
      && calls[|calls| - 1 - j] == Call(End, Distinct(planes)[j])
  {
    EndsAreReversed(Distinct(planes)[..k], k - 1 - j);
  }

  // ----- The object -----

  datatype SyncError = Unavailable | InvalidDescriptor | NoPlanes | StartFailed(fd: int, result: int)

  ghost predicate FirstFailure(done: seq<Done>, failure: Done) {
    exists i | 0 <= i < |done| :: done[i] == failure && failure.result != 0 && AllSucceed(done[..i])
  }

  /** The first `k` STARTs succeeded and the next one, if there is one, failed. */
  predicate StartsReach(done: seq<Done>, fds: seq<int>, k: nat) {
    k <= |fds| && k <= |done| && AllSucceed(done[..k]) && (k < |fds| ==> k < |done| && done[k].result != 0)
  }

  /** A whole session, by its new entries. */
  predicate IsSession(done: seq<Done>, fds: seq<int>, k: nat) {
    StartsReach(done, fds, k) && Calls(done) == Session(fds, k)
  }

  method UniqueFds(planes: seq<int>) returns (unique: Option<seq<int>>)
    ensures unique.None? <==> exists i | 0 <= i < |planes| :: planes[i] < 0
    ensures unique.Some? ==> unique.value == Distinct(planes)
  {
    var fds := [];
    for i := 0 to |planes|
      invariant fds == Distinct(planes[..i])
      invariant forall j | 0 <= j < i :: planes[j] >= 0
    {
      if planes[i] < 0 {
        return None;
      }
      assert planes[..i + 1][..i] == planes[..i];
      if planes[i] !in fds {
        fds := fds + [planes[i]];
      }
    }
    assert planes[..|planes|] == planes;
    unique := Some(fds);
  }

  /** `rest` is what is left of `script` after answers that all say to ask again: interrupted (4) or try
      again (11). */
  ghost predicate AllAskAgain(script: seq<int>, rest: seq<int>) {
    && |rest| <= |script| && rest == script[|script| - |rest|..]
    && forall i | 0 <= i < |script| - |rest| :: script[i] == 4 || script[i] == 11
  }

  /** `result` is the first answer of `script` that is neither, and `rest` is what comes after it; a script
      without one ends in success. */
  ghost predicate FirstFinal(script: seq<int>, result: int, rest: seq<int>) {
    if exists i | 0 <= i < |script| :: script[i] != 4 && script[i] != 11 then
      |rest| < |script| && AllAskAgain(script, [result] + rest) && result != 4 && result != 11
    else result == 0 && rest == []
  }

  lemma OneMoreAnswer(script: seq<int>, rest: seq<int>, result: int)
    requires AllAskAgain(script, rest) && (rest == [] ==> result == 0) && (rest != [] ==> result == rest[0])
    ensures var left := if rest == [] then [] else rest[1..];
      if Retries(result) then AllAskAgain(script, left) else FirstFinal(script, result, left)
  {
    if rest != [] {
      assert rest[0] == script[|script| - |rest|] && [result] + rest[1..] == rest;
      assert rest[1..] == script[|script| - |rest| + 1..];
    }
  }

  class DmaBufReadSync {
    const device: SyncDevice
    var synchronizedFds: seq<int>
    var ready: bool
    var startError: Option<SyncError>

    /** `planes` are the descriptors of the view's planes; `available` says there is an operation. */
    constructor (planes: seq<int>, available: bool, sync: SyncDevice)
      modifies sync
      ensures device == sync && (ready <==> startError.None?)
      ensures old(sync.done) <= sync.done
      ensures var calls := sync.done[|old(sync.done)|..];
        var fds := Distinct(planes);
        if Refused(planes, available) then
          !ready && synchronizedFds == [] && calls == [] && !startError.value.StartFailed?
        else if ready then
          synchronizedFds == fds && AllSucceed(calls) && Calls(calls) == Starts(fds)
        else
          synchronizedFds == [] && exists k | 0 <= k < |fds| ::
          IsSession(calls, fds, k) && startError == Some(StartFailed(fds[k], calls[k].result))
    {
      device, synchronizedFds, ready, startError := sync, [], false, None;
      new;
      if !available {
        startError := Some(Unavailable);
        return;
      }
      var unique := UniqueFds(planes);
      if unique.None? {
        startError := Some(InvalidDescriptor);
        return;
      }
      if unique.value == [] {
        assert planes != [] ==> planes[0] in planes;
        DistinctMembers(planes, if planes == [] then 0 else planes[0]);
        startError := Some(NoPlanes);
        return;
      }
      StartAll(unique.value);
    }

    /** The constructor's START loop, which undoes itself when a START fails. */
    method StartAll(fds: seq<int>)
      requires synchronizedFds == [] && !ready && startError.None?
      modifies this, device
      ensures ready <==> startError.None?
      ensures old(device.done) <= device.done
      ensures var calls := device.done[|old(device.done)|..];
        if ready then synchronizedFds == fds && AllSucceed(calls) && Calls(calls) == Starts(fds)
        else synchronizedFds == [] && exists k | 0 <= k < |fds| ::
          IsSession(calls, fds, k) && startError == Some(StartFailed(fds[k], calls[k].result))
    {
      ghost var before := device.done;
      for i := 0 to |fds|
        invariant synchronizedFds == fds[..i] && !ready && startError.None? && before <= device.done
        invariant AllSucceed(device.done[|before|..])
        invariant Calls(device.done[|before|..]) == Starts(fds[..i])
      {
        ghost var calls := device.done[|before|..];
        var result := Request(Call(Start, fds[i]));
        ghost var last := Done(Call(Start, fds[i]), result);
        CallsAppend(calls, [last]);
        assert device.done[|before|..] == calls + [last];
        if result != 0 {
          startError := Some(StartFailed(fds[i], result));
          var ignored := Finish();
          UndoneSession(calls, last, device.done[|before| + i + 1..], fds, i);
          assert device.done[|before|..] == calls + [last] + device.done[|before| + i + 1..];
          return;
        }
        assert Starts(fds[..i + 1]) == Starts(fds[..i]) + [Call(Start, fds[i])];
        synchronizedFds := synchronizedFds + [fds[i]];
      }
      assert fds[..|fds|] == fds;
      ready := true;
    }

    /** What the sessions need of it: one call more, with its result. */
    method Request(call: Call) returns (result: int)
      modifies device
      ensures device.done == old(device.done) + [Done(call, result)]
    {
      result := Synchronize(call);
    }

    /** Asks again while interrupted or told to. */
    method Synchronize(call: Call) returns (result: int)
      modifies device
      ensures !Retries(result) && device.done == old(device.done) + [Done(call, result)]
      ensures FirstFinal(old(device.script), result, device.script)
    {
      ghost var script := device.script;
      result := device.Operation(call);
      OneMoreAnswer(script, script, result);
      while Retries(result)
        invariant device.done == if Retries(result) then old(device.done) else old(device.done) + [Done(call, result)]
        invariant Retries(result) ==> AllAskAgain(script, device.script)
        invariant !Retries(result) ==> FirstFinal(script, result, device.script)
        decreases |device.script|, Retries(result)
      {
        ghost var rest := device.script;
        result := device.Operation(call);
        OneMoreAnswer(script, rest, result);
      }
    }

    method Finish() returns (error: Option<Done>)
      modifies this, device
      ensures synchronizedFds == [] && !ready && startError == old(startError)
      ensures old(device.done) <= device.done
      ensures var ends := device.done[|old(device.done)|..];
        && Calls(ends) == Ends(old(synchronizedFds))
        && (error.None? <==> AllSucceed(ends))
        && (error.Some? ==> FirstFailure(ends, error.value))
    {
      ghost var before := device.done;
      var fds := synchronizedFds;
      error := None;
      var i := |fds|;
      while i > 0
        invariant 0 <= i <= |fds| && before <= device.done && startError == old(startError)
        invariant Calls(device.done[|before|..]) == Ends(fds[i..])
        invariant error.None? <==> AllSucceed(device.done[|before|..])
        invariant error.Some? ==> FirstFailure(device.done[|before|..], error.value)
      {
        i := i - 1;
        ghost var ends := device.done[|before|..];
        var result := Request(Call(End, fds[i]));
        ghost var last := Done(Call(End, fds[i]), result);
        assert device.done[|before|..] == ends + [last];
        OneMoreEnd(ends, last, error);
        assert fds[i..][1..] == fds[i + 1..];
        if result != 0 && error.None? {
          error := Some(Done(Call(End, fds[i]), result));
        }
      }
      assert fds[0..] == fds;
      synchronizedFds := [];
      ready := false;
    }
  }

  lemma OneMoreEnd(ends: seq<Done>, last: Done, error: Option<Done>)
    requires error.None? <==> AllSucceed(ends)
    requires error.Some? ==> FirstFailure(ends, error.value)
    ensures Calls(ends + [last]) == Calls(ends) + [last.call]
    ensures AllSucceed(ends + [last]) <==> error.None? && last.result == 0
    ensures error.Some? ==> FirstFailure(ends + [last], error.value)
    ensures error.None? && last.result != 0 ==> FirstFailure(ends + [last], last)
  {
    CallsAppend(ends, [last]);
    if error.Some? {
      var i :| 0 <= i < |ends| && ends[i] == error.value && error.value.result != 0 && AllSucceed(ends[..i]);
      assert (ends + [last])[i] == error.value && (ends + [last])[..i] == ends[..i];
    } else {
      assert (ends + [last])[|ends|] == last && (ends + [last])[..|ends|] == ends;
    }
  }

  lemma UndoneSession(starts: seq<Done>, failed: Done, ends: seq<Done>, fds: seq<int>, k: nat)
    requires k < |fds| && AllSucceed(starts) && Calls(starts) == Starts(fds[..k])
    requires failed.call == Call(Start, fds[k]) && failed.result != 0 && Calls(ends) == Ends(fds[..k])
    ensures IsSession(starts + [failed] + ends, fds, k)
  {
    var all := starts + [failed] + ends;
    CallsAppend(starts + [failed], ends);
    CallsAppend(starts, [failed]);
    assert Calls(all) == Session(fds, k);
    assert |starts| == k && all[..k] == starts && all[k] == failed;
  }

  lemma WholeSession(fds: seq<int>)
    ensures Session(fds, |fds|) == Starts(fds) + Ends(fds)
  {
    assert fds[..|fds|] == fds;
    assert Starts(fds) + [] == Starts(fds);
  }

  lemma AllStarted(starts: seq<Done>, ends: seq<Done>, fds: seq<int>)
    requires AllSucceed(starts) && |starts| == |fds|
    ensures StartsReach(starts + ends, fds, |fds|)
  {
    assert (starts + ends)[..|fds|] == starts;
  }

  lemma FinishedSession(starts: seq<Done>, ends: seq<Done>, fds: seq<int>)
    requires AllSucceed(starts) && Calls(starts) == Starts(fds) && Calls(ends) == Ends(fds)
    ensures IsSession(starts + ends, fds, |fds|)
  {
    assert |starts| == |Calls(starts)| == |fds|;
    AllStarted(starts, ends, fds);
    CallsAppend(starts, ends);
    WholeSession(fds);
  }

  predicate Refused(planes: seq<int>, available: bool) {
    !available || planes == [] || exists i | 0 <= i < |planes| :: planes[i] < 0
  }

  /** What the device has seen once every session is over. */
  ghost predicate Bracketed(calls: seq<Done>, planes: seq<int>, available: bool) {
    if Refused(planes, available) then calls == []
    else exists k | 0 <= k <= |Distinct(planes)| :: IsSession(calls, Distinct(planes), k)
  }

  /** The calls so far, with `open` sessions still to end. */
  ghost predicate Underway(calls: seq<Done>, open: seq<int>, planes: seq<int>, available: bool) {
    if open == [] then Bracketed(calls, planes, available)
    else !Refused(planes, available) && open == Distinct(planes) && AllSucceed(calls) && Calls(calls) == Starts(open)
  }

  lemma EndingBrackets(calls: seq<Done>, ends: seq<Done>, open: seq<int>, planes: seq<int>, available: bool)
    requires Underway(calls, open, planes, available) && Calls(ends) == Ends(open)
    ensures Bracketed(calls + ends, planes, available)
  {
    if open == [] {
      assert ends == [];
      assert calls + ends == calls;
    } else {
      FinishedSession(calls, ends, open);
    }
  }

  method Close(sync: DmaBufReadSync, ghost before: seq<Done>, ghost planes: seq<int>, ghost available: bool)
    requires before <= sync.device.done
    requires Underway(sync.device.done[|before|..], sync.synchronizedFds, planes, available)
    modifies sync, sync.device
    ensures before <= sync.device.done && sync.synchronizedFds == []
    ensures Bracketed(sync.device.done[|before|..], planes, available)
  {
    ghost var done, open := sync.device.done, sync.synchronizedFds;
    var ignored := sync.Finish();
    EndingBrackets(done[|before|..], sync.device.done[|done|..], open, planes, available);
    assert sync.device.done[|before|..] == done[|before|..] + sync.device.done[|done|..];
  }

  /** A whole life: construct, finish or not, destroy (the destructor is another finish). Whichever of
      the three ends the sessions, each START that succeeded gets exactly one END, in reverse order. */
  method Lifetime(planes: seq<int>, available: bool, finish: bool, device: SyncDevice)
    modifies device
    ensures old(device.done) <= device.done
    ensures Bracketed(device.done[|old(device.done)|..], planes, available)
  {
    ghost var before := device.done;
    var sync := new DmaBufReadSync(planes, available, device);
    assert Underway(device.done[|before|..], sync.synchronizedFds, planes, available);
    if finish {
      Close(sync, before, planes, available);
    }
    Close(sync, before, planes, available);
  }
}
