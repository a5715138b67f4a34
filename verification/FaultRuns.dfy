/** An encode fault is outlived only by its proof. */
module FaultRuns {
  import opened Common
  import opened Config
  import opened Notify
  import opened Lifecycle
  import opened LifecycleInvariant
  import opened LifecycleRuns

  /** The tick that completes a settle begun when every faulted stream had encoded. */
  predicate CompletesProof(d: Dev, e: Event) {
    && e.Tick? && d.retry.Some? && !d.retry.value.awaitEncode && d.retry.value.encodeSeen
    && d.retry.value.settleAt.Some? && d.retry.value.settleAt.value <= e.now
  }

  /** The operations that end a device's encode fault. */
  predicate EndsFault(d: Dev, e: Event) {
    match e
    case Start(dev, _) => d.fault.Some? && !ParamsEqual(d.fault.value.dev, dev)
    case Disable(_, _, _) => true
    case Remove => true
    case Tick(_, _, _) => CompletesProof(d, e)
    case _ => false
  }

  /** A fault on record survives an operation unless it is one of those, and then with its condition. */
  lemma FaultKept(d: Dev, e: Event)
    requires Inv(d) && Allowed(d, e) && d.fault.Some?
    ensures Step(d, e).fault.Some? <==> !EndsFault(d, e)
    ensures Step(d, e).fault.Some? ==>
              && Active(Step(d, e).notes)
              && forall p | p in d.fault.value.paths :: p in Step(d, e).fault.value.paths
    ensures CompletesProof(d, e) ==> !Active(Step(d, e).notes)
  {
    hide AttemptRetry, RestartFaulted, DieDevice, OpenAndStart;
    StepKeepsInv(d, e);
  }

  /** At operation m, a tick, the run loop saw every one of the paths encoded on the runtime that has
      served ever since up to point n. */
  ghost predicate SeenEncoded(run: seq<Event>, m: nat, n: nat, paths: seq<string>)
    requires m < n <= |run|
  {
    && run[m].Tick? && ServesThrough(run, m, n)
    && After(run, m).rt.value.EncodedAll(paths)
  }

  lemma {:induction false} EncodeSeenHasWitness(run: seq<Event>) returns (m: nat)
    requires IsRun(run)
    requires Replay(run).IsLive() && Replay(run).retry.Some? && Replay(run).retry.value.encodeSeen
    ensures m < |run| && SeenEncoded(run, m, |run|, Replay(run).FaultedPaths())
    ensures Replay(run).retry.value.settleAt == Some(run[m].now + RETRY_SETTLE)
  {
    hide Step, Allowed, Inv, Replay;
    StartsBlank(run);
    assert run[..|run|] == run;
    if run == [] { assert false; }
    var n := |run| - 1;
    OneStep(run, n);
    var d, e := After(run, n), run[n];
    KeepsProof(d, e);
    if d.retry.Some? && d.retry.value.encodeSeen {
      PrefixIsRun(run, n);
      m := EncodeSeenHasWitness(run[..n]);
      forall j | m <= j <= n ensures After(run, j) == After(run[..n], j) {
        assert run[..n][..j] == run[..j];
      }
      assert After(run[..n], n).rt.value.gen == After(run, n + 1).rt.value.gen;
      assert SeenEncoded(run[..n], m, n, d.FaultedPaths());
      forall j | m <= j <= n + 1
        ensures After(run, j).IsLive() && After(run, j).rt.value.gen == After(run, n + 1).rt.value.gen
      {
        if j <= n { assert After(run[..n], j).IsLive(); }
      }
    } else {
      m := n;
    }
  }

  /** A live device whose proof stands after an operation either had it before, on the same runtime, or
      got it from a tick that saw every faulted stream encoded. */
  lemma KeepsProof(d: Dev, e: Event)
    requires Inv(d) && Allowed(d, e)
    requires var r := Step(d, e); r.IsLive() && r.retry.Some? && r.retry.value.encodeSeen
    ensures var r := Step(d, e);
            && d.IsLive() && r.rt.value.gen == d.rt.value.gen && r.fault == d.fault
            && (if d.retry.Some? && d.retry.value.encodeSeen
                then r.retry == d.retry
                else && e.Tick? && d.rt.value.EncodedAll(d.FaultedPaths())
                     && r.retry.value.settleAt == Some(e.now + RETRY_SETTLE))
  {
    hide AttemptRetry, OpenAndStart, DieDevice, BackoffAt, IsCardIndex;
    match e
    case Tick(_, _, _) =>
    case Restart(_, _, _) =>
    case _ =>
  }

  /** Operation k ended the fault: its proof completed, a save changed the device's parameters, or the
      device was disabled or removed. The proof is that at some earlier tick of the same runtime every
      faulted stream had encoded, and the runtime has served the settle window since. */
  ghost predicate Released(run: seq<Event>, k: nat)
    requires k < |run|
  {
    var d := After(run, k);
    match run[k]
    case Start(dev, _) => d.fault.Some? && !ParamsEqual(d.fault.value.dev, dev)
    case Disable(_, _, _) => true
    case Remove => true
    case Tick(_, now, _) =>
      exists m | 0 <= m < k :: SeenEncoded(run, m, k, d.FaultedPaths()) && run[m].now + RETRY_SETTLE <= now
    case _ => false
  }

  /** Once an encode fault is on record the device's down key stays active, and the faulted streams stay
      listed, until one of the releases. Nothing else clears it: no failed attempt, hotplug, disconnect,
      unchanged save, or encoding of another stream. */
  lemma {:induction false} FaultOutlivesAllButItsProof(run: seq<Event>, i: nat)
    requires IsRun(run) && i <= |run| && After(run, i).fault.Some?
    ensures || (exists k | i <= k < |run| :: Released(run, k))
            || (&& Replay(run).fault.Some? && Active(Replay(run).notes)
                && forall p | p in After(run, i).fault.value.paths :: p in Replay(run).fault.value.paths)
    decreases |run| - i
  {
    hide Step, Allowed, Replay;
    if i == |run| {
      assert run[..i] == run;
      RunKeepsInv(run);
    } else {
      OneStep(run, i);
      var d, e := After(run, i), run[i];
      if EndsFault(d, e) {
        ReleasedBy(run, i);
      } else {
        FaultKept(d, e);
        FaultOutlivesAllButItsProof(run, i + 1);
      }
    }
  }

  lemma ReleasedBy(run: seq<Event>, k: nat)
    requires IsRun(run) && k < |run| && After(run, k).fault.Some? && EndsFault(After(run, k), run[k])
    ensures Released(run, k)
  {
    hide Step, Replay;
    if run[k].Tick? {
      OneStep(run, k);
      PrefixIsRun(run, k);
      var m := EncodeSeenHasWitness(run[..k]);
      forall j | 0 <= j <= k ensures After(run, j) == After(run[..k], j) {
        assert run[..k][..j] == run[..j];
      }
      forall j | m <= j <= k
        ensures After(run, j).IsLive() && After(run, j).rt.value.gen == After(run, k).rt.value.gen {
        assert After(run[..k], j).IsLive();
      }
      assert SeenEncoded(run, m, k, After(run, k).FaultedPaths());
    }
  }
}
