/** What holds at every point of every run of operations on one device. */
module LifecycleRuns {
  import opened Notify
  import opened Lifecycle
  import opened LifecycleInvariant

  ghost function After(run: seq<Event>, n: nat): Dev
    requires n <= |run|
  {
    Replay(run[..n])
  }

  lemma StartsBlank(run: seq<Event>)
    ensures After(run, 0) == BLANK
  {}

  lemma OneStep(run: seq<Event>, n: nat)
    requires IsRun(run) && n < |run|
    ensures After(run, n + 1) == Step(After(run, n), run[n])
    ensures Allowed(After(run, n), run[n])
    ensures Inv(After(run, n)) && Inv(After(run, n + 1))
  {
    assert run[..n + 1][..n] == run[..n];
    PrefixIsRun(run, n);
    RunKeepsInv(run[..n]);
    PrefixIsRun(run, n + 1);
    RunKeepsInv(run[..n + 1]);
  }

  // ----- every reachable state -----

  function One(b: bool): int { if b then 1 else 0 }

  /** A retry state is in exactly one mode, pending on a down record and in the others on a serving one;
      down devices have their condition active, absent and disabled ones have none, and a serving device
      has one iff its restart has yet to settle. */
  lemma EveryPointOfARun(run: seq<Event>)
    requires IsRun(run)
    ensures var d := Replay(run);
            && (d.retry.Some? ==>
                  var st := d.retry.value;
                  && One(Pending(st)) + One(Settling(st)) + One(Waiting(st)) + One(Recovered(st)) == 1
                  && (Pending(st) <==> d.IsDown())
                  && (!Pending(st) <==> d.IsServing()))
            && (d.IsDown() ==> Active(d.notes))
            && (d.IsServing() ==> (Active(d.notes) <==> d.Retrying()))
            && (d.rt.None? || d.rt.value.status.Disabled? ==> !Active(d.notes) && !Active(d.geoNotes))
            && (Active(d.notes) <==> d.down.Some?)
  {
    RunKeepsInv(run);
  }

  /** The two guards a due deadline checks never fail: a settle is due only on a serving record, and an
      attempt only on a down one. */
  lemma DefensiveGuardsHold(run: seq<Event>, now: int)
    requires IsRun(run) && Replay(run).retry.Some?
    ensures var d := Replay(run);
            var st := d.retry.value;
            && (st.awaitEncode || st.settleAt.Some? ==> d.IsServing())
            && (st.next.Some? && st.next.value <= now ==> d.IsDown() && Attempts(d, now))
  {
    RunKeepsInv(run);
  }

  /** A timer attempt: this tick consumes a due deadline and opens the device. */
  predicate Attempts(d: Dev, now: int) {
    && d.retry.Some? && d.IsDown() && !d.retry.value.awaitEncode
    && !(d.retry.value.settleAt.Some? && d.retry.value.settleAt.value <= now)
    && d.retry.value.next.Some? && d.retry.value.next.value <= now
  }

  /** The same runtime serves from point m up to point n. */
  ghost predicate ServesThrough(run: seq<Event>, m: nat, n: nat)
    requires m <= n <= |run|
  {
    && After(run, n).IsLive()
    && forall j | m <= j <= n :: After(run, j).IsLive() && After(run, j).rt.value.gen == After(run, n).rt.value.gen
  }
}
