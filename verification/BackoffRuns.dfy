/** Timer attempts of one device are spaced by its backoff. */
module BackoffRuns {
  import opened Common
  import opened Config
  import opened Lifecycle
  import opened LifecycleInvariant
  import opened LifecycleRuns

  predicate IsTimed(e: Event) { !e.Disable? && !e.Remove? && !e.Encode? }

  function Began(e: Event): int
    requires IsTimed(e)
  {
    match e
    case Stop(now) => now
    case Start(_, o) => o.now
    case Restart(_, o, _) => o.now
    case Tick(_, now, _) => now
    case Die(_, _, _, now) => now
  }

  function Ended(e: Event): int
    requires IsTimed(e)
  {
    match e
    case Tick(_, _, o) => o.now
    case _ => Began(e)
  }

  /** The clock never runs backwards. */
  ghost predicate Timed(run: seq<Event>) {
    forall i, j | 0 <= i <= j < |run| && IsTimed(run[i]) && IsTimed(run[j]) :: Began(run[i]) <= Ended(run[j])
  }

  /** A deadline pending in r was there before, or was set at the given instant one delay ahead. */
  predicate SetAt(before: Option<Retry>, r: Dev, at: int) {
    r.retry.Some? && Pending(r.retry.value) ==>
      || r.retry == before
      || r.retry.value.next == Some(at + BackoffDelay(r.retry.value.attempts))
  }

  lemma ScheduledBy(d: Dev, e: Event)
    requires Inv(d) && Allowed(d, e)
    ensures if IsTimed(e) then SetAt(d.retry, Step(d, e), Ended(e))
            else Step(d, e).retry.None? || Step(d, e).retry == d.retry
  {
    hide SetAt, StartDevice, RestartFaulted, TickDevice, DieDevice;
    match e
    case Start(dev, o) => ScheduledByStart(d, dev, o);
    case Restart(dev, o, reset) => ScheduledByRestart(d, dev, o, reset);
    case Tick(dev, now, o) => ScheduledByTick(d, dev, now, o);
    case Die(err, faultPath, missing, now) => ScheduledByDeath(d, err, faultPath, missing, now);
    case Stop(_) => StopKeepsRetry(d, e.now);
    case _ =>
  }

  lemma StopKeepsRetry(d: Dev, now: int)
    ensures SetAt(d.retry, StopDevice(d, now), now)
  {}

  lemma ScheduledByStart(d: Dev, dev: Device, o: Opening)
    ensures SetAt(d.retry, StartDevice(d, dev, o), o.now)
  {
    hide OpenAndStart, BackoffAt;
  }

  lemma ScheduledByAttempt(d: Dev, dev: Device, o: Opening, before: Option<Retry>)
    requires d.retry.Some?
    ensures SetAt(before, AttemptRetry(d, dev, o), o.now)
  {
    hide OpenAndStart, BackoffAt;
  }

  lemma ScheduledByRestart(d: Dev, dev: Device, o: Opening, reset: bool)
    ensures SetAt(d.retry, RestartFaulted(d, dev, o, reset), o.now)
  {
    hide OpenAndStart, BackoffAt, AttemptRetry;
    ScheduledByAttempt(RestartState(d, reset), dev, o, d.retry);
  }

  lemma ScheduledByTick(d: Dev, dev: Device, now: int, o: Opening)
    requires Inv(d)
    ensures SetAt(d.retry, TickDevice(d, dev, now, o), o.now)
  {
    hide BackoffAt, AttemptRetry;
    if Attempts(d, now) { ScheduledByAttempt(d.(retry := Some(d.retry.value.(next := None))), dev, o, d.retry); }
  }

  lemma ScheduledByDeath(d: Dev, err: PumpError, faultPath: Option<string>, missing: bool, now: int)
    ensures SetAt(d.retry, DieDevice(d, err, faultPath, missing, now), now)
  {
    hide BackoffAt, Bury, Blame;
  }

  lemma AttemptConsumes(d: Dev, e: Event)
    requires Inv(d) && e.Tick? && Allowed(d, e) && Attempts(d, e.now)
    ensures Step(d, e).retry != d.retry
  {
    hide AttemptRetry;
  }

  lemma {:induction false} PendingSince(run: seq<Event>, n: nat) returns (m: nat)
    requires IsRun(run) && n <= |run| && After(run, n).retry.Some? && Pending(After(run, n).retry.value)
    ensures m < n && IsTimed(run[m])
    ensures var st := After(run, n).retry.value; st.next == Some(Ended(run[m]) + BackoffDelay(st.attempts))
    ensures forall j | m < j <= n :: After(run, j).retry == After(run, n).retry
  {
    hide Step, Allowed, Inv;
    if n == 0 { assert false; }
    OneStep(run, n - 1);
    ScheduledBy(After(run, n - 1), run[n - 1]);
    if After(run, n).retry == After(run, n - 1).retry {
      m := PendingSince(run, n - 1);
    } else {
      m := n - 1;
    }
  }

  /** Two timer attempts of a device are at least the current backoff delay apart. */
  lemma {:induction false} AttemptsAreSpaced(run: seq<Event>, a: nat, b: nat)
    requires IsRun(run) && Timed(run) && a < b < |run|
    requires run[a].Tick? && Attempts(After(run, a), run[a].now)
    requires run[b].Tick? && Attempts(After(run, b), run[b].now)
    ensures run[b].now >= run[a].now + BackoffDelay(After(run, b).retry.value.attempts)
  {
    hide Step, Allowed, Replay;
    OneStep(run, a);
    OneStep(run, b);
    AttemptConsumes(After(run, a), run[a]);
    var m := PendingSince(run, b);
    var before, after := After(run, a).retry, After(run, a + 1).retry;
    assert Began(run[a]) <= Ended(run[m]);
  }

  /** The operations that start the delays over: a save, a failure with no retry in flight, and a death that
      comes ten minutes or more after the last recovery. */
  predicate StartsOver(d: Dev, e: Event) {
    match e
    case Start(_, _) => true
    case Restart(_, _, reset) => reset || d.retry.None?
    case Die(_, _, _, now) =>
      d.retry.None? || (d.retry.value.recoveredAt.Some? && now - d.retry.value.recoveredAt.value >= RETRY_RESET_AFTER)
    case _ => false
  }

  /** The operation is a death, or an open that failed. */
  predicate Fails(d: Dev, e: Event) {
    Step(d, e).IsDown() && (e.Die? || e.Start? || e.Restart? || (e.Tick? && Attempts(d, e.now)))
  }

  /** r counts one attempt more than before, or than none when the delays start over, exactly for a failure. */
  predicate Counted(before: Option<Retry>, over: bool, fails: bool, r: Dev) {
    r.retry.Some? ==>
      r.retry.value.attempts == (if over || before.None? then 0 else before.value.attempts) + if fails then 1 else 0
  }

  /** Every failure moves the backoff one delay on, or to the first when it starts over, and nothing else moves it. */
  lemma FailureAdvances(d: Dev, e: Event)
    requires Inv(d) && Allowed(d, e)
    ensures Counted(d.retry, StartsOver(d, e), Fails(d, e), Step(d, e))
  {
    hide BackoffAt, StartDevice, RestartFaulted, TickDevice, DieDevice;
    match e
    case Start(dev, o) => CountedByStart(d, dev, o);
    case Restart(dev, o, reset) => CountedByRestart(d, dev, o, reset);
    case Tick(dev, now, o) => CountedByTick(d, dev, now, o);
    case Die(err, faultPath, missing, now) => CountedByDeath(d, err, faultPath, missing, now);
    case Stop(now) =>
    case _ =>
  }

  lemma CountedByStart(d: Dev, dev: Device, o: Opening)
    ensures Counted(d.retry, true, StartDevice(d, dev, o).IsDown(), StartDevice(d, dev, o))
  {
    hide OpenAndStart, BackoffAt;
  }

  lemma CountedByRestart(d: Dev, dev: Device, o: Opening, reset: bool)
    requires Inv(d) && d.IsDown()
    ensures var r := RestartFaulted(d, dev, o, reset); Counted(d.retry, reset || d.retry.None?, r.IsDown(), r)
  {
    hide OpenAndStart, BackoffAt, AttemptRetry;
    var d0 := if reset then d.(retry := None) else d;
    RefusedIsDown(d0, dev, o);
    CountedByAttempt(RestartState(d, reset), dev, o);
  }

  lemma RefusedIsDown(d: Dev, dev: Device, o: Opening)
    ensures o.refusal.Some? ==> OpenAndStart(d, dev, o).IsDown()
  {
    hide CheckGeometry, OpenFrom, MarkDown;
  }

  lemma CountedByAttempt(d: Dev, dev: Device, o: Opening)
    requires d.retry.Some? && d.retry.value.recoveredAt.None?
    ensures var r := AttemptRetry(d, dev, o); Counted(d.retry, false, r.IsDown(), r) && (r.IsDown() || r.IsServing())
  {
    hide OpenAndStart, BackoffAt;
  }

  lemma CountedByTick(d: Dev, dev: Device, now: int, o: Opening)
    requires Inv(d)
    ensures var r := TickDevice(d, dev, now, o); Counted(d.retry, false, r.IsDown() && Attempts(d, now), r)
  {
    hide BackoffAt, AttemptRetry;
    if Attempts(d, now) { CountedByAttempt(d.(retry := Some(d.retry.value.(next := None))), dev, o); }
  }

  lemma CountedByDeath(d: Dev, err: PumpError, faultPath: Option<string>, missing: bool, now: int)
    requires Inv(d) && d.IsLive()
    ensures Counted(d.retry, StartsOver(d, Die(err, faultPath, missing, now)), true,
                    DieDevice(d, err, faultPath, missing, now))
  {
    hide BackoffAt, Bury, Blame;
  }

  /** The delays grow from five seconds to five minutes. */
  lemma BackoffGrows(attempts: int)
    ensures BackoffDelay(1) == 5 * SECOND && BackoffDelay(2) == 10 * SECOND && BackoffDelay(3) == 30 * SECOND
    ensures BackoffDelay(4) == MINUTE && BackoffDelay(5) == 2 * MINUTE && BackoffDelay(6) == 5 * MINUTE
    ensures 5 * SECOND <= BackoffDelay(attempts) <= BackoffDelay(attempts + 1) <= 5 * MINUTE
    ensures attempts >= 6 ==> BackoffDelay(attempts) == 5 * MINUTE
  {}
}
