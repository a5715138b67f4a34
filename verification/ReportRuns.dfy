/** One outage is reported once, however often it is retried and dies again. */
module ReportRuns {
  import opened Common
  import opened Config
  import opened Notify
  import opened Geometry
  import opened Lifecycle
  import opened LifecycleInvariant
  import opened LifecycleRuns
  import opened BackoffRuns

  /** The backoff's own operations, with failures it can retry: a timer pass whose open is not refused for
      another reason, a death while present, an encoded frame. */
  predicate Quiet(e: Event) {
    match e
    case Tick(_, _, o) => o.refusal.None? || Retryable(o.refusal.value)
    case Die(err, _, missing, _) => !err.gone && !missing
    case Encode(_) => true
    case _ => false
  }

  predicate ReadsAsDead(d: Dev) { d.down.Some? && SameCondition(d.down.value, Died) }

  /** A quiet operation on a device that stays down raises no fresh report, except that a restart after an
      encode fault may once re-raise the condition as the failure it now waits out. */
  lemma QuietStep(d: Dev, e: Event)
    requires Inv(d) && Allowed(d, e) && Quiet(e) && d.down.Some? && Step(d, e).down.Some?
    ensures var r := Step(d, e);
            && (ReadsAsDead(d) ==> ReadsAsDead(r))
            && (|| Onsets(r.notes) == Onsets(d.notes)
                || (Onsets(r.notes) == Onsets(d.notes) + 1 && d.fault.Some? && !ReadsAsDead(d) && ReadsAsDead(r)))
            && (d.fault.Some? ==> r.fault.Some?)
  {
    hide AttemptRetry, DieDevice;
    match e
    case Tick(dev, now, o) =>
      if Attempts(d, now) { QuietAttempt(d.(retry := Some(d.retry.value.(next := None))), dev, o); }
    case Die(err, faultPath, missing, now) => QuietDeath(d, err, faultPath, missing, now);
    case Encode(_) =>
  }

  lemma QuietDeath(d: Dev, err: PumpError, faultPath: Option<string>, missing: bool, now: int)
    requires Inv(d) && d.IsLive() && d.down.Some? && !err.gone && !missing
    ensures var r := DieDevice(d, err, faultPath, missing, now);
            Onsets(r.notes) == Onsets(d.notes) && (ReadsAsDead(d) <==> ReadsAsDead(r))
  {
    hide MarkDown, RunEnded;
    var rt, cause := d.rt.value, if err.stalled then Stalled else Died;
    QuietMark(RunEnded(d.(rt := Some(rt.(status := Failed, cause := Some(cause)))), rt, now), cause);
  }

  lemma QuietMark(d: Dev, cause: Cause)
    requires NotesOk(d) && d.down.Some? && Retryable(d.down.value) && Retryable(cause) && d.Retrying()
    ensures var r := MarkDown(d, cause);
            Onsets(r.notes) == Onsets(d.notes) && (ReadsAsDead(d) <==> ReadsAsDead(r))
  {}

  lemma QuietAttempt(d: Dev, dev: Device, o: Opening)
    requires BaseOk(d) && d.Retrying() && d.down.Some? && Retryable(d.down.value)
    requires o.refusal.None? || Retryable(o.refusal.value)
    requires d.fault.Some? ==> d.fault.value.paths != []
    ensures var r := AttemptRetry(d, dev, o);
            && (ReadsAsDead(d) ==> ReadsAsDead(r)) && r.fault == d.fault
            && (|| Onsets(r.notes) == Onsets(d.notes)
                || (Onsets(r.notes) == Onsets(d.notes) + 1 && d.fault.Some? && !ReadsAsDead(d) && ReadsAsDead(r)))
  {
    var d1 := OpenAndStart(d, dev, o);
    OpenKeepsBase(d, dev, o);
    QuietOpen(d, dev, o);
    hide OpenAndStart, MarkDown;
  }

  lemma QuietOpen(d: Dev, dev: Device, o: Opening)
    requires BaseOk(d) && d.Retrying() && d.down.Some? && Retryable(d.down.value)
    requires o.refusal.None? || Retryable(o.refusal.value)
    ensures var r := OpenAndStart(d, dev, o);
            Onsets(r.notes) == Onsets(d.notes) && (ReadsAsDead(d) <==> ReadsAsDead(r))
  {
    hide MarkDown, Descend, GeometryOpened, Refuse;
    var d1 := CheckGeometry(d, dev);
    var a := Descend(o.opens, AskedStep(d, dev), None);
    var d2 := if a.refusedAt.Some? then Refuse(d1, a.refusedAt.value) else d1;
    if o.refusal.Some? { QuietMark(d1, o.refusal.value); }
    QuietMark(d2, OpenFailed);
  }

  /** The operation that starts an outage reports it once. */
  lemma OutageBegins(d: Dev, e: Event)
    requires Inv(d) && Allowed(d, e) && d.down.None? && Step(d, e).down.Some?
    ensures Onsets(Step(d, e).notes) == Onsets(d.notes) + 1
  {
    hide Descend, GeometryOpened, Refuse, RunEnded, Blame;
  }

  /** The tick that completes a settle: the restart has served its window, and after an encode fault its streams
      had been seen encoded. */
  predicate CompletesSettle(d: Dev, e: Event) {
    && e.Tick? && d.retry.Some? && !d.retry.value.awaitEncode
    && d.retry.value.settleAt.Some? && d.retry.value.settleAt.value <= e.now
    && (d.FaultedPaths() == [] || d.retry.value.encodeSeen)
  }

  /** A quiet operation ends an outage exactly if it completes a settle. */
  lemma QuietEnds(d: Dev, e: Event)
    requires Inv(d) && Allowed(d, e) && Quiet(e) && d.down.Some?
    ensures Step(d, e).down.None? <==> CompletesSettle(d, e)
    ensures Active(Step(d, e).notes) <==> !CompletesSettle(d, e)
  {
    hide AttemptRetry, DieDevice, EncodeFrame;
    StepKeepsInv(d, e);
    match e
    case Tick(dev, now, o) =>
      if Attempts(d, now) { AttemptStaysDown(d.(retry := Some(d.retry.value.(next := None))), dev, o); }
    case Die(err, faultPath, missing, now) => DeathIsDown(d, err, faultPath, missing, now);
    case Encode(path) => EncodeKeeps(d, path);
  }

  lemma AttemptStaysDown(d: Dev, dev: Device, o: Opening)
    requires BaseOk(d) && d.down.Some?
    ensures AttemptRetry(d, dev, o).down.Some?
  {
    OpenKeepsBase(d, dev, o);
    hide OpenAndStart, BackoffAt;
  }

  lemma DeathIsDown(d: Dev, err: PumpError, faultPath: Option<string>, missing: bool, now: int)
    requires d.rt.Some?
    ensures DieDevice(d, err, faultPath, missing, now).down.Some?
  {
    hide Bury, Blame;
  }

  lemma EncodeKeeps(d: Dev, path: string)
    ensures EncodeFrame(d, path).down == d.down && EncodeFrame(d, path).notes == d.notes
  {}

  /** However many attempts, deaths and passes an outage takes, until one completes a settle its key is active at
      every point, and it has been reported once since its onset, or at most twice if a stream's encoder faulted. */
  lemma {:induction false} OneReportPerOutage(run: seq<Event>, i: nat)
    requires IsRun(run) && i < |run| && After(run, i).down.None? && After(run, i + 1).down.Some?
    requires forall k | i < k < |run| :: Quiet(run[k]) && !CompletesSettle(After(run, k), run[k])
    ensures forall k | i < k <= |run| :: After(run, k).down.Some? && Active(After(run, k).notes)
    ensures var reports := Onsets(Replay(run).notes) - Onsets(After(run, i).notes);
            || reports == 1
            || (reports == 2 && Replay(run).fault.Some? && ReadsAsDead(Replay(run)))
  {
    hide Step, Allowed, Replay, CompletesSettle;
    var n := |run| - 1;
    assert run[..|run|] == run;
    OneStep(run, n);
    if n == i {
      OutageBegins(After(run, i), run[i]);
    } else {
      PrefixIsRun(run, n);
      forall k | 0 <= k <= n ensures After(run[..n], k) == After(run, k) { assert run[..n][..k] == run[..k]; }
      assert run[..n][..n] == run[..n];
      OneReportPerOutage(run[..n], i);
      QuietEnds(After(run, n), run[n]);
      QuietStep(After(run, n), run[n]);
    }
  }

  // ----- what a recovery is -----

  /** A settle window under way after an operation was under way before it, on the same runtime, or was opened by it:
      a timer attempt or a forced restart that serves. */
  lemma KeepsSettle(d: Dev, e: Event)
    requires Inv(d) && Allowed(d, e)
    requires var r := Step(d, e);
             r.IsLive() && r.retry.Some? && r.retry.value.settleAt.Some? && !r.retry.value.encodeSeen
    ensures var r := Step(d, e);
            if d.IsLive()
            then r.retry == d.retry && r.rt.value.gen == d.rt.value.gen && r.rt.value.started == d.rt.value.started
            else && (e.Tick? || e.Restart?) && r.rt.value.started == Some(Ended(e))
                 && r.retry.value.settleAt == Some(Ended(e) + RETRY_SETTLE)
  {
    hide AttemptRetry, OpenAndStart, ScheduleRetry, DieDevice;
    match e
    case Restart(dev, o, reset) =>
      RefusedIsDown(if reset then d.(retry := None) else d, dev, o);
      AttemptOpens(RestartState(d, reset), dev, o);
    case Tick(dev, now, o) =>
      if Attempts(d, now) { AttemptOpens(d.(retry := Some(d.retry.value.(next := None))), dev, o); }
    case _ =>
  }

  lemma AttemptOpens(d: Dev, dev: Device, o: Opening)
    ensures var r := AttemptRetry(d, dev, o); r.IsLive() ==> r.rt.value.started == Some(o.now)
  {
    hide OpenAndStart, ReplaceDown;
  }

  lemma {:induction false} SettlingSince(run: seq<Event>, n: nat) returns (m: nat)
    requires IsRun(run) && n <= |run| && After(run, n).IsLive() && After(run, n).retry.Some?
    requires After(run, n).retry.value.settleAt.Some? && !After(run, n).retry.value.encodeSeen
    ensures m < n && (run[m].Tick? || run[m].Restart?) && !After(run, m).IsLive() && ServesThrough(run, m + 1, n)
    ensures After(run, n).retry.value.settleAt == Some(Ended(run[m]) + RETRY_SETTLE)
    ensures After(run, n).rt.value.started == Some(Ended(run[m]))
  {
    hide Step, Allowed, Inv;
    if n == 0 { assert false; }
    OneStep(run, n - 1);
    KeepsSettle(After(run, n - 1), run[n - 1]);
    m := n - 1;
    if After(run, n - 1).IsLive() {
      m := SettlingSince(run, n - 1);
    }
  }

  /** A recovery without an encode fault: the settle completes no sooner than one window after the attempt that opened
      the device, on the runtime that has served ever since. */
  lemma RecoveryServedItsWindow(run: seq<Event>, k: nat) returns (m: nat)
    requires IsRun(run) && k < |run| && CompletesSettle(After(run, k), run[k]) && After(run, k).fault.None?
    ensures m < k && (run[m].Tick? || run[m].Restart?) && !After(run, m).IsLive() && ServesThrough(run, m + 1, k)
    ensures After(run, k).rt.value.started == Some(Ended(run[m])) && Ended(run[m]) + RETRY_SETTLE <= run[k].now
    ensures After(run, k + 1).down.None?
  {
    hide Step;
    OneStep(run, k);
    m := SettlingSince(run, k);
    TickCompletes(After(run, k), run[k]);
  }

  lemma TickCompletes(d: Dev, e: Event)
    requires Inv(d) && Allowed(d, e) && CompletesSettle(d, e)
    ensures Step(d, e).down.None?
  {
    hide AttemptRetry;
  }
}
