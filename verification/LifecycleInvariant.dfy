/** What every operation on a device keeps, and so what holds at every point of every run. */
module LifecycleInvariant {
  import opened Common
  import opened Config
  import opened Notify
  import opened Geometry
  import opened Lifecycle

  // ----- the modes of a retry state -----

  predicate Pending(st: Retry) {
    st.next.Some? && st.settleAt.None? && st.recoveredAt.None? && !st.encodeSeen && !st.awaitEncode
  }

  predicate Settling(st: Retry) {
    st.next.None? && st.settleAt.Some? && st.recoveredAt.None? && !st.awaitEncode
  }

  predicate Waiting(st: Retry) {
    st.next.None? && st.settleAt.None? && st.recoveredAt.None? && !st.encodeSeen && st.awaitEncode
  }

  predicate Recovered(st: Retry) {
    st.next.None? && st.settleAt.None? && st.recoveredAt.Some? && !st.encodeSeen && !st.awaitEncode
  }

  /** An absent or disabled device carries nothing. */
  predicate IdleOk(d: Dev) {
    d.rt.None? || d.rt.value.status.Disabled? ==>
      d.down.None? && d.retry.None? && d.fault.None? && d.geo.None?
  }

  /** The down key is active exactly while a cause is on record. */
  predicate NotesOk(d: Dev) { Active(d.notes) <==> d.down.Some? }

  /** A down device has a cause, and its retry is pending iff the cause is one a retry can fix and the id
      is stable; the condition's cause and the record's agree on that. */
  predicate DownOk(d: Dev) {
    d.IsDown() ==>
      && d.down.Some? && d.rt.value.cause.Some?
      && (Retryable(d.down.value) <==> Retryable(d.rt.value.cause.value))
      && (d.retry.Some? <==> Retryable(d.down.value) && !IsCardIndex(d.rt.value.dev.id))
      && (d.retry.Some? ==> Pending(d.retry.value))
  }

  /** A serving device has a condition iff its restart has not settled; its retry is past its attempt. */
  predicate ServingOk(d: Dev) {
    d.IsServing() ==>
      && d.rt.value.cause.None? && d.rt.value.started.Some?
      && (d.down.Some? <==> d.Retrying())
      && (d.down.Some? ==> Retryable(d.down.value))
      && (d.retry.Some? ==>
            var st := d.retry.value;
            && !IsCardIndex(d.rt.value.dev.id)
            && (Settling(st) || Waiting(st) || Recovered(st))
            && (Waiting(st) || st.encodeSeen ==> d.fault.Some?)
            && (st.encodeSeen ==> d.rt.value.EncodedAll(d.FaultedPaths())))
  }

  /** An encode fault names streams of the device as configured, keeps its condition active, and makes a
      serving restart ask its stages to wake the loop. */
  predicate FaultOk(d: Dev) {
    d.fault.Some? ==>
      && d.rt.Some? && d.fault.value.paths != [] && d.down.Some?
      && !IsCardIndex(d.rt.value.dev.id)
      && ParamsEqual(d.fault.value.dev, d.rt.value.dev)
      && (forall p | p in d.fault.value.paths :: p in d.rt.value.dev.Paths())
      && (d.IsServing() ==> d.rt.value.awaitEncode && SameCondition(d.down.value, Died))
  }

  predicate LadderOk(d: Dev) {
    d.geo.Some? ==> 0 <= d.geo.value.step <= d.geo.value.ceiling <= TOP && 0 <= d.geo.value.shortfalls < SHORTFALLS
  }

  /** The capture-period condition says what is in effect. */
  predicate PeriodOk(d: Dev) {
    && (Active(d.geoNotes) ==> d.geo.Some? && d.geo.value.step >= 1)
    && (Active(d.geoNotes) && d.IsServing() ==> d.rt.value.step >= 1)
    && (d.IsServing() ==> 0 <= d.rt.value.step <= TOP)
  }

  predicate Inv(d: Dev) {
    IdleOk(d) && NotesOk(d) && DownOk(d) && ServingOk(d) && FaultOk(d) && LadderOk(d) && PeriodOk(d)
  }

  // ----- one operation -----

  /** A retry state about to be consumed by an attempt: nothing is left to fire. */
  predicate Spent(st: Retry) {
    st.next.None? && st.settleAt.None? && st.recoveredAt.None? && !st.encodeSeen && !st.awaitEncode
  }

  /** The parts an open relies on and keeps: the condition history and the ladder. */
  predicate BaseOk(d: Dev) {
    && NotesOk(d) && LadderOk(d)
    && (Active(d.geoNotes) ==> d.geo.Some? && d.geo.value.step >= 1)
  }

  /** The record and condition a failed open leaves. */
  predicate IsSkip(r: Dev, dev: Device) {
    && r.IsDown() && r.rt.value.dev == dev && !r.rt.value.superseded
    && r.down.Some? && r.rt.value.cause.Some?
    && (Retryable(r.down.value) <==> Retryable(r.rt.value.cause.value))
  }

  lemma SkipKeepsBase(d: Dev, dev: Device, o: Opening, cause: Cause)
    requires BaseOk(d)
    ensures var r := Skip(d, dev, o, cause);
            BaseOk(r) && IsSkip(r, dev) && r.retry == d.retry && r.fault == d.fault && r.geo == d.geo
  {}

  /** The ladder's share of a successful open: the condition says what rung is in effect. */
  lemma LadderAfterOpen(d: Dev, asked: int, a: Attempt)
    requires BaseOk(d)
    requires asked == (if d.geo.Some? then d.geo.value.step else 0)
    requires 0 <= a.step <= asked
    requires a.refusedAt.Some? ==> a.step < a.refusedAt.value <= asked
    ensures var d2 := if a.refusedAt.Some? then Refuse(d, a.refusedAt.value) else d;
            var d3 := if asked > 0 then GeometryOpened(d2, a.step, asked) else d2;
            && BaseOk(d2) && BaseOk(d3) && (Active(d3.geoNotes) ==> a.step >= 1)
            && d2 == d.(geo := d2.geo, geoNotes := d2.geoNotes)
            && d3 == d.(geo := d3.geo, geoNotes := d3.geoNotes)
  {}

  lemma OpenKeepsBase(d: Dev, dev: Device, o: Opening)
    requires BaseOk(d)
    ensures var r := OpenAndStart(d, dev, o);
            && BaseOk(r) && PeriodOk(r) && r.retry == d.retry && r.fault == d.fault
            && (if r.IsServing()
                then r.rt == Some(ServingRecord(dev, o, r.rt.value.step)) && r.down == d.down
                else IsSkip(r, dev))
  {
    hide Descend, Refuse, GeometryOpened, Skip;
    var asked := AskedStep(d, dev);
    var d1 := CheckGeometry(d, dev);
    var a := Descend(o.opens, asked, None);
    DescendServesHighest(o.opens, asked);
    LadderAfterOpen(d1, asked, a);
    var d2 := if a.refusedAt.Some? then Refuse(d1, a.refusedAt.value) else d1;
    SkipKeepsBase(d1, dev, o, if o.refusal.Some? then o.refusal.value else OpenFailed);
    SkipKeepsBase(d2, dev, o, OpenFailed);
  }

  lemma AttemptKeepsInv(d: Dev, dev: Device, o: Opening)
    requires BaseOk(d) && d.retry.Some? && Spent(d.retry.value) && d.down.Some?
    requires !IsCardIndex(dev.id)
    requires d.fault.Some? ==> d.fault.value.paths != [] && ParamsEqual(d.fault.value.dev, dev)
                               && forall p | p in d.fault.value.paths :: p in dev.Paths()
    requires d.fault.None? ==> Retryable(d.down.value)
    ensures Inv(AttemptRetry(d, dev, o))
  {
    OpenKeepsBase(d, dev, o);
    var r := OpenAndStart(d, dev, o);
    if !r.IsServing() { ScheduleKeepsInv(r, dev, o.now); }
  }

  lemma ScheduleKeepsInv(d: Dev, dev: Device, now: int)
    requires BaseOk(d) && IsSkip(d, dev)
    requires FaultOk(d)
    ensures Inv(ScheduleRetry(d, dev, now))
  {}

  lemma StartKeepsInv(d: Dev, dev: Device, o: Opening)
    requires Inv(d)
    ensures Inv(StartDevice(d, dev, o))
  {
    var d0 := d.(retry := None, fault := None);
    OpenKeepsBase(d0, dev, o);
    var r := OpenAndStart(d0, dev, o);
    if !r.IsServing() { ScheduleKeepsInv(r, dev, o.now); }
  }

  lemma RestartKeepsInv(d: Dev, dev: Device, o: Opening, reset: bool)
    requires Inv(d) && Allowed(d, Restart(dev, o, reset))
    ensures Inv(RestartFaulted(d, dev, o, reset))
  {
    if o.refusal.Some? {
      var d0 := if reset then d.(retry := None) else d;
      OpenKeepsBase(d0, dev, o);
      ScheduleKeepsInv(OpenAndStart(d0, dev, o), dev, o.now);
    } else {
      AttemptKeepsInv(RestartState(d, reset), dev, o);
    }
  }

  lemma SettleKeepsInv(d: Dev, now: int)
    requires Inv(d) && d.IsServing() && d.retry.Some? && Settling(d.retry.value)
    ensures Inv(Settle(d.(retry := Some(d.retry.value.(settleAt := None))), now))
  {}

  lemma TickKeepsInv(d: Dev, dev: Device, now: int, o: Opening)
    requires Inv(d) && Allowed(d, Tick(dev, now, o))
    ensures Inv(TickDevice(d, dev, now, o))
  {
    var st := d.retry.value;
    if Settling(st) && st.settleAt.value <= now { SettleKeepsInv(d, now); }
    if !st.awaitEncode && !(st.settleAt.Some? && st.settleAt.value <= now) && st.next.Some? && st.next.value <= now {
      AttemptKeepsInv(d.(retry := Some(st.(next := None))), dev, o);
    }
  }

  lemma RunEndedKeepsBase(d: Dev, rt: Runtime, now: int)
    requires BaseOk(d)
    ensures var r := RunEnded(d, rt, now);
            BaseOk(r) && r == d.(geo := r.geo, geoNotes := r.geoNotes)
  {}

  /** A dead record, its condition raised for what ended it. */
  lemma BuryIsSkip(d: Dev, cause: Cause, now: int)
    requires Inv(d) && d.IsLive()
    ensures var r := Bury(d, cause, now);
            && BaseOk(r) && FaultOk(r) && IsSkip(r, d.rt.value.dev) && r.retry == d.retry
            && (!Retryable(cause) ==> !Retryable(r.down.value))
  {
    var rt := d.rt.value;
    var dead := d.(rt := Some(rt.(status := Failed, cause := Some(cause))));
    RunEndedKeepsBase(dead, rt, now);
    MarkKeepsBase(RunEnded(dead, rt, now), cause);
  }

  lemma MarkKeepsBase(d: Dev, cause: Cause)
    requires BaseOk(d)
    ensures var r := MarkDown(d, cause);
            && BaseOk(r) && r == d.(down := r.down, notes := r.notes) && r.down.Some?
            && (Retryable(r.down.value) <==> Retryable(cause))
  {}

  lemma ShortfallKeepsInv(d: Dev, dev: Device, step: int)
    requires Inv(d) && d.IsDown()
    ensures Inv(Shortfall(d, dev, step))
  {}

  lemma RecordKeepsInv(d: Dev, path: string)
    requires Inv(d) && d.IsDown() && d.retry.Some? && path in d.rt.value.dev.Paths()
    ensures Inv(RecordFault(d, d.rt.value.dev, path))
  {}

  lemma BlameKeepsInv(d: Dev, rt: Runtime, err: PumpError, faultPath: Option<string>)
    requires Inv(d) && d.IsDown() && d.rt.value.dev == rt.dev
    requires faultPath.Some? ==> faultPath.value in rt.dev.Paths()
    ensures Inv(Blame(d, rt, err, faultPath))
  {
    ShortfallKeepsInv(d, rt.dev, rt.step);
    var d1 := if err.shortfall then Shortfall(d, rt.dev, rt.step) else d;
    if faultPath.Some? && d.retry.Some? { RecordKeepsInv(d1, faultPath.value); }
  }

  lemma DieKeepsInv(d: Dev, err: PumpError, faultPath: Option<string>, missing: bool, now: int)
    requires Inv(d) && Allowed(d, Die(err, faultPath, missing, now))
    ensures Inv(DieDevice(d, err, faultPath, missing, now))
  {
    var rt := d.rt.value;
    var cause := if err.gone || missing then Disconnected else if err.stalled then Stalled else Died;
    BuryIsSkip(d, cause, now);
    var r := Bury(d, cause, now);
    ScheduleKeepsInv(r, rt.dev, now);
    if cause != Disconnected {
      BlameKeepsInv(ScheduleRetry(r, rt.dev, now), rt, err, faultPath);
    }
  }

  lemma StepKeepsInv(d: Dev, e: Event)
    requires Inv(d) && Allowed(d, e)
    ensures Inv(Step(d, e))
  {
    match e
    case Stop(_) =>
    case Start(dev, o) => StartKeepsInv(d, dev, o);
    case Restart(dev, o, reset) => RestartKeepsInv(d, dev, o, reset);
    case Tick(dev, now, o) => TickKeepsInv(d, dev, now, o);
    case Die(err, faultPath, missing, now) => DieKeepsInv(d, err, faultPath, missing, now);
    case Disable(_, _, _) =>
    case Remove =>
    case Encode(_) =>
  }

  /** The invariant holds at every point of every run. */
  lemma {:induction false} RunKeepsInv(run: seq<Event>)
    requires IsRun(run)
    ensures Inv(Replay(run))
  {
    if run != [] {
      var n := |run| - 1;
      PrefixIsRun(run, n);
      RunKeepsInv(run[..n]);
      StepKeepsInv(Replay(run[..n]), run[n]);
    }
  }

  lemma PrefixIsRun(run: seq<Event>, n: nat)
    requires IsRun(run) && n <= |run|
    ensures IsRun(run[..n])
  {
    forall i | 0 <= i < n ensures Allowed(Replay(run[..n][..i]), run[..n][i]) {
      assert run[..n][..i] == run[..i];
    }
  }
}
