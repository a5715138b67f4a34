/** What the run loop knows of one device, and every operation on it, as functions.

    The appliance keeps a map per concern, all keyed by device name; `Dev` is the slice of those maps
    at one name. The class Appliance updates the maps in place and is proved to follow these functions. */
module Lifecycle {
  import opened Common
  import opened Config
  import opened Notify
  import opened Geometry

  const RETRY_SETTLE: int := 30 * SECOND
  const RETRY_RESET_AFTER: int := 10 * MINUTE
  const STABLE_RUN: int := HOUR
  const RETRY_BACKOFF: seq<int> := [5 * SECOND, 10 * SECOND, 30 * SECOND, MINUTE, 2 * MINUTE, 5 * MINUTE]

  datatype Cause =
    | NotConnected | Ambiguous | Malformed | ResolveFailed | SameHardware
    | OpenFailed | Disconnected | Stalled | Died

  datatype Status = Serving | Skipped | Failed | Disabled

  /** A device record. `gen` is its identity: two records with equal fields but different gens are two
      runtimes. `encoded` holds the stream paths whose stage has emitted a frame. */
  datatype Runtime = Runtime(gen: nat, dev: Device, status: Status, cause: Option<Cause>, addr: string,
                             step: int, started: Option<int>, encoded: set<string>, awaitEncode: bool,
                             superseded: bool)
  {
    predicate IsDown() { status.Skipped? || status.Failed? }

    /** Serving, and not already told to stop. */
    predicate Live() { status.Serving? && !superseded }

    /** Every listed stream has encoded a frame; a listed path it no longer serves counts as proven. */
    predicate EncodedAll(paths: seq<string>) {
      forall p | p in paths :: p in dev.Paths() ==> p in encoded
    }
  }

  datatype Retry = Retry(attempts: nat, failures: nat, next: Option<int>, settleAt: Option<int>,
                         recoveredAt: Option<int>, encodeSeen: bool, awaitEncode: bool)

  const FRESH: Retry := Retry(0, 0, None, None, None, false, false)

  datatype Fault = Fault(dev: Device, paths: seq<string>)

  datatype Escalation = Escalation(id: string, rate: int, channels: set<nat>, step: int, ceiling: int, shortfalls: int)

  /** `notes` and `geoNotes` are the histories of the device's down key and capture-period key. */
  datatype Dev = Dev(rt: Option<Runtime>, down: Option<Cause>, retry: Option<Retry>, fault: Option<Fault>,
                     geo: Option<Escalation>, notes: seq<Notice>, geoNotes: seq<Notice>)
  {
    predicate IsLive() { rt.Some? && rt.value.Live() }

    predicate IsServing() { rt.Some? && rt.value.status.Serving? }

    predicate IsDown() { rt.Some? && rt.value.IsDown() }

    predicate IsSuperseded() { rt.Some? && rt.value.superseded }

    /** An unattended restart is in flight: a retry state that has not settled since its last failure. */
    predicate Retrying() { retry.Some? && retry.value.recoveredAt.None? }

    function FaultedPaths(): seq<string> { if fault.Some? then fault.value.paths else [] }
  }

  const BLANK: Dev := Dev(None, None, None, None, None, [], [])

  /** What the world answers when a device is opened: the refusal decided before any open, the hardware
      address its id resolved to, how each rung would open, the identity the new runtime gets, and the
      instant the open returned. */
  datatype Opening = Opening(refusal: Option<Cause>, addr: string, opens: Opens, gen: nat, now: int)

  datatype PumpError = PumpError(gone: bool, stalled: bool, shortfall: bool)

  /** The operations of the run loop on one device. */
  datatype Event =
    | Stop(now: int)
    | Start(dev: Device, o: Opening)
    | Restart(dev: Device, o: Opening, reset: bool)
    | Tick(dev: Device, now: int, o: Opening)
    | Die(err: PumpError, faultPath: Option<string>, missing: bool, now: int)
    | Disable(dev: Device, gen: nat, addr: string)
    | Remove
    | Encode(path: string)

  // ----- down condition -----

  predicate Retryable(c: Cause) { c.OpenFailed? || c.Died? || c.Stalled? || c.ResolveFailed? }

  predicate SameCondition(a: Cause, b: Cause) {
    a == b || ((a.Died? || a.Stalled?) && (b.Died? || b.Stalled?))
  }

  function MarkDown(d: Dev, cause: Cause): (r: Dev)
    ensures r == d.(down := r.down, notes := r.notes)
    ensures r.down.Some? && (Retryable(r.down.value) <==> Retryable(cause))
  {
    if d.down.Some? && !SameCondition(d.down.value, cause) && d.Retrying()
       && Retryable(d.down.value) && Retryable(cause)
    then d
    else ReplaceDown(d, cause)
  }

  /** Raises the condition for cause, rewriting it in place when it already reads as that. */
  function ReplaceDown(d: Dev, cause: Cause): (r: Dev)
    ensures r == d.(down := Some(cause), notes := r.notes)
  {
    if d.down.Some? && SameCondition(d.down.value, cause)
    then d.(down := Some(cause), notes := Rewrite(d.notes))
    else d.(down := Some(cause),
            notes := Raise(if d.down.Some? then End(d.notes, Resolve) else d.notes))
  }

  function FinishRecovery(d: Dev): (r: Dev)
    ensures r == d.(down := None, notes := r.notes)
  {
    if d.down.None? then d else d.(down := None, notes := End(d.notes, Clear))
  }

  // ----- backoff -----

  function BackoffAt(delays: seq<int>, i: int): (r: int)
    requires delays != []
    ensures r in delays
  {
    delays[Min(Max(i, 0), |delays| - 1)]
  }

  function BackoffDelay(attempts: int): int { BackoffAt(RETRY_BACKOFF, attempts - 1) }

  function ScheduleRetry(d: Dev, dev: Device, now: int): (r: Dev)
    ensures r == d.(retry := r.retry)
  {
    if IsCardIndex(dev.id) || d.down.None? || !Retryable(d.down.value) then d.(retry := None)
    else d.(retry := Some(Scheduled(if d.retry.Some? then d.retry.value else FRESH, now)))
  }

  function Scheduled(st: Retry, now: int): Retry {
    var newOutage := st.recoveredAt.Some?;
    var attempts := if newOutage && now - st.recoveredAt.value >= RETRY_RESET_AFTER then 0 else st.attempts;
    var failures := if newOutage then 0 else st.failures;
    Retry(attempts + 1, failures + 1, Some(now + BackoffDelay(attempts + 1)), None, None, false, false)
  }

  function SettleFromEncode(st: Retry, now: int): Retry {
    st.(awaitEncode := false, encodeSeen := true, settleAt := Some(now + RETRY_SETTLE))
  }

  // ----- capture geometry -----

  function AskedStep(d: Dev, dev: Device): int {
    if d.geo.Some? && EarnedBy(d.geo.value, dev) then d.geo.value.step else 0
  }

  predicate EarnedBy(g: Escalation, dev: Device) {
    g.id == dev.id && g.rate == dev.rate && g.channels == dev.ChannelUnion()
  }

  function DropGeometry(d: Dev): Dev { d.(geo := None, geoNotes := End(d.geoNotes, Resolve)) }

  /** The first thing an open does: forget a step earned under another capture identity. */
  function CheckGeometry(d: Dev, dev: Device): (r: Dev)
    ensures r == d.(geo := r.geo, geoNotes := r.geoNotes)
  {
    if d.geo.Some? && !EarnedBy(d.geo.value, dev) then DropGeometry(d) else d
  }

  function RunEnded(d: Dev, rt: Runtime, now: int): (r: Dev)
    ensures r == d.(geo := r.geo, geoNotes := r.geoNotes)
  {
    if d.geo.None? || rt.started.None? || now - rt.started.value < STABLE_RUN then d
    else if d.geo.value.step == 0 then d.(geo := None)
    else d.(geo := None, geoNotes := End(d.geoNotes, Clear))
  }

  function Shortfall(d: Dev, dev: Device, openedStep: int): (r: Dev)
    ensures r == d.(geo := r.geo)
  {
    if d.geo.None? && openedStep != 0 then d
    else
      var g := if d.geo.Some? then d.geo.value else Escalation(dev.id, dev.rate, dev.ChannelUnion(), 0, TOP, 0);
      if openedStep != g.step || g.step >= g.ceiling then d.(geo := Some(g))
      else if g.shortfalls + 1 < SHORTFALLS then d.(geo := Some(g.(shortfalls := g.shortfalls + 1)))
      else d.(geo := Some(g.(step := g.step + 1, shortfalls := 0)))
  }

  function Refuse(d: Dev, refusedAt: int): (r: Dev)
    ensures r == d.(geo := r.geo, geoNotes := r.geoNotes)
  {
    if d.geo.None? then d
    else
      var ceiling := Min(d.geo.value.ceiling, refusedAt - 1);
      var g := d.geo.value.(ceiling := ceiling, step := Min(d.geo.value.step, ceiling), shortfalls := 0);
      d.(geo := Some(g), geoNotes := if ceiling == 0 then End(d.geoNotes, Clear) else d.geoNotes)
  }

  function GeometryOpened(d: Dev, got: int, asked: int): (r: Dev)
    ensures r == d.(geoNotes := r.geoNotes)
  {
    if d.geo.None? then d
    else if got == 0 then d.(geoNotes := End(d.geoNotes, Clear))
    else if got < asked && d.geo.value.ceiling >= asked then d
    else d.(geoNotes := if Active(d.geoNotes) then Rewrite(d.geoNotes) else Raise(d.geoNotes))
  }

  // ----- opening -----

  function SkippedRecord(dev: Device, o: Opening, cause: Cause): Runtime {
    Runtime(o.gen, dev, Skipped, Some(cause), o.addr, 0, None, {}, false, false)
  }

  function ServingRecord(dev: Device, o: Opening, step: int): Runtime {
    Runtime(o.gen, dev, Serving, None, o.addr, step, Some(o.now), {}, false, false)
  }

  function Skip(d: Dev, dev: Device, o: Opening, cause: Cause): (r: Dev)
    ensures r == d.(rt := Some(SkippedRecord(dev, o, cause)), down := r.down, notes := r.notes)
    ensures r.down.Some? && (Retryable(r.down.value) <==> Retryable(cause))
  {
    MarkDown(d, cause).(rt := Some(SkippedRecord(dev, o, cause)))
  }

  function OpenAndStart(d: Dev, dev: Device, o: Opening): (r: Dev)
    ensures r.retry == d.retry && r.fault == d.fault
    ensures r.rt.Some? && r.rt.value.dev == dev && !r.rt.value.superseded
    ensures if r.IsServing()
            then r.down == d.down && r.notes == d.notes && r.rt == Some(ServingRecord(dev, o, r.rt.value.step))
            else r.IsDown() && r.down.Some? && r.rt.value.cause.Some?
                 && (Retryable(r.down.value) <==> Retryable(r.rt.value.cause.value))
  {
    if o.refusal.Some? then Skip(CheckGeometry(d, dev), dev, o, o.refusal.value)
    else OpenFrom(CheckGeometry(d, dev), dev, AskedStep(d, dev), o)
  }

  /** The open itself, from the asked rung down. */
  function OpenFrom(d: Dev, dev: Device, asked: int, o: Opening): (r: Dev)
    ensures r.retry == d.retry && r.fault == d.fault
    ensures r.rt == Some(if r.IsServing() then ServingRecord(dev, o, r.rt.value.step)
                         else SkippedRecord(dev, o, OpenFailed))
    ensures if r.IsServing() then r.down == d.down && r.notes == d.notes
            else r.down.Some? && Retryable(r.down.value)
  {
    var a := Descend(o.opens, asked, None);
    var d1 := if a.refusedAt.Some? then Refuse(d, a.refusedAt.value) else d;
    if !a.served then Skip(d1, dev, o, OpenFailed)
    else (if asked > 0 then GeometryOpened(d1, a.step, asked) else d1).(rt := Some(ServingRecord(dev, o, a.step)))
  }

  function StartDevice(d: Dev, dev: Device, o: Opening): Dev {
    var d1 := OpenAndStart(d.(retry := None, fault := None), dev, o);
    if d1.IsServing() then FinishRecovery(d1) else ScheduleRetry(d1, dev, o.now)
  }

  function AttemptRetry(d: Dev, dev: Device, o: Opening): (r: Dev)
    ensures r.fault == d.fault && r.rt.Some?
    ensures r.IsServing() && d.retry.Some? ==> r.retry == Some(d.retry.value.(settleAt := Some(o.now + RETRY_SETTLE)))
    ensures !r.IsServing() && r.retry.Some? ==>
              r.retry == Some(Scheduled(if d.retry.Some? then d.retry.value else FRESH, o.now))
  {
    var d1 := OpenAndStart(d, dev, o);
    if !d1.IsServing() then ScheduleRetry(d1, dev, o.now)
    else
      var d2 := if d1.retry.None? then d1
                else d1.(retry := Some(d1.retry.value.(settleAt := Some(o.now + RETRY_SETTLE))));
      if d2.FaultedPaths() == [] then d2
      else
        var d3 := ReplaceDown(d2, Died);
        d3.(rt := Some(d3.rt.value.(awaitEncode := true)))
  }

  function RestartFaulted(d: Dev, dev: Device, o: Opening, reset: bool): (r: Dev)
    ensures r.fault == d.fault
  {
    if o.refusal.Some? then
      ScheduleRetry(OpenAndStart(if reset then d.(retry := None) else d, dev, o), dev, o.now)
    else AttemptRetry(RestartState(d, reset), dev, o)
  }

  /** The device as a forced attempt finds it: any pending attempt consumed, the backoff perhaps reset. */
  function RestartState(d: Dev, reset: bool): Dev {
    var st := (if d.retry.Some? then d.retry.value else FRESH).(next := None);
    d.(retry := Some(if reset then st.(attempts := 0, failures := 0, recoveredAt := None) else st))
  }

  // ----- the other operations -----

  function StopDevice(d: Dev, now: int): Dev {
    if d.rt.None? then d
    else RunEnded(d.(rt := Some(d.rt.value.(superseded := true))), d.rt.value, now)
  }

  /** One device's share of a pass over the due retries: at most one of the three cases applies. */
  function TickDevice(d: Dev, dev: Device, now: int, o: Opening): Dev {
    if d.retry.None? then d
    else
      var st := d.retry.value;
      if st.awaitEncode then
        if !d.IsServing() || !d.rt.value.EncodedAll(d.FaultedPaths()) then d
        else d.(retry := Some(SettleFromEncode(st, now)))
      else if st.settleAt.Some? && st.settleAt.value <= now then
        Settle(d.(retry := Some(st.(settleAt := None))), now)
      else if st.next.Some? && st.next.value <= now then
        var d1 := d.(retry := Some(st.(next := None)));
        if !d1.IsDown() then d1 else AttemptRetry(d1, dev, o)
      else d
  }

  /** The end of a settle window, its deadline already consumed. */
  function Settle(d: Dev, now: int): Dev
    requires d.retry.Some?
  {
    var st := d.retry.value;
    if !d.IsServing() then d
    else if d.FaultedPaths() != [] && !st.encodeSeen then
      if d.rt.value.EncodedAll(d.FaultedPaths())
      then d.(retry := Some(SettleFromEncode(st, now)))
      else d.(retry := Some(st.(awaitEncode := true)))
    else
      FinishRecovery(d.(retry := Some(st.(recoveredAt := Some(now), encodeSeen := false)), fault := None))
  }

  function RecordFault(d: Dev, dev: Device, path: string): Dev {
    var paths := d.FaultedPaths();
    d.(fault := Some(Fault(dev, if path in paths then paths else paths + [path])))
  }

  /** A pump that stopped on its own: its record is failed and its condition raised. */
  function Bury(d: Dev, cause: Cause, now: int): (r: Dev)
    requires d.rt.Some?
    ensures r.rt == Some(d.rt.value.(status := Failed, cause := Some(cause)))
    ensures r.retry == d.retry && r.fault == d.fault
    ensures r.down.Some? && (Retryable(r.down.value) <==> Retryable(cause))
  {
    var rt := d.rt.value;
    MarkDown(RunEnded(d.(rt := Some(rt.(status := Failed, cause := Some(cause)))), rt, now), cause)
  }

  /** A fault on record stays on record, with every stream it names. */
  predicate KeepsFault(d: Dev, r: Dev) {
    d.fault.Some? ==> r.fault.Some? && forall p | p in d.fault.value.paths :: p in r.fault.value.paths
  }

  /** What the death of a device that stays on the backoff says of its geometry and its streams. */
  function Blame(d: Dev, rt: Runtime, err: PumpError, faultPath: Option<string>): (r: Dev)
    ensures r.rt == d.rt && r.down == d.down && r.retry == d.retry && r.notes == d.notes
    ensures KeepsFault(d, r)
  {
    if d.retry.None? then d
    else
      var d1 := if err.shortfall then Shortfall(d, rt.dev, rt.step) else d;
      if faultPath.Some? then RecordFault(d1, rt.dev, faultPath.value) else d1
  }

  /** `missing` says the id no longer names present hardware. */
  function DieDevice(d: Dev, err: PumpError, faultPath: Option<string>, missing: bool, now: int): (r: Dev)
    ensures d.rt.Some? ==> r.IsDown()
    ensures KeepsFault(d, r)
  {
    if d.rt.None? then d
    else if err.gone || missing then Bury(d, Disconnected, now).(retry := None)
    else
      var rt := d.rt.value;
      Blame(ScheduleRetry(Bury(d, if err.stalled then Stalled else Died, now), rt.dev, now), rt, err, faultPath)
  }

  function Forget(d: Dev): Dev {
    DropGeometry(d.(down := None, retry := None, fault := None, notes := End(d.notes, Resolve)))
  }

  function DisableDevice(d: Dev, dev: Device, gen: nat, addr: string): Dev {
    Forget(d).(rt := Some(Runtime(gen, dev, Disabled, None, addr, 0, None, {}, false, false)))
  }

  function RemoveDevice(d: Dev): Dev { Forget(d).(rt := None) }

  function EncodeFrame(d: Dev, path: string): Dev {
    if d.rt.None? then d else d.(rt := Some(d.rt.value.(encoded := d.rt.value.encoded + {path})))
  }

  function Step(d: Dev, e: Event): Dev {
    match e
    case Stop(now) => StopDevice(d, now)
    case Start(dev, o) => StartDevice(d, dev, o)
    case Restart(dev, o, reset) => RestartFaulted(d, dev, o, reset)
    case Tick(dev, now, o) => TickDevice(d, dev, now, o)
    case Die(err, faultPath, missing, now) => DieDevice(d, err, faultPath, missing, now)
    case Disable(dev, gen, addr) => DisableDevice(d, dev, gen, addr)
    case Remove => RemoveDevice(d)
    case Encode(path) => EncodeFrame(d, path)
  }

  /** When the run loop performs each operation. A device told to stop is next started, disabled or
      removed within the same event; a faulted device is started afresh only for a save that changed its
      parameters, and otherwise restarted as faulted. */
  predicate Allowed(d: Dev, e: Event) {
    match e
    case Stop(_) => d.IsLive()
    case Start(dev, o) => dev.enabled && !d.IsLive() && (d.fault.Some? ==> !ParamsEqual(d.fault.value.dev, dev))
    case Restart(dev, o, _) => dev.enabled && d.IsDown() && d.fault.Some? && ParamsEqual(d.fault.value.dev, dev)
    case Tick(dev, _, o) => d.retry.Some? && !d.IsSuperseded() && d.rt.Some? && d.rt.value.dev == dev
    case Die(_, faultPath, _, _) => d.IsLive() && (faultPath.Some? ==> faultPath.value in d.rt.value.dev.Paths())
    case Disable(dev, _, _) => !dev.enabled && !d.IsLive()
    case Remove => !d.IsLive()
    case Encode(_) => d.IsLive()
  }

  /** The device after a run of operations, from nothing. */
  function Replay(run: seq<Event>): Dev {
    if run == [] then BLANK else Step(Replay(run[..|run| - 1]), run[|run| - 1])
  }

  ghost predicate IsRun(run: seq<Event>) {
    forall i | 0 <= i < |run| :: Allowed(Replay(run[..i]), run[i])
  }
}
