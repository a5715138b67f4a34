/** What one operation leaves of a device, field by field, said of the state before it and of what the world
    answered: which cause is on record and what was reported of it, when the next attempt is due, whose encoder is
    to blame, and at which rung the device runs. An operation's outcome is the only one that fits. */
module Outcomes {
  import opened Common
  import opened Config
  import opened Notify
  import opened Geometry
  import opened Lifecycle
  import opened LifecycleInvariant
  import opened LifecycleRuns

  // ----- the record -----

  /** An escalation of this capture: the same id, the same rate, and the same channels. */
  predicate IsOf(g: Escalation, dev: Device) {
    g.id == dev.id && g.rate == dev.rate && g.channels == dev.ChannelUnion()
  }

  /** The rung an open of dev asks for. */
  function Asked(d: Dev, dev: Device): int { if d.geo.Some? && IsOf(d.geo.value, dev) then d.geo.value.step else 0 }

  /** The record an open leaves: serving at the rung that opened if one did, and else skipped for what refused it. */
  ghost predicate Opened(asked: int, dev: Device, o: Opening, rt: Runtime) {
    && rt.gen == o.gen && rt.dev == dev && rt.addr == o.addr && rt.encoded == {} && !rt.superseded
    && (rt.status.Serving? || rt.status.Skipped?)
    && (rt.status.Serving? <==> o.refusal.None? && exists s :: ServesAt(o.opens, asked, s))
    && (rt.status.Serving? ==> ServesAt(o.opens, asked, rt.step) && rt.started == Some(o.now) && rt.cause.None?)
    && (rt.status.Skipped? ==>
          && rt.step == 0 && rt.started.None? && !rt.awaitEncode
          && rt.cause == Some(if o.refusal.Some? then o.refusal.value else OpenFailed))
  }

  function DeathCause(err: PumpError, missing: bool): Cause {
    if err.gone || missing then Disconnected else if err.stalled then Stalled else Died
  }

  /** The device is opened: a start, a forced restart, or a timer attempt. */
  predicate Tries(d: Dev, e: Event) { e.Start? || e.Restart? || (e.Tick? && Attempts(d, e.now)) }

  ghost predicate RecordAfter(d: Dev, e: Event, r: Dev)
    requires Allowed(d, e)
  {
    if Tries(d, e) then
      && r.rt.Some? && Opened(Asked(d, e.dev), e.dev, e.o, r.rt.value)
      && (r.IsServing() ==> (r.rt.value.awaitEncode <==> r.fault.Some?))
    else
      match e
      case Stop(_) => r.rt == Some(d.rt.value.(superseded := true))
      case Die(err, _, missing, _) =>
        r.rt == Some(d.rt.value.(status := Failed, cause := Some(DeathCause(err, missing))))
      case Disable(dev, gen, addr) => r.rt == Some(Runtime(gen, dev, Disabled, None, addr, 0, None, {}, false, false))
      case Remove => r.rt.None?
      case Encode(path) =>
        && r.rt.Some? && r.rt == Some(d.rt.value.(encoded := r.rt.value.encoded))
        && forall p :: p in r.rt.value.encoded <==> p in d.rt.value.encoded || p == path
      case _ => r.rt == d.rt
  }

  // ----- the down condition -----

  /** The causes the backoff retries: what fails may come back by itself. */
  predicate Retried(c: Cause) { c in {ResolveFailed, OpenFailed, Stalled, Died} }

  /** Two causes the operator reads as one condition. */
  predicate ReadAlike(a: Cause, b: Cause) { a == b || {a, b} == {Died, Stalled} }

  /** A condition whose cause a later failure of a retried outage does not rename. */
  predicate Outlasts(was: Option<Cause>, c: Cause) {
    was.Some? && Retried(was.value) && Retried(c) && !ReadAlike(was.value, c)
  }

  /** What a cause raised over another does to the condition and its history. */
  predicate Raised(was: Option<Cause>, log: seq<Notice>, c: Cause, kept: bool, now: Option<Cause>, after: seq<Notice>) {
    if kept then now == was && after == log
    else
      && now == Some(c)
      && after == log + if was.None? then [Onset] else if ReadAlike(was.value, c) then [Update] else [Resolve, Onset]
  }

  /** The restart is proved: it served its settle window, after an encode fault a window that began with every faulted
      stream encoded. */
  predicate Recovers(d: Dev, e: Event) {
    && e.Tick? && d.retry.Some? && Settling(d.retry.value) && d.retry.value.settleAt.value <= e.now
    && (d.fault.None? || d.retry.value.encodeSeen)
  }

  /** The operation begins the outage anew: what was retried before it is forgotten. */
  predicate Forgotten(e: Event) { e.Start? || (e.Restart? && e.reset && e.o.refusal.Some?) }

  predicate CauseAfter(d: Dev, e: Event, r: Dev)
    requires Allowed(d, e)
  {
    if e.Die? then
      var c := DeathCause(e.err, e.missing);
      Raised(d.down, d.notes, c, Outlasts(d.down, c), r.down, r.notes)
    else if Tries(d, e) && r.IsDown() then
      r.rt.value.cause.Some? &&
      var c := r.rt.value.cause.value;
      Raised(d.down, d.notes, c, Outlasts(d.down, c) && !Forgotten(e), r.down, r.notes)
    else if Tries(d, e) && r.fault.Some? then Raised(d.down, d.notes, Died, false, r.down, r.notes)
    else if Recovers(d, e) || e.Start? then
      r.down.None? && r.notes == d.notes + if d.down.Some? then [Clear] else []
    else if e.Disable? || e.Remove? then
      r.down.None? && r.notes == d.notes + if d.down.Some? then [Resolve] else []
    else r.down == d.down && r.notes == d.notes
  }

  // ----- the encode fault -----

  /** A death that stays on the backoff blames the stream it names. */
  predicate Blames(d: Dev, e: Event) {
    && e.Die? && e.faultPath.Some? && !e.err.gone && !e.missing
    && d.rt.Some? && !IsCardIndex(d.rt.value.dev.id)
  }

  ghost predicate FaultAfter(d: Dev, e: Event, r: Dev)
    requires Allowed(d, e)
  {
    if Blames(d, e) then
      && r.fault.Some? && r.fault.value.dev == d.rt.value.dev
      && d.FaultedPaths() <= r.fault.value.paths
      && (forall p :: p in r.fault.value.paths <==> p in d.FaultedPaths() || p == e.faultPath.value)
      && |r.fault.value.paths| == |d.FaultedPaths()| + if e.faultPath.value in d.FaultedPaths() then 0 else 1
    else if e.Start? || e.Disable? || e.Remove? || Recovers(d, e) then r.fault.None?
    else r.fault == d.fault
  }

  // ----- the backoff -----

  /** A failure at the given instant: one attempt more, or the first again when the last recovery is long past. */
  predicate Backs(before: Option<Retry>, at: int, after: Option<Retry>) {
    && after.Some? && Pending(after.value) && after.value.next == Some(at + BackoffDelay(after.value.attempts))
    && after.value.attempts == 1 + (if before.None? then 0
                                    else if before.value.recoveredAt.Some?
                                            && at - before.value.recoveredAt.value >= RETRY_RESET_AFTER then 0
                                    else before.value.attempts)
    && after.value.failures == 1 + (if before.None? || before.value.recoveredAt.Some? then 0 else before.value.failures)
  }

  /** What of the backoff an open starts from. */
  function BackoffOf(d: Dev, e: Event): Option<Retry> {
    if e.Start? || (e.Restart? && e.reset) then None else d.retry
  }

  /** A restart that serves settles for a window, its attempts not forgotten. */
  predicate Settles(before: Option<Retry>, at: int, after: Option<Retry>) {
    && after.Some? && Settling(after.value) && !after.value.encodeSeen
    && after.value.settleAt == Some(at + RETRY_SETTLE)
    && after.value.attempts == (if before.Some? then before.value.attempts else 0)
    && after.value.failures == (if before.Some? then before.value.failures else 0)
  }

  /** Every faulted stream the runtime serves has encoded. */
  predicate Proven(rt: Runtime, faulted: seq<string>) {
    forall p | p in faulted && p in rt.dev.Paths() :: p in rt.encoded
  }

  /** A pass at the given instant that opens nothing: a waiting restart moves on to its last settle once every faulted
      stream has encoded; a window that is over ends the outage, or waits for the streams that have not. */
  predicate Moves(st: Retry, rt: Runtime, faulted: seq<string>, at: int, after: Option<Retry>) {
    var over := st.settleAt.Some? && st.settleAt.value <= at;
    if Waiting(st) || (over && faulted != [] && !st.encodeSeen) then
      if Proven(rt, faulted)
      then after == Some(Retry(st.attempts, st.failures, None, Some(at + RETRY_SETTLE), None, true, false))
      else after == Some(Retry(st.attempts, st.failures, None, None, None, false, true))
    else if over then after == Some(Retry(st.attempts, st.failures, None, None, Some(at), false, false))
    else after == Some(st)
  }

  predicate PassAfter(d: Dev, at: int, r: Dev)
    requires d.rt.Some? && d.retry.Some?
  {
    Moves(d.retry.value, d.rt.value, d.FaultedPaths(), at, r.retry)
  }

  predicate RetryAfter(d: Dev, e: Event, r: Dev)
    requires Allowed(d, e)
  {
    if e.Die? || (Tries(d, e) && r.IsDown()) then
      var dev := if e.Die? then d.rt.value.dev else e.dev;
      var at := if e.Die? then e.now else e.o.now;
      var before := if e.Die? then d.retry else BackoffOf(d, e);
      if r.down.Some? && Retried(r.down.value) && !IsCardIndex(dev.id) then Backs(before, at, r.retry)
      else r.retry.None?
    else if e.Start? || e.Disable? || e.Remove? then r.retry.None?
    else if Tries(d, e) then Settles(BackoffOf(d, e), e.o.now, r.retry)
    else if e.Tick? then PassAfter(d, e.now, r)
    else r.retry == d.retry
  }

  // ----- the capture period -----

  /** The rung of an open's last try: every rung above it was passed over. */
  predicate LastTry(opens: Opens, asked: int, s: int) {
    && 0 <= s <= asked && (forall k | s < k <= asked :: Passed(opens, k))
    && (s == 0 || !Passed(opens, s))
  }

  /** The lowest rung the driver refused on the way down to the last try. */
  predicate LowestRefused(opens: Opens, asked: int, last: int, q: int) {
    && RefusedInPassing(opens, asked, last, q)
    && forall k | last < k < q :: !RefusedInPassing(opens, asked, last, k)
  }

  /** A refused rung is never asked for again: the ceiling drops below it, and the step with it. */
  function Below(g: Escalation, q: int): Escalation {
    var ceiling := if q - 1 < g.ceiling then q - 1 else g.ceiling;
    g.(ceiling := ceiling, step := if g.step < ceiling then g.step else ceiling, shortfalls := 0)
  }

  ghost predicate LadderAfterOpen(d: Dev, dev: Device, o: Opening, r: Dev) {
    if d.geo.None? || !IsOf(d.geo.value, dev) then r.geo.None?
    else if o.refusal.Some? then r.geo == d.geo
    else exists last :: LastTry(o.opens, d.geo.value.step, last) && LadderAfterTry(d, o, last, r)
  }

  ghost predicate LadderAfterTry(d: Dev, o: Opening, last: int, r: Dev)
    requires d.geo.Some?
  {
    var g := d.geo.value;
    && ((forall q :: !LowestRefused(o.opens, g.step, last, q)) ==> r.geo == d.geo)
    && (forall q | LowestRefused(o.opens, g.step, last, q) :: r.geo == Some(Below(g, q)))
  }

  /** The history of an ended condition, and of one raised again. */
  function Over(log: seq<Notice>, how: Notice): seq<Notice> { if Active(log) then log + [how] else log }

  /** The capture-period condition after an open: over once the device runs at the default or no larger period is left
      to ask for, up when it runs at the rung it asked for or will not be asked to run higher again, and left alone by
      a passing failure. */
  predicate PeriodAfterOpen(d: Dev, dev: Device, o: Opening, r: Dev) {
    if d.geo.None? then r.geoNotes == d.geoNotes
    else if !IsOf(d.geo.value, dev) then r.geoNotes == Over(d.geoNotes, Resolve)
    else if o.refusal.Some? || d.geo.value.step == 0 then r.geoNotes == d.geoNotes
    else if r.geo.None? then false
    else if r.IsServing() && r.rt.value.step > 0
            && (r.rt.value.step == d.geo.value.step || r.geo.value.ceiling < d.geo.value.step)
    then r.geoNotes == d.geoNotes + if Active(d.geoNotes) then [Update] else [Onset]
    else if (r.IsServing() && r.rt.value.step == 0) || r.geo.value.ceiling == 0
    then r.geoNotes == Over(d.geoNotes, Clear)
    else r.geoNotes == d.geoNotes
  }

  /** The runtime served an hour or more, which earns the default period back. */
  predicate Earned(rt: Runtime, now: int) { rt.started.Some? && now - rt.started.value >= HOUR }

  /** The escalation a death leaves: one that a shortfall of a run at its own rung moves on, to the next rung with the
      second. */
  predicate LadderAfterDeath(d: Dev, e: Event, r: Dev)
    requires e.Die? && d.rt.Some?
  {
    var dev := d.rt.value.dev;
    var was := if Earned(d.rt.value, e.now) then None else d.geo;
    var g := if was.Some? then was.value else Escalation(dev.id, dev.rate, dev.ChannelUnion(), 0, TOP, 0);
    if e.err.shortfall && !e.err.gone && !e.missing && !IsCardIndex(dev.id) && d.rt.value.step == g.step < g.ceiling
    then r.geo == Some(if g.shortfalls == 0 then g.(shortfalls := 1) else g.(step := g.step + 1, shortfalls := 0))
    else r.geo == was
  }

  ghost predicate LadderAfter(d: Dev, e: Event, r: Dev)
    requires Allowed(d, e)
  {
    if Tries(d, e) then LadderAfterOpen(d, e.dev, e.o, r) && PeriodAfterOpen(d, e.dev, e.o, r)
    else
      match e
      case Stop(now) =>
        if Earned(d.rt.value, now) then r.geo.None? && r.geoNotes == Over(d.geoNotes, Clear)
        else r.geo == d.geo && r.geoNotes == d.geoNotes
      case Die(_, _, _, now) =>
        && LadderAfterDeath(d, e, r)
        && r.geoNotes == if Earned(d.rt.value, now) then Over(d.geoNotes, Clear) else d.geoNotes
      case Disable(_, _, _) => r.geo.None? && r.geoNotes == Over(d.geoNotes, Resolve)
      case Remove => r.geo.None? && r.geoNotes == Over(d.geoNotes, Resolve)
      case _ => r.geo == d.geo && r.geoNotes == d.geoNotes
  }

  // ----- the whole -----

  ghost predicate Outcome(d: Dev, e: Event, r: Dev)
    requires Allowed(d, e)
  {
    && RecordAfter(d, e, r) && CauseAfter(d, e, r) && FaultAfter(d, e, r) && RetryAfter(d, e, r) && LadderAfter(d, e, r)
  }

  // ----- what an open leaves -----

  lemma LastTryIs(opens: Opens, asked: int, s: int)
    requires 0 <= asked
    ensures LastTry(opens, asked, s) <==> s == Descend(opens, asked, None).step
    ensures Descend(opens, asked, None).served <==> At(opens, Descend(opens, asked, None).step).Success?
  {
    DescendFrom(opens, asked, asked, None);
    var r := Descend(opens, asked, None);
    var here, there := Passed(opens, s), Passed(opens, r.step);
  }

  lemma RefusedIs(opens: Opens, asked: int, q: int)
    requires 0 <= asked
    ensures var r := Descend(opens, asked, None); LowestRefused(opens, asked, r.step, q) <==> r.refusedAt == Some(q)
  {
    DescendServesHighest(opens, asked);
    var r := Descend(opens, asked, None);
    if r.refusedAt.Some? {
      var p := r.refusedAt.value;
      assert RefusedInPassing(opens, asked, r.step, p);
      var here := RefusedInPassing(opens, asked, r.step, q);
    }
  }

  lemma AskedIs(d: Dev, dev: Device)
    ensures Asked(d, dev) == AskedStep(d, dev)
  {}

  lemma OpenRecord(d: Dev, dev: Device, o: Opening)
    requires BaseOk(d)
    ensures var r := OpenAndStart(d, dev, o);
            r.rt.Some? && Opened(Asked(d, dev), dev, o, r.rt.value) && !r.rt.value.awaitEncode
  {
    hide Descend, Refuse, GeometryOpened, MarkDown;
    DescendServesHighest(o.opens, Asked(d, dev));
  }

  lemma OpenLadder(d: Dev, dev: Device, o: Opening)
    requires BaseOk(d)
    ensures LadderAfterOpen(d, dev, o, OpenAndStart(d, dev, o))
    ensures PeriodAfterOpen(d, dev, o, OpenAndStart(d, dev, o))
  {
    hide OpenFrom, MarkDown, LadderAfterTry;
    if d.geo.Some? && IsOf(d.geo.value, dev) && o.refusal.None? {
      var asked := d.geo.value.step;
      LastTryIs(o.opens, asked, Descend(o.opens, asked, None).step);
      TryLowers(d, dev, o);
      TryShows(d, dev, o);
    } else {
      NoLadder(CheckGeometry(d, dev), dev, AskedStep(d, dev), o);
    }
  }

  lemma NoLadder(d: Dev, dev: Device, asked: int, o: Opening)
    ensures d.geo.None? && asked == 0 ==>
              OpenFrom(d, dev, asked, o).geo.None? && OpenFrom(d, dev, asked, o).geoNotes == d.geoNotes
  {
    hide MarkDown;
  }

  lemma TryLowers(d: Dev, dev: Device, o: Opening)
    requires BaseOk(d) && d.geo.Some?
    ensures var asked := d.geo.value.step;
            LadderAfterTry(d, o, Descend(o.opens, asked, None).step, OpenFrom(d, dev, asked, o))
  {
    hide Descend, MarkDown, GeometryOpened, LowestRefused;
    var asked := d.geo.value.step;
    var a := Descend(o.opens, asked, None);
    forall q ensures LowestRefused(o.opens, asked, a.step, q) <==> a.refusedAt == Some(q) {
      RefusedIs(o.opens, asked, q);
    }
  }

  lemma TryShows(d: Dev, dev: Device, o: Opening)
    requires BaseOk(d) && d.geo.Some? && IsOf(d.geo.value, dev) && o.refusal.None?
    ensures PeriodAfterOpen(d, dev, o, OpenFrom(d, dev, d.geo.value.step, o))
  {
    hide Descend, MarkDown;
    DescendServesHighest(o.opens, d.geo.value.step);
  }

  lemma MarkRaises(d: Dev, cause: Cause)
    requires NotesOk(d)
    ensures var r := MarkDown(d, cause);
            Raised(d.down, d.notes, cause, Outlasts(d.down, cause) && d.Retrying(), r.down, r.notes)
  {}

  /** What an open does to the condition: nothing if it serves, else it raises the record's cause. */
  lemma OpenCause(d: Dev, dev: Device, o: Opening)
    requires BaseOk(d)
    ensures var r := OpenAndStart(d, dev, o);
            if r.IsServing() then r.down == d.down && r.notes == d.notes
            else r.rt.value.cause.Some? &&
                 var c := r.rt.value.cause.value;
                 Raised(d.down, d.notes, c, Outlasts(d.down, c) && d.Retrying(), r.down, r.notes)
  {
    hide Descend, Refuse, GeometryOpened, MarkDown, Raised;
    var d1 := CheckGeometry(d, dev);
    var a := Descend(o.opens, AskedStep(d, dev), None);
    var d2 := if a.refusedAt.Some? then Refuse(d1, a.refusedAt.value) else d1;
    MarkRaises(d1, if o.refusal.Some? then o.refusal.value else OpenFailed);
    MarkRaises(d2, OpenFailed);
  }

  // ----- what each operation leaves -----

  /** What an operation that opens the device leaves, from what the open left in s. */
  lemma TryRecord(d: Dev, e: Event, s: Dev, r: Dev)
    requires Allowed(d, e) && Tries(d, e)
    requires s.rt.Some? && Opened(Asked(d, e.dev), e.dev, e.o, s.rt.value)
    requires r.rt == Some(s.rt.value.(awaitEncode := s.IsServing() && r.fault.Some?))
    ensures RecordAfter(d, e, r)
  {}

  /** What an open does to the ladder depends on the ladder alone. */
  lemma TryLadder(d: Dev, e: Event, c: Dev, s: Dev, r: Dev)
    requires Allowed(d, e) && Tries(d, e)
    requires LadderAfterOpen(c, e.dev, e.o, s) && PeriodAfterOpen(c, e.dev, e.o, s)
    requires c.geo == d.geo && c.geoNotes == d.geoNotes && s.geo == r.geo && s.geoNotes == r.geoNotes
    requires s.IsServing() == r.IsServing() && (s.IsServing() ==> s.rt.value.step == r.rt.value.step)
    ensures LadderAfter(d, e, r)
  {
    if d.geo.Some? && IsOf(d.geo.value, e.dev) && e.o.refusal.None? {
      var last :| LastTry(e.o.opens, d.geo.value.step, last) && LadderAfterTry(c, e.o, last, s);
      assert LadderAfterTry(d, e.o, last, r);
    }
  }

  lemma TryCause(d: Dev, e: Event, s: Dev, r: Dev)
    requires Allowed(d, e) && Tries(d, e) && s.rt.Some? && (s.IsServing() || s.IsDown())
    requires r.rt == Some(s.rt.value.(awaitEncode := s.IsServing() && r.fault.Some?))
    requires s.IsServing() && e.Start? ==>
               r.down.None? && r.fault.None? && r.notes == d.notes + if d.down.Some? then [Clear] else []
    requires s.IsServing() && !e.Start? ==>
               if r.fault.Some? then Raised(d.down, d.notes, Died, false, r.down, r.notes)
               else r.down == d.down && r.notes == d.notes
    requires s.IsDown() ==> s.rt.value.cause.Some?
    requires s.IsDown() ==>
               var c := s.rt.value.cause.value;
               Raised(d.down, d.notes, c, Outlasts(d.down, c) && !Forgotten(e), r.down, r.notes)
    ensures CauseAfter(d, e, r)
  {
    hide Raised, Outlasts;
  }

  /** A restart from a consumed retry state: it serves into a settle, or fails and backs off. */
  lemma AttemptOutcome(d: Dev, dev: Device, o: Opening)
    requires BaseOk(d) && d.retry.Some? && Spent(d.retry.value) && !IsCardIndex(dev.id)
    requires d.fault.Some? ==> d.fault.value.paths != []
    ensures var r, s := AttemptRetry(d, dev, o), OpenAndStart(d, dev, o);
            && s.rt.Some? && r.fault == d.fault && r.geo == s.geo && r.geoNotes == s.geoNotes
            && r.rt == Some(s.rt.value.(awaitEncode := s.IsServing() && d.fault.Some?))
            && (if s.IsServing() then Settles(d.retry, o.now, r.retry)
                else if r.down.Some? && Retryable(r.down.value) then Backs(d.retry, o.now, r.retry)
                else r.retry.None?)
            && (if s.IsServing() && d.fault.Some? then Raised(s.down, s.notes, Died, false, r.down, r.notes)
                else r.down == s.down && r.notes == s.notes)
  {
    hide OpenAndStart, BackoffAt;
    OpenKeepsBase(d, dev, o);
    OpenRecord(d, dev, o);
  }

  lemma ScheduleBacks(d: Dev, dev: Device, now: int)
    ensures var r := ScheduleRetry(d, dev, now);
            if d.down.Some? && Retryable(d.down.value) && !IsCardIndex(dev.id) then Backs(d.retry, now, r.retry)
            else r.retry.None?
  {
    hide BackoffAt;
  }

  lemma StartOutcome(d: Dev, dev: Device, o: Opening)
    requires Inv(d) && Allowed(d, Start(dev, o))
    ensures Outcome(d, Start(dev, o), StartDevice(d, dev, o))
  {
    hide OpenAndStart, ScheduleRetry, Opened, LadderAfterOpen, PeriodAfterOpen, RecordAfter, LadderAfter, CauseAfter,
         Backs;
    var d0, e := d.(retry := None, fault := None), Start(dev, o);
    var s, r := OpenAndStart(d0, dev, o), StartDevice(d, dev, o);
    OpenKeepsBase(d0, dev, o);
    OpenRecord(d0, dev, o);
    OpenLadder(d0, dev, o);
    OpenCause(d0, dev, o);
    ScheduleBacks(s, dev, o.now);
    TryRecord(d, e, s, r);
    TryLadder(d, e, d0, s, r);
    TryCause(d, e, s, r);
  }

  lemma RestartOutcome(d: Dev, dev: Device, o: Opening, reset: bool)
    requires Inv(d) && Allowed(d, Restart(dev, o, reset))
    ensures Outcome(d, Restart(dev, o, reset), RestartFaulted(d, dev, o, reset))
  {
    hide RestartFaulted, Outcome;
    if o.refusal.Some? { RefusedOutcome(d, dev, o, reset); } else { ForcedOutcome(d, dev, o, reset); }
  }

  /** A forced restart that is refused before anything is opened. */
  lemma RefusedOutcome(d: Dev, dev: Device, o: Opening, reset: bool)
    requires Inv(d) && Allowed(d, Restart(dev, o, reset)) && o.refusal.Some?
    ensures Outcome(d, Restart(dev, o, reset), RestartFaulted(d, dev, o, reset))
  {
    hide OpenAndStart, AttemptRetry, ScheduleRetry, Opened, LadderAfterOpen, PeriodAfterOpen, RecordAfter, LadderAfter,
         CauseAfter, Backs, RestartState;
    var d0 := if reset then d.(retry := None) else d;
    var e, s, r := Restart(dev, o, reset), OpenAndStart(d0, dev, o), RestartFaulted(d, dev, o, reset);
    RefusedSkips(d0, dev, o);
    OpenRecord(d0, dev, o);
    OpenLadder(d0, dev, o);
    OpenCause(d0, dev, o);
    ScheduleBacks(s, dev, o.now);
    TryRecord(d, e, s, r);
    TryLadder(d, e, d0, s, r);
    TryCause(d, e, s, r);
  }

  /** One that is not takes the place of any pending attempt. */
  lemma ForcedOutcome(d: Dev, dev: Device, o: Opening, reset: bool)
    requires Inv(d) && Allowed(d, Restart(dev, o, reset)) && o.refusal.None?
    ensures Outcome(d, Restart(dev, o, reset), RestartFaulted(d, dev, o, reset))
  {
    hide OpenAndStart, AttemptRetry, Opened, LadderAfterOpen, PeriodAfterOpen, RecordAfter, LadderAfter, CauseAfter,
         RetryAfter, Backs, Settles;
    var d0 := RestartState(d, reset);
    var e, s, r := Restart(dev, o, reset), OpenAndStart(d0, dev, o), RestartFaulted(d, dev, o, reset);
    OpenKeepsBase(d0, dev, o);
    OpenRecord(d0, dev, o);
    OpenLadder(d0, dev, o);
    OpenCause(d0, dev, o);
    AttemptOutcome(d0, dev, o);
    TryRecord(d, e, s, r);
    TryLadder(d, e, d0, s, r);
    TryCause(d, e, s, r);
    ForcedRetry(d, e, r);
  }

  /** The attempt a forced restart consumes counts, unless the backoff starts over. */
  lemma ForcedRetry(d: Dev, e: Event, r: Dev)
    requires Inv(d) && Allowed(d, e) && e.Restart? && e.o.refusal.None? && (r.IsServing() || r.IsDown())
    requires var before := RestartState(d, e.reset).retry;
             if r.IsServing() then Settles(before, e.o.now, r.retry)
             else if r.down.Some? && Retryable(r.down.value) then Backs(before, e.o.now, r.retry)
             else r.retry.None?
    ensures RetryAfter(d, e, r)
  {
    hide BackoffAt;
  }

  lemma RefusedSkips(d: Dev, dev: Device, o: Opening)
    ensures o.refusal.Some? ==> OpenAndStart(d, dev, o).IsDown() && !OpenAndStart(d, dev, o).rt.value.awaitEncode
  {
    hide CheckGeometry, OpenFrom, MarkDown;
  }

  lemma TickOutcome(d: Dev, dev: Device, now: int, o: Opening)
    requires Inv(d) && Allowed(d, Tick(dev, now, o))
    ensures Outcome(d, Tick(dev, now, o), TickDevice(d, dev, now, o))
  {
    hide AttemptRetry, RecordAfter, LadderAfter, CauseAfter, RetryAfter;
    if Attempts(d, now) { DueOutcome(d, dev, now, o); } else { PassOutcome(d, dev, now, o); }
  }

  /** A timer attempt. */
  lemma DueOutcome(d: Dev, dev: Device, now: int, o: Opening)
    requires Inv(d) && Allowed(d, Tick(dev, now, o)) && Attempts(d, now)
    ensures Outcome(d, Tick(dev, now, o), TickDevice(d, dev, now, o))
  {
    hide OpenAndStart, AttemptRetry, Opened, LadderAfterOpen, PeriodAfterOpen, RecordAfter, LadderAfter, CauseAfter;
    var d0 := d.(retry := Some(d.retry.value.(next := None)));
    var e, s, r := Tick(dev, now, o), OpenAndStart(d0, dev, o), TickDevice(d, dev, now, o);
    OpenKeepsBase(d0, dev, o);
    OpenRecord(d0, dev, o);
    OpenLadder(d0, dev, o);
    OpenCause(d0, dev, o);
    AttemptOutcome(d0, dev, o);
    TryRecord(d, e, s, r);
    TryLadder(d, e, d0, s, r);
    TryCause(d, e, s, r);
  }

  /** A pass that opens nothing. */
  lemma PassOutcome(d: Dev, dev: Device, now: int, o: Opening)
    requires Inv(d) && Allowed(d, Tick(dev, now, o)) && !Attempts(d, now)
    ensures Outcome(d, Tick(dev, now, o), TickDevice(d, dev, now, o))
  {
    hide AttemptRetry, PassAfter, FinishRecovery, Settle, SettleFromEncode, Runtime.EncodedAll;
    var st := d.retry.value;
    var over := st.settleAt.Some? && st.settleAt.value <= now;
    PassRetry(d, dev, now, o);
    if over { SettleOutcome(d, now); }
  }

  /** What the end of a settle window does but to the retry state. */
  lemma SettleOutcome(d: Dev, now: int)
    requires Inv(d) && d.IsServing() && d.retry.Some? && Settling(d.retry.value)
    ensures var r, ends := Settle(d.(retry := Some(d.retry.value.(settleAt := None))), now),
                           d.fault.None? || d.retry.value.encodeSeen;
            && r.rt == d.rt && r.geo == d.geo && r.geoNotes == d.geoNotes
            && r.fault == (if ends then None else d.fault)
            && r.down == (if ends then None else d.down)
            && r.notes == d.notes + if ends && d.down.Some? then [Clear] else []
  {
    hide SettleFromEncode, Runtime.EncodedAll;
  }

  lemma PassRetry(d: Dev, dev: Device, now: int, o: Opening)
    requires Inv(d) && Allowed(d, Tick(dev, now, o)) && !Attempts(d, now)
    ensures PassAfter(d, now, TickDevice(d, dev, now, o))
  {
    hide AttemptRetry, FinishRecovery;
  }

  lemma DieOutcome(d: Dev, e: Event)
    requires Inv(d) && Allowed(d, e) && e.Die?
    ensures Outcome(d, e, Step(d, e))
  {
    hide DieDevice, RecordAfter, CauseAfter, FaultAfter, RetryAfter, LadderAfter;
    DieRecord(d, e);
    DieCause(d, e);
    DieFault(d, e);
    DieRetry(d, e);
    DieLadder(d, e);
  }

  lemma DieRecord(d: Dev, e: Event)
    requires Inv(d) && Allowed(d, e) && e.Die?
    ensures RecordAfter(d, e, Step(d, e))
  {
    hide BackoffAt, Inv, MarkDown, RunEnded, Shortfall;
  }

  lemma DieCause(d: Dev, e: Event)
    requires Inv(d) && Allowed(d, e) && e.Die?
    ensures CauseAfter(d, e, Step(d, e))
  {
    hide BackoffAt, RunEnded, Shortfall, MarkDown;
    var rt, c := d.rt.value, DeathCause(e.err, e.missing);
    var dead := RunEnded(d.(rt := Some(rt.(status := Failed, cause := Some(c)))), rt, e.now);
    MarkRaises(dead, c);
  }

  lemma DieFault(d: Dev, e: Event)
    requires Inv(d) && Allowed(d, e) && e.Die?
    ensures FaultAfter(d, e, Step(d, e))
  {
    hide BackoffAt, RunEnded, Shortfall, MarkDown;
  }

  lemma DieRetry(d: Dev, e: Event)
    requires Inv(d) && Allowed(d, e) && e.Die?
    ensures RetryAfter(d, e, Step(d, e))
  {
    hide ScheduleRetry, Bury, Blame, Backs;
    var rt, c := d.rt.value, DeathCause(e.err, e.missing);
    ScheduleBacks(Bury(d, c, e.now), rt.dev, e.now);
  }

  lemma DieLadder(d: Dev, e: Event)
    requires Inv(d) && Allowed(d, e) && e.Die?
    ensures LadderAfter(d, e, Step(d, e))
  {
    hide Inv, ScheduleRetry, Bury, Blame, LadderAfterDeath;
    var rt, c := d.rt.value, DeathCause(e.err, e.missing);
    var b := Bury(d, c, e.now);
    var s := ScheduleRetry(b, rt.dev, e.now);
    BuryLadder(d, c, e.now);
    ScheduleBacks(b, rt.dev, e.now);
    BlameLadder(d, e, s);
  }

  lemma BuryLadder(d: Dev, cause: Cause, now: int)
    requires Inv(d) && d.IsLive()
    ensures var r, over := Bury(d, cause, now), Earned(d.rt.value, now);
            && r.down.Some? && (Retryable(r.down.value) <==> Retryable(cause))
            && r.geo == (if over then None else d.geo)
            && r.geoNotes == if over then Over(d.geoNotes, Clear) else d.geoNotes
  {
    hide MarkDown;
  }

  lemma BlameLadder(d: Dev, e: Event, s: Dev)
    requires Inv(d) && Allowed(d, e) && e.Die?
    requires s.geo == if Earned(d.rt.value, e.now) then None else d.geo
    requires s.retry.Some? <==> DeathCause(e.err, e.missing) != Disconnected && !IsCardIndex(d.rt.value.dev.id)
    ensures var r := Blame(s, d.rt.value, e.err, e.faultPath);
            r.geoNotes == s.geoNotes && (DeathCause(e.err, e.missing) != Disconnected ==> LadderAfterDeath(d, e, r))
    ensures DeathCause(e.err, e.missing) == Disconnected ==> LadderAfterDeath(d, e, s)
  {}

  /** An operation leaves what is said here of it. */
  lemma StepHasOutcome(d: Dev, e: Event)
    requires Inv(d) && Allowed(d, e)
    ensures Outcome(d, e, Step(d, e))
  {
    hide StartDevice, RestartFaulted, TickDevice, DieDevice, Outcome, Inv;
    match e
    case Start(dev, o) => StartOutcome(d, dev, o);
    case Restart(dev, o, reset) => RestartOutcome(d, dev, o, reset);
    case Tick(dev, now, o) => TickOutcome(d, dev, now, o);
    case Die(_, _, _, _) => DieOutcome(d, e);
    case _ => PlainOutcome(d, e);
  }

  /** A stop, a disposal, an encoded frame. */
  lemma PlainOutcome(d: Dev, e: Event)
    requires Inv(d) && Allowed(d, e) && (e.Stop? || e.Disable? || e.Remove? || e.Encode?)
    ensures Outcome(d, e, Step(d, e))
  {}

  // ----- nothing else fits -----

  lemma OneServes(opens: Opens, asked: int, s: int, q: int)
    requires ServesAt(opens, asked, s) && ServesAt(opens, asked, q)
    ensures s == q
  {
    var here, there := Passed(opens, s), Passed(opens, q);
  }

  lemma OneLastTry(opens: Opens, asked: int, s: int, q: int)
    requires LastTry(opens, asked, s) && LastTry(opens, asked, q)
    ensures s == q
  {
    var here, there := Passed(opens, s), Passed(opens, q);
  }

  lemma OneFault(d: Dev, e: Event, r: Dev, s: Dev)
    requires Allowed(d, e) && FaultAfter(d, e, r) && FaultAfter(d, e, s)
    ensures r.fault == s.fault
  {
    if Blames(d, e) {
      OneFaulted(d.FaultedPaths(), e.faultPath.value, r.fault.value.paths);
      OneFaulted(d.FaultedPaths(), e.faultPath.value, s.fault.value.paths);
    }
  }

  lemma OneFaulted(was: seq<string>, path: string, paths: seq<string>)
    requires was <= paths && (forall p :: p in paths <==> p in was || p == path)
    requires |paths| == |was| + if path in was then 0 else 1
    ensures paths == if path in was then was else was + [path]
  {
    if path !in was {
      assert path in paths;
      assert paths[|was|] == path;
    }
  }

  lemma OneRecord(d: Dev, e: Event, r: Dev, s: Dev)
    requires Allowed(d, e) && RecordAfter(d, e, r) && RecordAfter(d, e, s) && r.fault == s.fault
    ensures r.rt == s.rt
  {
    if Tries(d, e) {
      if r.IsServing() { OneServes(e.o.opens, Asked(d, e.dev), r.rt.value.step, s.rt.value.step); }
    } else if e.Encode? {
      assert r.rt.value.encoded == s.rt.value.encoded;
    }
  }

  lemma OneCause(d: Dev, e: Event, r: Dev, s: Dev)
    requires Allowed(d, e) && CauseAfter(d, e, r) && CauseAfter(d, e, s) && r.fault == s.fault && r.rt == s.rt
    ensures r.down == s.down && r.notes == s.notes
  {}

  lemma OneRetry(d: Dev, e: Event, r: Dev, s: Dev)
    requires Allowed(d, e) && RetryAfter(d, e, r) && RetryAfter(d, e, s) && r.rt == s.rt && r.down == s.down
    ensures r.retry == s.retry
  {
    hide BackoffAt;
  }

  lemma OneLadder(d: Dev, e: Event, r: Dev, s: Dev)
    requires Allowed(d, e) && LadderAfter(d, e, r) && LadderAfter(d, e, s) && r.rt == s.rt
    ensures r.geo == s.geo && r.geoNotes == s.geoNotes
  {
    if Tries(d, e) && d.geo.Some? && IsOf(d.geo.value, e.dev) && e.o.refusal.None? {
      var step := d.geo.value.step;
      var p :| LastTry(e.o.opens, step, p) && LadderAfterTry(d, e.o, p, r);
      var q :| LastTry(e.o.opens, step, q) && LadderAfterTry(d, e.o, q, s);
      OneLastTry(e.o.opens, step, p, q);
      if k :| LowestRefused(e.o.opens, step, p, k) {
        assert r.geo == Some(Below(d.geo.value, k)) == s.geo;
      }
    }
  }

  /** An operation's result is exactly the one described: whatever else a device might be left as does not fit. */
  lemma StepIsOutcome(d: Dev, e: Event, r: Dev)
    requires Inv(d) && Allowed(d, e)
    ensures Outcome(d, e, r) <==> r == Step(d, e)
  {
    hide RecordAfter, CauseAfter, FaultAfter, RetryAfter, LadderAfter, Step;
    StepHasOutcome(d, e);
    if Outcome(d, e, r) {
      var s := Step(d, e);
      OneFault(d, e, r, s);
      OneRecord(d, e, r, s);
      OneCause(d, e, r, s);
      OneRetry(d, e, r, s);
      OneLadder(d, e, r, s);
    }
  }
}
