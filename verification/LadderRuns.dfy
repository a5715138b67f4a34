/** What the ladder of capture periods remembers from run to run. */
module LadderRuns {
  import opened Common
  import opened Config
  import opened Notify
  import opened Geometry
  import opened Lifecycle
  import opened LifecycleInvariant
  import opened LifecycleRuns
  import opened Outcomes

  /** The operations that forget an escalation: an end of a run of an hour or more, an open under another
      capture identity, and the loss of the device from the configuration. */
  predicate Forgets(d: Dev, e: Event) {
    match e
    case Stop(now) => d.rt.Some? && LongRun(d.rt.value, now)
    case Die(_, _, _, now) => d.rt.Some? && LongRun(d.rt.value, now)
    case Start(dev, _) => d.geo.Some? && !EarnedBy(d.geo.value, dev)
    case Restart(dev, _, _) => d.geo.Some? && !EarnedBy(d.geo.value, dev)
    case Tick(dev, now, _) => d.geo.Some? && Attempts(d, now) && !EarnedBy(d.geo.value, dev)
    case Disable(_, _, _) => true
    case Remove => true
    case Encode(_) => false
  }

  predicate LongRun(rt: Runtime, now: int) { rt.started.Some? && now - rt.started.value >= STABLE_RUN }

  /** A death that counts toward the next rung: a shortfall of a run that opened at the rung in state. */
  predicate Counts(d: Dev, e: Event) {
    && e.Die? && e.err.shortfall && !e.err.gone && !e.missing && d.IsLive() && !IsCardIndex(d.rt.value.dev.id)
    && (if d.geo.Some? && !LongRun(d.rt.value, e.now)
        then d.rt.value.step == d.geo.value.step < d.geo.value.ceiling
        else d.rt.value.step == 0)
  }

  /** The rung an operation's open asks for, if it opens the device at all. */
  function Asks(d: Dev, e: Event): Option<int> {
    match e
    case Start(dev, o) => if o.refusal.None? then Some(AskedStep(d, dev)) else None
    case Restart(dev, o, _) => if o.refusal.None? then Some(AskedStep(d, dev)) else None
    case Tick(dev, now, o) => if Attempts(d, now) && o.refusal.None? then Some(AskedStep(d, dev)) else None
    case _ => None
  }

  function OpensOf(e: Event): Opens
    requires e.Start? || e.Restart? || e.Tick?
  {
    e.o.opens
  }

  /** The lowest rung the driver refused in an operation's open. */
  function RefusedRung(d: Dev, e: Event): Option<int> {
    if Asks(d, e).None? then None else Descend(OpensOf(e), Asks(d, e).value, None).refusedAt
  }

  /** An escalation after an open: the ceiling drops below a refused rung, and never rises. */
  predicate Lowered(g: Escalation, after: Option<Escalation>, refusedAt: Option<int>) {
    after.Some? &&
    var h := after.value;
    && h.ceiling <= g.ceiling
    && (refusedAt.Some? ==> h.ceiling < refusedAt.value)
    && (h == g || (h.step <= g.step && h.shortfalls == 0))
  }

  /** One operation on an escalation it does not forget: the ceiling never rises and drops below a refused
      rung; the rung rises only by the second counted shortfall, and by one; and the count follows. */
  lemma LadderStep(d: Dev, e: Event)
    requires Inv(d) && Allowed(d, e) && d.geo.Some? && !Forgets(d, e)
    ensures var g, after := d.geo.value, Step(d, e).geo;
            if !Counts(d, e) then Lowered(g, after, RefusedRung(d, e))
            else if g.shortfalls + 1 == SHORTFALLS
            then after == Some(g.(step := g.step + 1, shortfalls := 0))
            else after == Some(g.(shortfalls := g.shortfalls + 1))
  {
    hide Inv, StartDevice, RestartFaulted, TickDevice, DieDevice, Descend;
    match e
    case Start(dev, o) => LadderStart(d, dev, o);
    case Restart(dev, o, reset) => LadderRestart(d, dev, o, reset);
    case Tick(dev, now, o) => LadderTick(d, dev, now, o);
    case Die(err, faultPath, missing, now) => LadderDeath(d, err, faultPath, missing, now);
    case Stop(_) =>
    case Encode(_) =>
  }

  /** The refusal an open of a device with escalation g would record. */
  function RefusalOf(g: Escalation, o: Opening): Option<int> {
    if o.refusal.Some? then None else Descend(o.opens, g.step, None).refusedAt
  }

  lemma LadderStart(d: Dev, dev: Device, o: Opening)
    requires Inv(d) && d.geo.Some? && EarnedBy(d.geo.value, dev)
    ensures Lowered(d.geo.value, StartDevice(d, dev, o).geo, RefusalOf(d.geo.value, o))
  {
    hide OpenAndStart;
    LadderOpen(d.(retry := None, fault := None), dev, o);
  }

  lemma LadderRestart(d: Dev, dev: Device, o: Opening, reset: bool)
    requires Inv(d) && d.geo.Some? && EarnedBy(d.geo.value, dev)
    ensures Lowered(d.geo.value, RestartFaulted(d, dev, o, reset).geo, RefusalOf(d.geo.value, o))
  {
    hide OpenAndStart;
    LadderOpen(RestartState(d, reset), dev, o);
    LadderOpen(if reset then d.(retry := None) else d, dev, o);
  }

  lemma LadderTick(d: Dev, dev: Device, now: int, o: Opening)
    requires Inv(d) && d.geo.Some? && (Attempts(d, now) ==> EarnedBy(d.geo.value, dev))
    ensures Lowered(d.geo.value, TickDevice(d, dev, now, o).geo,
                    if Attempts(d, now) then RefusalOf(d.geo.value, o) else None)
  {
    hide OpenAndStart;
    if Attempts(d, now) { LadderOpen(d.(retry := Some(d.retry.value.(next := None))), dev, o); }
  }

  lemma LadderDeath(d: Dev, err: PumpError, faultPath: Option<string>, missing: bool, now: int)
    requires Inv(d) && d.IsLive() && d.geo.Some? && !LongRun(d.rt.value, now)
    ensures var r := DieDevice(d, err, faultPath, missing, now);
            && r.geo.Some?
            && (if !Counts(d, Die(err, faultPath, missing, now)) then r.geo == d.geo
                else if d.geo.value.shortfalls + 1 == SHORTFALLS
                then r.geo == Some(d.geo.value.(step := d.geo.value.step + 1, shortfalls := 0))
                else r.geo == Some(d.geo.value.(shortfalls := d.geo.value.shortfalls + 1)))
  {
    hide ReplaceDown;
  }

  lemma LadderOpen(d: Dev, dev: Device, o: Opening)
    requires d.geo.Some? && EarnedBy(d.geo.value, dev) && LadderOk(d)
    ensures Lowered(d.geo.value, OpenAndStart(d, dev, o).geo, RefusalOf(d.geo.value, o))
  {
    hide MarkDown, Descend;
  }

  /** An escalation comes into being only with the first counted shortfall of a run at the default. */
  lemma LadderBirth(d: Dev, e: Event)
    requires Inv(d) && Allowed(d, e) && (d.geo.None? || Forgets(d, e)) && Step(d, e).geo.Some?
    ensures Counts(d, e) && d.rt.value.step == 0
    ensures var h := Step(d, e).geo.value; h.step == 0 && h.shortfalls == 1 && h.ceiling == TOP
  {
    hide Inv, StartDevice, RestartFaulted, TickDevice, DieDevice;
    match e
    case Start(dev, o) => NoBirthAtOpen(d.(retry := None, fault := None), dev, o); BirthAtStart(d, dev, o);
    case Restart(dev, o, reset) => BirthAtRestart(d, dev, o, reset);
    case Tick(dev, now, o) => BirthAtTick(d, dev, now, o);
    case Die(err, faultPath, missing, now) => BirthAtDeath(d, err, faultPath, missing, now);
    case _ =>
  }

  lemma NoBirthAtOpen(d: Dev, dev: Device, o: Opening)
    requires d.geo.None? || !EarnedBy(d.geo.value, dev)
    ensures OpenAndStart(d, dev, o).geo.None?
  {
    hide Descend;
  }

  lemma BirthAtStart(d: Dev, dev: Device, o: Opening)
    ensures StartDevice(d, dev, o).geo == OpenAndStart(d.(retry := None, fault := None), dev, o).geo
  {
    hide OpenAndStart;
  }

  lemma BirthAtRestart(d: Dev, dev: Device, o: Opening, reset: bool)
    requires d.geo.None? || !EarnedBy(d.geo.value, dev)
    ensures RestartFaulted(d, dev, o, reset).geo.None?
  {
    hide OpenAndStart;
    NoBirthAtOpen(RestartState(d, reset), dev, o);
    NoBirthAtOpen(if reset then d.(retry := None) else d, dev, o);
  }

  lemma BirthAtTick(d: Dev, dev: Device, now: int, o: Opening)
    requires d.geo.None? || (Attempts(d, now) && !EarnedBy(d.geo.value, dev))
    ensures TickDevice(d, dev, now, o).geo.None?
  {
    hide OpenAndStart;
    if Attempts(d, now) { NoBirthAtOpen(d.(retry := Some(d.retry.value.(next := None))), dev, o); }
  }

  lemma BirthAtDeath(d: Dev, err: PumpError, faultPath: Option<string>, missing: bool, now: int)
    requires Inv(d) && d.IsLive() && (d.geo.None? || LongRun(d.rt.value, now))
    requires DieDevice(d, err, faultPath, missing, now).geo.Some?
    ensures Counts(d, Die(err, faultPath, missing, now)) && d.rt.value.step == 0
    ensures var h := DieDevice(d, err, faultPath, missing, now).geo.value;
            h.step == 0 && h.shortfalls == 1 && h.ceiling == TOP
  {
    hide ReplaceDown;
  }

  /** The runtime that serves at point n was opened by operation b, at rung s. */
  ghost predicate OpenedAt(run: seq<Event>, b: nat, n: nat, s: int)
    requires n <= |run|
  {
    && b < n && Tries(After(run, b), run[b]) && ServesThrough(run, b + 1, n)
    && ServesAt(run[b].o.opens, Asked(After(run, b), run[b].dev), s)
  }

  /** Every serving runtime goes back to the open that brought it up, and its record carries the rung that opened. */
  lemma {:induction false} OpenedBy(run: seq<Event>, n: nat) returns (b: nat)
    requires IsRun(run) && n <= |run| && After(run, n).IsLive()
    ensures OpenedAt(run, b, n, After(run, n).rt.value.step)
  {
    hide Step, Allowed, Inv, Replay, CauseAfter, FaultAfter, RetryAfter, LadderAfter, Asked, ServesAt;
    StartsBlank(run);
    if n == 0 { assert false; }
    b := n - 1;
    OneStep(run, b);
    StepHasOutcome(After(run, b), run[b]);
    if !Tries(After(run, b), run[b]) {
      StaysOpen(After(run, n - 1), run[n - 1], After(run, n));
      b := OpenedBy(run, n - 1);
    }
  }

  /** A runtime that serves after an operation that opened nothing served before it, at the same rung. */
  lemma StaysOpen(d: Dev, e: Event, r: Dev)
    requires Allowed(d, e) && !Tries(d, e) && RecordAfter(d, e, r) && r.IsLive()
    ensures d.IsLive() && d.rt.value.gen == r.rt.value.gen && d.rt.value.step == r.rt.value.step
  {}

  /** From point m + 1 to point n the device keeps an escalation at one rung with one counted shortfall. */
  ghost predicate CountedOnce(run: seq<Event>, m: nat, n: nat)
    requires m < n <= |run|
  {
    && Counts(After(run, m), run[m]) && After(run, n).geo.Some?
    && After(run, m).rt.value.step == After(run, n).geo.value.step
    && forall j | m < j <= n :: After(run, j).geo.Some? && After(run, j).geo.value.shortfalls == 1
                                && After(run, j).geo.value.step == After(run, n).geo.value.step
  }

  lemma {:induction false} CountHasWitness(run: seq<Event>, n: nat) returns (m: nat)
    requires IsRun(run) && n <= |run| && After(run, n).geo.Some? && After(run, n).geo.value.shortfalls == 1
    ensures m < n && CountedOnce(run, m, n)
  {
    hide Step, Allowed, Inv, Replay;
    StartsBlank(run);
    if n == 0 { assert false; }
    OneStep(run, n - 1);
    var d, e := After(run, n - 1), run[n - 1];
    if d.geo.None? || Forgets(d, e) {
      LadderBirth(d, e);
      m := n - 1;
    } else {
      LadderStep(d, e);
      m := n - 1;
      if !Counts(d, e) { m := CountHasWitness(run, n - 1); }
    }
  }

  /** A rung is raised only by a second shortfall at exactly that rung, the first one having been counted there too,
      with neither forgotten nor reset in between; and both are of runtimes whose open succeeded at that rung. */
  lemma TwoShortfallsPerRung(run: seq<Event>, k: nat)
    requires IsRun(run) && k < |run|
    requires var g, h := After(run, k).geo, After(run, k + 1).geo;
             g.Some? && h.Some? && h.value.step > g.value.step
    ensures Counts(After(run, k), run[k])
    ensures After(run, k + 1).geo.value.step == After(run, k).geo.value.step + 1
    ensures exists b :: OpenedAt(run, b, k, After(run, k).geo.value.step)
    ensures exists m, b | 0 <= b < m < k :: CountedOnce(run, m, k) && OpenedAt(run, b, m, After(run, k).geo.value.step)
  {
    hide Step, Allowed, Replay;
    OneStep(run, k);
    var d, e := After(run, k), run[k];
    if Forgets(d, e) { LadderBirth(d, e); }
    LadderStep(d, e);
    var m := CountHasWitness(run, k);
    OneStep(run, m);
    DeathsAreLive(d, e);
    DeathsAreLive(After(run, m), run[m]);
    var b := OpenedBy(run, k);
    var c := OpenedBy(run, m);
    assert CountedOnce(run, m, k) && OpenedAt(run, c, m, d.geo.value.step);
  }

  lemma DeathsAreLive(d: Dev, e: Event)
    requires Allowed(d, e) && e.Die?
    ensures d.IsLive()
  {}

  /** Once the driver refused a rung, no later open asks for it or a higher one until the escalation is
      forgotten. */
  lemma {:induction false} RefusedRungIsNotAskedAgain(run: seq<Event>, m: nat, k: nat)
    requires IsRun(run) && m < k < |run|
    requires RefusedRung(After(run, m), run[m]).Some?
    requires forall j | m <= j < k :: !Forgets(After(run, j), run[j])
    requires Asks(After(run, k), run[k]).Some?
    ensures Asks(After(run, k), run[k]).value < RefusedRung(After(run, m), run[m]).value
  {
    hide Step, Allowed, Replay;
    OneStep(run, m);
    RefusedIsAboveDefault(After(run, m), run[m]);
    CeilingStaysBelow(run, m, k, RefusedRung(After(run, m), run[m]).value);
    OneStep(run, k);
  }

  lemma RefusedIsAboveDefault(d: Dev, e: Event)
    requires Inv(d) && RefusedRung(d, e).Some?
    ensures d.geo.Some? && RefusedRung(d, e).value >= 1
  {
    DescendServesHighest(OpensOf(e), Asks(d, e).value);
  }

  lemma {:induction false} CeilingStaysBelow(run: seq<Event>, m: nat, k: nat, r: int)
    requires IsRun(run) && m < k <= |run|
    requires RefusedRung(After(run, m), run[m]) == Some(r) && After(run, m).geo.Some?
    requires forall j | m <= j < k :: !Forgets(After(run, j), run[j])
    ensures After(run, k).geo.Some? && After(run, k).geo.value.ceiling < r
  {
    hide Step, Allowed, Replay;
    OneStep(run, k - 1);
    if m < k - 1 { CeilingStaysBelow(run, m, k - 1, r); }
    LadderStep(After(run, k - 1), run[k - 1]);
  }

  /** The capture-period condition is active only while the device's next open asks for a larger period,
      and a serving device with it active runs with one. */
  lemma CapturePeriodConditionIsTrue(run: seq<Event>)
    requires IsRun(run) && Active(Replay(run).geoNotes)
    ensures Replay(run).geo.Some? && Replay(run).geo.value.step >= 1
    ensures Replay(run).IsServing() ==> Replay(run).rt.value.step >= 1
  {
    RunKeepsInv(run);
  }
}
