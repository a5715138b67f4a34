/** What the appliance is checked against: the maps at one device's name as a state of module Lifecycle, the
    trace of operations that explains it, and what each event of the run loop does to a trace. */
module Traces {
  import opened Common
  import opened Config
  import opened Notify
  import opened Geometry
  import opened Lifecycle
  import opened LifecycleInvariant
  import opened LifecycleRuns
  import opened BackoffRuns
  import opened Outcomes
  import opened Reload

  datatype ResolveError = NoError | NoSuchDevice | SeveralDevices | BadDevice | OtherError

  datatype Resolution = Resolution(addr: string, err: ResolveError)

  /** What the host answers during one event: how each id resolves, how each device would open at each
      rung, and how long its open takes. */
  datatype World = World(resolve: string -> Resolution, opens: string -> Opens, took: string -> nat)

  function CauseOf(err: ResolveError): Cause {
    match err
    case NoSuchDevice => NotConnected
    case SeveralDevices => Ambiguous
    case BadDevice => Malformed
    case _ => ResolveFailed
  }

  /** An id is refused for how it resolved, unless it names a card index whose resolution failed for
      another reason than naming no device, several, or nothing valid. */
  predicate ResolveRefused(id: string, err: ResolveError) {
    err != NoError && (!IsCardIndex(id) || err.NoSuchDevice? || err.SeveralDevices? || err.BadDevice?)
  }

  /** Opening o is what the world answers for dev, whose hardware another device holds or does not: where its id
      resolves, what that refuses, how it opens. A card index whose resolution fails for no reason of its own is tried
      all the same. */
  predicate AnswersFor(world: World, dev: Device, held: bool, o: Opening) {
    var res := world.resolve(dev.id);
    && o.addr == res.addr && o.opens == world.opens(dev.name)
    && match res.err
       case NoSuchDevice => o.refusal == Some(NotConnected)
       case SeveralDevices => o.refusal == Some(Ambiguous)
       case BadDevice => o.refusal == Some(Malformed)
       case OtherError =>
         o.refusal == if !IsCardIndex(dev.id) then Some(ResolveFailed) else if held then Some(SameHardware) else None
       case NoError => o.refusal == if held then Some(SameHardware) else None
  }

  // ----- who holds the hardware at a device's turn -----

  /** The record at n is live on the hardware at addr. */
  predicate Captures(devices: map<string, Runtime>, n: string, addr: string) {
    n in devices && devices[n].Live() && devices[n].addr == addr
  }

  /** Another device captures from the hardware d's id resolves to. */
  ghost predicate HeldNow(devices: map<string, Runtime>, d: Device, world: World) {
    var addr := world.resolve(d.id).addr;
    addr != "" && exists n :: n != d.name && Captures(devices, n, addr)
  }

  /** e takes its turn in a pass over c before d: the early names go first, each group in the order of c. */
  predicate Precedes(c: seq<Device>, early: set<string>, e: Device, d: Device) {
    if (e.name in early) != (d.name in early) then e.name in early
    else exists i, j | 0 <= i < j < |c| :: c[i] == e && c[j] == d
  }

  /** Read off the records a pass over c leaves: another device captured from d's hardware at d's turn. It is
      one the pass found capturing and left alone, or one that came up there earlier in the pass. */
  ghost predicate HeldAtTurn(c: seq<Device>, kept: set<string>, early: set<string>, after: map<string, Runtime>,
                             d: Device, world: World)
  {
    var addr := world.resolve(d.id).addr;
    addr != "" && exists e | e in c ::
      e.name != d.name && Captures(after, e.name, addr) && (e.name in kept || Precedes(c, early, e, d))
  }

  /** Where a pass over c stands before the turn of c[i]: it started from the records in start, where only the
      kept devices were live, or those of the early group once that is through; the turns taken since are of
      the group of c[i]. */
  ghost predicate MidPass(c: seq<Device>, kept: set<string>, early: set<string>, start: map<string, Runtime>,
                          mid: map<string, Runtime>, i: nat)
  {
    && i < |c| && (forall n | n in mid && mid[n].Live() :: exists e | e in c :: e.name == n)
    && (forall j, k | 0 <= j < k < |c| :: c[j].name != c[k].name)
    && (forall j | i <= j < |c| :: Lookup(mid, c[j].name) == Lookup(start, c[j].name))
    && (forall j | 0 <= j < i :: Lookup(mid, c[j].name) == Lookup(start, c[j].name)
                                 || (c[j].name in early <==> c[i].name in early))
    && (forall e | e in c && e.name in start && start[e.name].Live() ::
          e.name in kept || (e.name in early && c[i].name !in early))
  }

  /** A turn changes one record, and not that of a kept device. */
  ghost predicate OneTurn(kept: set<string>, mid: map<string, Runtime>, after: map<string, Runtime>, n: string) {
    forall m | m != n || n in kept :: Lookup(after, m) == Lookup(mid, m)
  }

  /** Only the kept devices, and those that take their turn before c[i], can be live when it does. */
  lemma LiveAtTurn(c: seq<Device>, kept: set<string>, early: set<string>, start: map<string, Runtime>,
                   mid: map<string, Runtime>, i: nat, e: Device)
    requires MidPass(c, kept, early, start, mid, i)
    requires e in c && e.name != c[i].name && e.name in mid && mid[e.name].Live()
    ensures e.name in kept || Precedes(c, early, e, c[i])
  {
    var j :| 0 <= j < |c| && c[j] == e;
  }

  /** A device's turn finds its hardware held exactly if the records the turn leaves say so. */
  lemma TurnTaken(c: seq<Device>, kept: set<string>, early: set<string>, start: map<string, Runtime>,
                  mid: map<string, Runtime>, after: map<string, Runtime>, i: nat, world: World)
    requires MidPass(c, kept, early, start, mid, i) && OneTurn(kept, mid, after, c[i].name)
    ensures HeldAtTurn(c, kept, early, after, c[i], world) <==> HeldNow(mid, c[i], world)
  {
    hide Precedes;
    var d, addr := c[i], world.resolve(c[i].id).addr;
    forall n | n != d.name ensures Captures(mid, n, addr) <==> Captures(after, n, addr) {
      assert Lookup(after, n) == Lookup(mid, n);
    }
    if n :| n != d.name && Captures(mid, n, addr) {
      var e :| e in c && e.name == n;
      LiveAtTurn(c, kept, early, start, mid, i, e);
      assert Captures(after, e.name, addr);
    }
  }

  /** c[k] takes its turn before c[i]. */
  predicate TurnOver(c: seq<Device>, early: set<string>, i: nat, k: nat)
    requires i < |c| && k < |c|
  {
    if c[i].name in early then c[k].name in early && k < i else c[k].name in early || k < i
  }

  /** Later turns do not change who held a device's hardware at its own. */
  lemma TurnStands(c: seq<Device>, kept: set<string>, early: set<string>, mid: map<string, Runtime>,
                   after: map<string, Runtime>, i: nat, k: nat, world: World)
    requires forall j, k | 0 <= j < k < |c| :: c[j].name != c[k].name
    requires i < |c| && k < |c| && OneTurn(kept, mid, after, c[i].name)
    requires TurnOver(c, early, i, k)
    ensures HeldAtTurn(c, kept, early, after, c[k], world) <==> HeldAtTurn(c, kept, early, mid, c[k], world)
  {
    var addr := world.resolve(c[k].id).addr;
    forall e | e in c && (e.name in kept || Precedes(c, early, e, c[k]))
      ensures Captures(after, e.name, addr) <==> Captures(mid, e.name, addr)
    {
      assert Lookup(after, e.name) == Lookup(mid, e.name);
    }
  }

  /** One turn of a pass, read off the records it leaves: what it found at c[i], and what every earlier turn did. */
  lemma Turn(c: seq<Device>, kept: set<string>, early: set<string>, start: map<string, Runtime>,
             mid: map<string, Runtime>, after: map<string, Runtime>, i: nat, world: World)
    requires MidPass(c, kept, early, start, mid, i) && OneTurn(kept, mid, after, c[i].name)
    ensures HeldAtTurn(c, kept, early, after, c[i], world) <==> HeldNow(mid, c[i], world)
    ensures forall n | n in after && after[n].Live() :: n == c[i].name || (n in mid && mid[n].Live())
    ensures forall k | 0 <= k < |c| && TurnOver(c, early, i, k) ::
              HeldAtTurn(c, kept, early, after, c[k], world) <==> HeldAtTurn(c, kept, early, mid, c[k], world)
  {
    hide HeldAtTurn, HeldNow;
    forall n | n in after && after[n].Live() && n != c[i].name ensures n in mid && mid[n].Live() {
      assert Lookup(after, n) == Lookup(mid, n);
    }
    TurnTaken(c, kept, early, start, mid, after, i, world);
    forall k | 0 <= k < |c| && TurnOver(c, early, i, k)
      ensures HeldAtTurn(c, kept, early, after, c[k], world) <==> HeldAtTurn(c, kept, early, mid, c[k], world)
    {
      TurnStands(c, kept, early, mid, after, i, k, world);
    }
  }

  /** The enabled devices have the records they had, and no other of c is or was live. */
  predicate SameLive(c: seq<Device>, mid: map<string, Runtime>, after: map<string, Runtime>) {
    forall e | e in c ::
      if e.enabled then Lookup(after, e.name) == Lookup(mid, e.name)
      else !(e.name in after && after[e.name].Live()) && !(e.name in mid && mid[e.name].Live())
  }

  /** Records that are not live hold nothing. */
  lemma DeadRecordsStand(c: seq<Device>, kept: set<string>, early: set<string>, mid: map<string, Runtime>,
                         after: map<string, Runtime>, world: World)
    requires SameLive(c, mid, after)
    ensures forall d | d in c ::
              HeldAtTurn(c, kept, early, after, d, world) <==> HeldAtTurn(c, kept, early, mid, d, world)
  {
    hide Precedes;
    forall d | d in c
      ensures HeldAtTurn(c, kept, early, after, d, world) <==> HeldAtTurn(c, kept, early, mid, d, world)
    {
      var addr := world.resolve(d.id).addr;
      forall e | e in c ensures Captures(after, e.name, addr) <==> Captures(mid, e.name, addr) {
        assert e.enabled ==> Lookup(after, e.name) == Lookup(mid, e.name);
      }
    }
  }

  /** The maps that make up a device's state. */
  datatype Maps = Maps(devices: map<string, Runtime>, downReason: map<string, Cause>, retries: map<string, Retry>,
                       encodeFaults: map<string, Fault>, geometry: map<string, Escalation>,
                       downNotes: map<string, seq<Notice>>, geoNotes: map<string, seq<Notice>>)
  {
    function At(n: string): Dev {
      Dev(Lookup(devices, n), Lookup(downReason, n), Lookup(retries, n), Lookup(encodeFaults, n),
          Lookup(geometry, n), History(downNotes, n), History(geoNotes, n))
    }
  }

  lemma SliceAt(m: Maps, n: string)
    ensures m.At(n).rt == Lookup(m.devices, n) && m.At(n).retry == Lookup(m.retries, n)
    ensures m.At(n).fault == Lookup(m.encodeFaults, n)
  {}

  /** Stores an entry, or deletes it. */
  function Put<V>(m: map<string, V>, n: string, v: Option<V>): map<string, V> {
    if v.Some? then m[n := v.value] else m - {n}
  }

  function History(m: map<string, seq<Notice>>, n: string): seq<Notice> { if n in m then m[n] else [] }

  /** Stands for any opening where a guard does not depend on it. */
  const ANY_OPENING: Opening := Opening(None, "", [Success, Success, Success, Success], 0, 0)

  function TraceOf(trace: map<string, seq<Event>>, n: string): seq<Event> { if n in trace then trace[n] else [] }

  /** Trace t explains state d: it is a run, it ran with the clock, and it leads to d. */
  ghost predicate Explains(t: seq<Event>, d: Dev, clock: int) {
    IsRun(t) && d == Replay(t) && Timed(t) && forall e | e in t && IsTimed(e) :: Ended(e) <= clock
  }

  /** The record a configured device has between events. */
  predicate Listed(v: Dev, d: Device) {
    && v.rt.Some? && v.rt.value.dev == d && !v.rt.value.superseded
    && (v.rt.value.status.Disabled? <==> !d.enabled)
  }

  /** No deadline at or before now is left. */
  predicate Past(v: Dev, now: int) {
    v.retry.Some? ==>
      && (v.retry.value.next.Some? ==> v.retry.value.next.value > now)
      && (v.retry.value.settleAt.Some? ==> v.retry.value.settleAt.value > now)
  }

  /** A pass over the due retries leaves the device listed, and nothing due. */
  lemma TickServes(v: Dev, dev: Device, now: int, o: Opening)
    requires Inv(v) && Listed(v, dev) && v.retry.Some? && now <= o.now
    ensures Allowed(v, Tick(dev, now, o))
    ensures Listed(Step(v, Tick(dev, now, o)), dev) && Past(Step(v, Tick(dev, now, o)), now)
  {
    hide OpenAndStart, AttemptRetry, BackoffAt;
    var st := v.retry.value;
    if !st.awaitEncode && !(st.settleAt.Some? && st.settleAt.value <= now) && st.next.Some? && st.next.value <= now {
      AttemptServes(v.(retry := Some(st.(next := None))), dev, now, o);
    }
  }

  /** A pass leaves the record of a live device alone. */
  lemma TickKeepsLive(v: Dev, dev: Device, now: int, o: Opening)
    requires v.IsLive()
    ensures Step(v, Tick(dev, now, o)).rt == v.rt
  {
    hide Lifecycle.AttemptRetry;
  }

  lemma AttemptListed(v: Dev, d: Device, o: Opening)
    requires d.enabled
    ensures Listed(AttemptRetry(v, d, o), d)
  {
    hide OpenAndStart, Lifecycle.ScheduleRetry, Lifecycle.ReplaceDown;
  }

  lemma AttemptServes(v: Dev, dev: Device, now: int, o: Opening)
    requires v.retry.Some? && v.retry.value.next.None? && dev.enabled && now <= o.now
    ensures Listed(AttemptRetry(v, dev, o), dev) && Past(AttemptRetry(v, dev, o), now)
  {
    hide OpenAndStart, BackoffAt;
    BackoffGrows(v.retry.value.attempts + 1);
  }

  lemma EncodeListed(v: Dev, dev: Device, path: string)
    requires Listed(v, dev)
    ensures Listed(Step(v, Encode(path)), dev)
  {}

  /** A device a save may start: not live, and if it was just stopped, with no fault under the saved
      parameters. */
  predicate Ready(v: Dev, d: Device) {
    d.enabled && !v.IsLive() && (v.IsSuperseded() && v.fault.Some? ==> !ParamsEqual(v.fault.value.dev, d))
  }

  /** A save restarts a faulted device as faulted exactly when it left the device's parameters alone. */
  predicate AsFaulted(v: Dev, d: Device) { v.fault.Some? && ParamsEqual(v.fault.value.dev, d) }

  /** A trace after the stop passes of a save that does not keep the device running. */
  function Halted(t: seq<Event>, v: Dev, now: int): seq<Event> { if v.IsLive() then t + [Event.Stop(now)] else t }

  /** The records once the named runtimes were told to stop. */
  function Superseded(m: map<string, Runtime>, done: set<string>): map<string, Runtime> {
    map n | n in m :: if n in done then m[n].(superseded := true) else m[n]
  }

  predicate SupersededAt(m: map<string, Runtime>, done: set<string>, n: string) {
    var s := Superseded(m, done);
    && (n in s <==> n in m)
    && (n in s ==> s[n] == if n in done then m[n].(superseded := true) else m[n])
  }

  lemma SupersededIs(m: map<string, Runtime>, done: set<string>, n: string)
    ensures SupersededAt(m, done, n)
  {}

  lemma NoneSuperseded(m: map<string, Runtime>)
    ensures Superseded(m, {}) == m
  {}

  lemma MoreSuperseded(m: map<string, Runtime>, done: set<string>, n: string)
    ensures SupersededAt(m, done, n)
    ensures Superseded(Superseded(m, done), {n}) == Superseded(m, done + {n})
  {}

  lemma SupersededTwice(m: map<string, Runtime>, a: set<string>, b: set<string>)
    ensures Superseded(Superseded(m, a), b) == Superseded(m, a + b)
  {}

  /** What a save does to a device it wants serving: nothing while it runs with the saved parameters; else
      it is restarted, as faulted exactly when its fault is under those parameters. */
  ghost predicate Restored(v: Dev, t: seq<Event>, after: seq<Event>, d: Device, now: int, world: World, held: bool) {
    if v.IsLive() && ParamsEqual(v.rt.value.dev, d) then after == t
    else if AsFaulted(v, d) && !v.IsLive()
    then exists o :: after == t + [Restart(d, o, true)] && AnswersFor(world, d, held, o)
    else exists o :: after == Halted(t, v, now) + [Start(d, o)] && AnswersFor(world, d, held, o)
  }

  /** Started by a save, from v to w: as faulted exactly when its fault is under the saved parameters. */
  ghost predicate Launched(v: Dev, t: seq<Event>, w: Dev, after: seq<Event>, d: Device, world: World, held: bool) {
    && Listed(w, d)
    && if AsFaulted(v, d) then exists o :: after == t + [Restart(d, o, true)] && AnswersFor(world, d, held, o)
       else exists o :: after == t + [Start(d, o)] && AnswersFor(world, d, held, o)
  }

  /** A device the configuration disables: its record says so. */
  ghost predicate TurnedOff(w: Dev, t: seq<Event>, after: seq<Event>, d: Device) {
    Listed(w, d) && exists gen, addr :: after == t + [Event.Disable(d, gen, addr)]
  }

  /** A name the configuration does not list: its record is dropped if there was one. */
  predicate Dropped(v: Dev, w: Dev, t: seq<Event>, after: seq<Event>) {
    w.rt.None? && after == t + if v.rt.Some? then [Event.Remove] else []
  }

  /** What a hardware change does to an enabled device: nothing unless it is down under a stable id; else it
      is restarted, as faulted while a fault is on record. */
  ghost predicate Revived(v: Dev, t: seq<Event>, after: seq<Event>, d: Device, world: World, held: bool) {
    if IsCardIndex(d.id) || !v.IsDown() then after == t
    else if v.fault.Some? then exists o :: after == t + [Restart(d, o, false)] && AnswersFor(world, d, held, o)
    else exists o :: after == t + [Start(d, o)] && AnswersFor(world, d, held, o)
  }

  /** What a pass over the due retries does to a device, from v to w: nothing without a retry, else one share of the
      pass, an attempt if one is due. */
  ghost predicate Ticked(v: Dev, w: Dev, t: seq<Event>, after: seq<Event>, d: Device, now: int, world: World,
                         held: bool)
  {
    if v.retry.None? then after == t && w == v
    else exists o :: after == t + [Tick(d, now, o)] && TickedBy(v, w, d, now, o, world, held)
  }

  ghost predicate TickedBy(v: Dev, w: Dev, d: Device, now: int, o: Opening, world: World, held: bool) {
    && now <= o.now && (Attempts(v, now) ==> AnswersFor(world, d, held, o))
    && Allowed(v, Tick(d, now, o)) && Outcome(v, Tick(d, now, o), w)
  }

  /** How a pass that attempts nothing leaves the retry state. */
  lemma TickedMoves(v: Dev, w: Dev, t: seq<Event>, after: seq<Event>, d: Device, now: int, world: World, held: bool)
    requires Ticked(v, w, t, after, d, now, world, held) && v.retry.Some? && !Attempts(v, now)
    ensures v.rt.Some? && Moves(v.retry.value, v.rt.value, v.FaultedPaths(), now, w.retry)
  {
    hide RecordAfter, CauseAfter, FaultAfter, LadderAfter, Moves, AnswersFor;
  }

  lemma DownAllows(v: Dev, d: Device)
    requires Inv(v) && Listed(v, d) && v.IsDown() && d.enabled
    ensures v.FaultedPaths() != [] <==> v.fault.Some?
    ensures if v.fault.Some? then Allowed(v, Restart(d, ANY_OPENING, false)) else Allowed(v, Start(d, ANY_OPENING))
  {}

  /** A record kept under its device's own name, as listed. */
  predicate SelfListed(v: Dev, n: string) {
    v.rt.Some? ==> v.rt.value.dev.name == n && Listed(v, v.rt.value.dev)
  }

  /** What the stop passes leave of a device the save wants serving: w, from v. */
  predicate PausedFrom(v: Dev, w: Dev, d: Device) {
    if v.IsLive() && ParamsEqual(v.rt.value.dev, d) then Listed(w, d)
    else Ready(w, d) && (AsFaulted(w, d) <==> AsFaulted(v, d) && !v.IsLive())
  }

  lemma StopsWhatChanged(v: Dev, d: Device, c: seq<Device>, running: map<string, Device>, now: int)
    requires Config.Valid(c) && d in c && d.enabled && Inv(v) && SelfListed(v, d.name)
    requires d.name in running <==> v.IsLive()
    requires d.name in running ==> running[d.name] == v.rt.value.dev
    ensures Keeps(running, c, d.name) <==> v.IsLive() && ParamsEqual(v.rt.value.dev, d)
    ensures PausedFrom(v, if v.IsLive() && !Keeps(running, c, d.name) then StopDevice(v, now) else v, d)
  {
    hide Config.Valid;
    forall e | e in c && e.name == d.name ensures e == d { SameName(c, d, e); }
    if v.IsLive() && !ParamsEqual(v.rt.value.dev, d) { StoppedReady(v, d, now); }
  }

  lemma Unwanted(running: map<string, Device>, c: seq<Device>, n: string)
    ensures !WantedIn(c, n) ==> !Keeps(running, c, n)
  {}

  lemma StopKeepsRecord(v: Dev, now: int)
    ensures StopDevice(v, now).rt.Some? <==> v.rt.Some?
  {}

  lemma ReadyAllows(v: Dev, d: Device)
    requires Inv(v) && Ready(v, d)
    ensures if AsFaulted(v, d) then Allowed(v, Restart(d, ANY_OPENING, true)) else Allowed(v, Start(d, ANY_OPENING))
  {}

  lemma LaunchListed(v: Dev, d: Device, o: Opening, reset: bool)
    requires d.enabled
    ensures Listed(Step(v, Start(d, o)), d) && Listed(Step(v, Restart(d, o, reset)), d)
  {
    hide OpenAndStart, AttemptRetry, Lifecycle.ScheduleRetry, Lifecycle.FinishRecovery;
    AttemptListed(RestartState(v, reset), d, o);
  }

  /** A running device stopped for a change of its parameters is ready to be started with them. */
  lemma StoppedReady(v: Dev, d: Device, now: int)
    requires Inv(v) && v.IsLive() && d.enabled && !ParamsEqual(v.rt.value.dev, d)
    ensures Ready(StopDevice(v, now), d) && !AsFaulted(StopDevice(v, now), d)
  {}

  predicate LiveListedIn(v: Dev, c: seq<Device>) { v.IsLive() ==> v.rt.value.dev in c && v.rt.value.dev.enabled }

  /** A death leaves the device listed. */
  lemma DeathListed(v: Dev, dev: Device, e: Event)
    requires Inv(v) && Listed(v, dev) && e.Die? && Allowed(v, e)
    ensures Listed(Step(v, e), dev)
  {}

  /** What a death leaves of the device's encode fault: one that stays on the backoff adds the stream it names to those
      on record, under the parameters it died with; any other leaves the fault as it was. */
  ghost predicate Blamed(was: Option<Fault>, dev: Device, err: PumpError, faultPath: Option<string>, missing: bool,
                         now: Option<Fault>)
  {
    var paths := if was.Some? then was.value.paths else [];
    if faultPath.Some? && !err.gone && !missing && !IsCardIndex(dev.id) then
      && now.Some? && now.value.dev == dev && paths <= now.value.paths
      && forall p :: p in now.value.paths <==> p in paths || p == faultPath.value
    else now == was
  }

  lemma DeathBlames(v: Dev, w: Dev, err: PumpError, faultPath: Option<string>, missing: bool, now: int)
    requires Allowed(v, Die(err, faultPath, missing, now)) && Outcome(v, Die(err, faultPath, missing, now), w)
    ensures v.rt.Some? && Blamed(v.fault, v.rt.value.dev, err, faultPath, missing, w.fault)
  {
    hide RecordAfter, CauseAfter, RetryAfter, LadderAfter;
  }

  /** What a pass over the due retries drops of a name that is not an enabled configured device. */
  function Pruned(v: Dev, enabled: bool): Dev {
    if enabled then v
    else
      var w := v.(retry := None, fault := None);
      if w.geo.Some? then DropGeometry(w) else w
  }

  lemma TraceGrows(t: seq<Event>, d: Dev, clock: int, e: Event, later: int)
    requires Explains(t, d, clock) && Allowed(d, e) && clock <= later
    requires IsTimed(e) ==> clock <= Ended(e) <= later && Began(e) <= Ended(e)
    ensures Explains(t + [e], Step(d, e), later)
  {
    hide Allowed, IsTimed, Ended, Began;
    RunGrows(t, e);
    hide Step, IsRun, Replay;
  }

  lemma TraceWaits(t: seq<Event>, d: Dev, clock: int, later: int)
    requires Explains(t, d, clock) && clock <= later
    ensures Explains(t, d, later)
  {
    hide IsRun, Timed;
  }

  lemma RunGrows(t: seq<Event>, e: Event)
    requires IsRun(t) && Allowed(Replay(t), e)
    ensures IsRun(t + [e]) && Replay(t + [e]) == Step(Replay(t), e)
  {
    hide Step, Allowed;
    assert (t + [e])[..|t|] == t;
    forall i | 0 <= i < |t| + 1 ensures Allowed(Replay((t + [e])[..i]), (t + [e])[i]) {
      assert i < |t| ==> (t + [e])[..i] == t[..i];
    }
  }
}
