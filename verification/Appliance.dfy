/** The appliance: the maps the run loop owns, updated in place by its four events. Every operation it
    performs on a device is recorded in that device's trace, and the maps at a name are at all times what
    the functions of module Lifecycle make of that trace. */
module RunLoop {
  import opened Common
  import opened Config
  import opened Notify
  import opened Geometry
  import opened Lifecycle
  import opened LifecycleInvariant
  import opened LifecycleRuns
  import opened BackoffRuns
  import opened Pumps
  import opened Outcomes
  import opened Reload
  import opened Traces

  class Appliance {
    var cfg: seq<Device>
    var hw: map<string, Resolution>
    var devices: map<string, Runtime>
    var downReason: map<string, Cause>
    var retries: map<string, Retry>
    var encodeFaults: map<string, Fault>
    var geometry: map<string, Escalation>
    /** The notification center's histories of the down key and the capture-period key of each device. */
    var downNotes: map<string, seq<Notice>>
    var geoNotes: map<string, seq<Notice>>
    /** The count of live pumps, and the runtimes told to stop whose pump has yet to report. */
    var alive: int
    var stopping: set<nat>
    var mounted: map<string, Track>
    /** The deadline the retry timer was last armed for, the timer itself, and its pending signal. */
    var retryAt: Option<int>
    var timerAt: Option<int>
    var retryDue: bool
    var clock: int
    var nextGen: nat
    ghost var trace: map<string, seq<Event>>

    // ----- abstraction and invariants -----

    function Slices(): Maps
      reads this`devices, this`downReason, this`retries, this`encodeFaults, this`geometry, this`downNotes, this`geoNotes
    {
      Maps(devices, downReason, retries, encodeFaults, geometry, downNotes, geoNotes)
    }

    function View(n: string): Dev
      reads this`devices, this`downReason, this`retries, this`encodeFaults, this`geometry, this`downNotes, this`geoNotes
    {
      Slices().At(n)
    }

    /** What the maps hold at n is what its view says. */
    lemma ViewAt(n: string)
      ensures View(n).rt == Lookup(devices, n) && View(n).down == Lookup(downReason, n)
      ensures View(n).retry == Lookup(retries, n) && View(n).fault == Lookup(encodeFaults, n)
      ensures View(n).geo == Lookup(geometry, n)
    {}

    lemma RecordViews()
      ensures forall n :: View(n).rt == Lookup(devices, n)
    {
      forall n ensures View(n).rt == Lookup(devices, n) { ViewAt(n); }
    }

    lemma LiveView(n: string)
      ensures IsLive(n) <==> View(n).IsLive()
    {
      ViewAt(n);
    }

    ghost function Trace(n: string): seq<Event>
      reads this`trace
    {
      TraceOf(trace, n)
    }

    /** The pump bookkeeping: records, counters and mounted paths. */
    function Pumps(): Board
      reads this`devices, this`stopping, this`alive, this`mounted, this`nextGen
    {
      Board(devices, stopping, alive, mounted, nextGen)
    }

    predicate IsLive(n: string)
      reads this`devices
    {
      n in devices && devices[n].Live()
    }

    /** The maps at every name are what its trace makes of them, and the traces run with the clock. */
    ghost predicate Follows()
      reads this`devices, this`downReason, this`retries, this`encodeFaults, this`geometry, this`downNotes, this`geoNotes
      reads this`trace, this`clock
    {
      forall n :: Explains(Trace(n), View(n), clock)
    }

    ghost predicate Explained(m: Maps, now: int)
      reads this`trace
    {
      forall n :: Explains(Trace(n), m.At(n), now)
    }

    ghost predicate TimerOk()
      reads this`retryAt, this`timerAt, this`retryDue
    {
      retryAt.Some? ==> timerAt == retryAt || retryDue
    }

    /** Holds at every step of every event. */
    ghost predicate Base()
      reads this`devices, this`downReason, this`retries, this`encodeFaults, this`geometry, this`downNotes, this`geoNotes
      reads this`trace, this`clock, this`stopping, this`alive, this`mounted, this`nextGen
      reads this`retryAt, this`timerAt, this`retryDue
    {
      Follows() && BoardOk(Pumps()) && TimerOk()
    }

    static predicate IsDeadline(st: Retry, t: int) {
      st.next == Some(t) || st.settleAt == Some(t)
    }

    /** No deadline is missed: the timer is armed at or before each, or its signal is already pending. */
    ghost predicate Covered()
      reads this`retries, this`timerAt, this`retryDue
    {
      forall n, t | n in retries && IsDeadline(retries[n], t) ::
        retryDue || (timerAt.Some? && timerAt.value <= t)
    }

    /** The records match a configuration: one each, disabled iff it is, and none left stopped. */
    ghost predicate RecordsOk(c: seq<Device>)
      reads this`devices, this`downReason, this`retries, this`encodeFaults, this`geometry, this`downNotes, this`geoNotes
    {
      && (forall d | d in c :: Listed(View(d.name), d))
      && (forall n :: View(n).rt.Some? ==> n in Names(c))
    }

    /** Every live device is one the configuration wants serving. */
    ghost predicate LiveIn(c: seq<Device>)
      reads this`devices
    {
      forall n | IsLive(n) :: devices[n].dev in c && devices[n].dev.enabled
    }

    /** Holds between events. */
    ghost predicate Valid()
      reads this
    {
      Base() && Config.Valid(cfg) && RecordsOk(cfg) && Covered()
    }

    constructor ()
      ensures Valid() && cfg == [] && alive == 0 && mounted == map[] && clock == 0
    {
      cfg, hw, devices, downReason, retries := [], map[], map[], map[], map[];
      encodeFaults, geometry, downNotes, geoNotes := map[], map[], map[], map[];
      alive, stopping, mounted := 0, {}, map[];
      retryAt, timerAt, retryDue, clock, nextGen := None, None, false, 0, 0;
      trace := map[];
    }

    /** What a device's trace says of it holds of the maps. */
    lemma ViewInv(n: string)
      requires Follows()
      ensures Inv(View(n))
    {
      assert Explains(Trace(n), View(n), clock);
      RunKeepsInv(Trace(n));
    }

    // ----- single entries -----

    method SetRecord(name: string, rt: Option<Runtime>)
      modifies `devices
      ensures View(name) == old(View(name)).(rt := rt)
      ensures forall m | m != name :: View(m) == old(View(m))
      ensures devices == Put(old(devices), name, rt)
    {
      devices := Put(devices, name, rt);
    }

    method SetRetry(name: string, st: Option<Retry>)
      modifies `retries
      ensures View(name) == old(View(name)).(retry := st)
      ensures forall m | m != name :: View(m) == old(View(m))
      ensures retries == Put(old(retries), name, st)
    {
      retries := Put(retries, name, st);
    }

    method SetFault(name: string, f: Option<Fault>)
      modifies `encodeFaults
      ensures View(name) == old(View(name)).(fault := f)
      ensures forall m | m != name :: View(m) == old(View(m))
    {
      encodeFaults := Put(encodeFaults, name, f);
    }

    method ForgetOutage(name: string)
      modifies `retries, `encodeFaults
      ensures View(name) == old(View(name)).(retry := None, fault := None)
      ensures forall m | m != name :: View(m) == old(View(m))
    {
      retries := retries - {name};
      encodeFaults := encodeFaults - {name};
    }

    method SetDown(name: string, cause: Option<Cause>, log: seq<Notice>)
      modifies `downReason, `downNotes
      ensures View(name) == old(View(name)).(down := cause, notes := log)
      ensures forall m | m != name :: View(m) == old(View(m))
    {
      downReason := Put(downReason, name, cause);
      downNotes := downNotes[name := log];
    }

    // ----- the down condition -----

    method MarkDown(name: string, cause: Cause)
      modifies `downReason, `downNotes
      ensures View(name) == Lifecycle.MarkDown(old(View(name)), cause)
      ensures forall m | m != name :: View(m) == old(View(m))
    {
      if name in downReason && !SameCondition(downReason[name], cause) && Retrying(name)
         && Retryable(downReason[name]) && Retryable(cause)
      {
        return;
      }
      ReplaceDown(name, cause);
    }

    predicate Retrying(name: string)
      reads this`retries
    {
      name in retries && retries[name].recoveredAt.None?
    }

    method ReplaceDown(name: string, cause: Cause)
      modifies `downReason, `downNotes
      ensures View(name) == Lifecycle.ReplaceDown(old(View(name)), cause)
      ensures forall m | m != name :: View(m) == old(View(m))
    {
      var log := History(downNotes, name);
      if name in downReason && SameCondition(downReason[name], cause) {
        SetDown(name, Some(cause), Rewrite(log));
        return;
      }
      if name in downReason { log := End(log, Resolve); }
      SetDown(name, Some(cause), Raise(log));
    }

    method FinishRecovery(name: string)
      modifies `downReason, `downNotes
      ensures View(name) == Lifecycle.FinishRecovery(old(View(name)))
      ensures forall m | m != name :: View(m) == old(View(m))
    {
      if name !in downReason { return; }
      SetDown(name, None, End(History(downNotes, name), Clear));
    }

    // ----- the retry timer -----

    /** The earliest deadline of all, None when there is none. */
    static ghost predicate IsEarliest(m: map<string, Retry>, due: Option<int>) {
      && (forall n, t | n in m && IsDeadline(m[n], t) :: due.Some? && due.value <= t)
      && (due.Some? ==> exists n :: n in m && IsDeadline(m[n], due.value))
    }

    method EarliestDeadline() returns (due: Option<int>)
      ensures IsEarliest(retries, due)
    {
      due := None;
      var left := retries.Keys;
      while left != {}
        invariant left <= retries.Keys
        invariant forall n, t | n in retries && n !in left && IsDeadline(retries[n], t) :: due.Some? && due.value <= t
        invariant due.Some? ==> exists n :: n in retries && IsDeadline(retries[n], due.value)
        decreases |left|
      {
        var n :| n in left;
        left := left - {n};
        due := Sooner(Sooner(due, retries[n].next), retries[n].settleAt);
      }
    }

    static function Sooner(a: Option<int>, b: Option<int>): Option<int> {
      if b.Some? && (a.None? || b.value < a.value) then b else a
    }

    method ArmRetryTimer()
      requires TimerOk()
      modifies `retryAt, `timerAt
      ensures TimerOk() && Covered() && IsEarliest(retries, retryAt)
    {
      var due := EarliestDeadline();
      if due == retryAt { return; }
      retryAt := due;
      timerAt := due;
    }

    method ScheduleRetry(dev: Device, now: int)
      requires TimerOk()
      modifies `retries, `retryAt, `timerAt
      ensures View(dev.name) == Lifecycle.ScheduleRetry(old(View(dev.name)), dev, now)
      ensures forall m | m != dev.name :: View(m) == old(View(m))
      ensures TimerOk() && Covered()
    {
      hide BackoffAt, Covered, IsEarliest;
      var name := dev.name;
      if IsCardIndex(dev.id) || name !in downReason || !Retryable(downReason[name]) {
        DropRetry(name);
        return;
      }
      var st := if name in retries then retries[name] else FRESH;
      if st.recoveredAt.Some? {
        if now - st.recoveredAt.value >= RETRY_RESET_AFTER { st := st.(attempts := 0); }
        st := st.(failures := 0);
      }
      st := st.(recoveredAt := None, settleAt := None, encodeSeen := false, awaitEncode := false);
      st := st.(attempts := st.attempts + 1, failures := st.failures + 1);
      st := st.(next := Some(now + BackoffDelay(st.attempts)));
      SetRetry(name, Some(st));
      ArmRetryTimer();
    }

    method DropRetry(name: string)
      requires TimerOk()
      modifies `retries, `retryAt, `timerAt
      ensures View(name) == old(View(name)).(retry := None)
      ensures forall m | m != name :: View(m) == old(View(m))
      ensures TimerOk() && Covered()
    {
      SetRetry(name, None);
      ArmRetryTimer();
    }

    // ----- the capture geometry -----

    method ClearGeometry(name: string)
      modifies `geoNotes
      ensures View(name) == old(View(name)).(geoNotes := End(old(View(name)).geoNotes, Clear))
      ensures forall m | m != name :: View(m) == old(View(m))
    {
      geoNotes := geoNotes[name := End(History(geoNotes, name), Clear)];
    }

    method DropGeometry(name: string)
      modifies `geometry, `geoNotes
      ensures View(name) == Lifecycle.DropGeometry(old(View(name)))
      ensures forall m | m != name :: View(m) == old(View(m))
    {
      geometry := geometry - {name};
      geoNotes := geoNotes[name := End(History(geoNotes, name), Resolve)];
    }

    method GeometryStep(dev: Device) returns (asked: int)
      modifies `geometry, `geoNotes
      ensures asked == AskedStep(old(View(dev.name)), dev)
      ensures View(dev.name) == CheckGeometry(old(View(dev.name)), dev)
      ensures forall m | m != dev.name :: View(m) == old(View(m))
    {
      if dev.name !in geometry { return 0; }
      if !EarnedBy(geometry[dev.name], dev) {
        DropGeometry(dev.name);
        return 0;
      }
      return geometry[dev.name].step;
    }

    method GeometryRunEnded(rt: Runtime, now: int)
      modifies `geometry, `geoNotes
      ensures View(rt.dev.name) == RunEnded(old(View(rt.dev.name)), rt, now)
      ensures forall m | m != rt.dev.name :: View(m) == old(View(m))
    {
      var name := rt.dev.name;
      if name !in geometry || rt.started.None? { return; }
      if now - rt.started.value < STABLE_RUN { return; }
      var step := geometry[name].step;
      geometry := geometry - {name};
      if step == 0 { return; }
      ClearGeometry(name);
    }

    method GeometryShortfall(dev: Device, openedStep: int)
      modifies `geometry
      ensures View(dev.name) == Shortfall(old(View(dev.name)), dev, openedStep)
      ensures forall m | m != dev.name :: View(m) == old(View(m))
    {
      var name := dev.name;
      if name !in geometry {
        if openedStep != 0 { return; }
        geometry := geometry[name := Escalation(dev.id, dev.rate, dev.ChannelUnion(), 0, TOP, 0)];
      }
      var st := geometry[name];
      if openedStep != st.step || st.step >= st.ceiling { return; }
      st := st.(shortfalls := st.shortfalls + 1);
      if st.shortfalls >= SHORTFALLS {
        st := st.(step := st.step + 1, shortfalls := 0);
      }
      geometry := geometry[name := st];
    }

    method GeometryRefuse(name: string, refusedAt: int)
      modifies `geometry, `geoNotes
      ensures View(name) == Refuse(old(View(name)), refusedAt)
      ensures forall m | m != name :: View(m) == old(View(m))
    {
      if name !in geometry { return; }
      var st := geometry[name];
      st := st.(ceiling := Min(st.ceiling, refusedAt - 1));
      st := st.(step := Min(st.step, st.ceiling), shortfalls := 0);
      geometry := geometry[name := st];
      if st.ceiling == 0 { ClearGeometry(name); }
    }

    method GeometryOpened(name: string, got: int, asked: int)
      modifies `geoNotes
      ensures View(name) == Lifecycle.GeometryOpened(old(View(name)), got, asked)
      ensures forall m | m != name :: View(m) == old(View(m))
    {
      if name !in geometry { return; }
      if got == 0 {
        ClearGeometry(name);
        return;
      }
      if got < asked && geometry[name].ceiling >= asked { return; }
      var log := History(geoNotes, name);
      if !Active(log) {
        geoNotes := geoNotes[name := Raise(log)];
      } else {
        geoNotes := geoNotes[name := Rewrite(log)];
      }
    }

    // ----- hardware -----

    method HardwareOwner(addr: string, name: string) returns (owner: Option<string>)
      ensures owner.Some? <==> Pumps().Owned(addr, name)
      ensures owner.Some? ==> owner.value != name && IsLive(owner.value) && devices[owner.value].addr == addr
    {
      if addr == "" { return None; }
      var left := devices.Keys;
      while left != {}
        invariant left <= devices.Keys
        invariant forall other | other != name && IsLive(other) && devices[other].addr == addr :: other in left
        decreases |left|
      {
        var other :| other in left;
        if other != name && !devices[other].superseded && devices[other].addr == addr
           && devices[other].status.Serving?
        {
          return Some(other);
        }
        left := left - {other};
      }
      return None;
    }

    function Resolved(id: string): Resolution
      reads this`hw
    {
      if id in hw then hw[id] else Resolution("", NoError)
    }

    method RefreshHardware(c: seq<Device>, world: World)
      modifies `hw
      ensures Refreshed(c, world)
    {
      var found: map<string, Resolution> := map[];
      for i := 0 to |c|
        invariant forall id | id in found :: found[id] == world.resolve(id)
        invariant forall j | 0 <= j < i :: c[j].id in found
      {
        var id := c[i].id;
        if id in found { continue; }
        found := found[id := world.resolve(id)];
      }
      hw := found;
    }

    /** Why an open of dev is refused before anything is opened, if it is. */
    ghost function Refusal(dev: Device): Option<Cause>
      reads this`hw, this`devices, this`stopping, this`alive, this`mounted, this`nextGen
    {
      var res := Resolved(dev.id);
      if ResolveRefused(dev.id, res.err) then Some(CauseOf(res.err))
      else if Pumps().Owned(res.addr, dev.name) then Some(SameHardware)
      else None
    }

    /** Another device captures from the hardware dev's id resolves to. */
    ghost predicate Held(dev: Device, world: World)
      reads this`devices
    {
      HeldNow(devices, dev, world)
    }

    lemma HeldIsOwned(dev: Device, world: World)
      ensures Held(dev, world) <==> Pumps().Owned(world.resolve(dev.id).addr, dev.name)
    {
      var addr := world.resolve(dev.id).addr;
      if n :| n != dev.name && Captures(devices, n, addr) { assert Pumps().IsLive(n); }
      if n :| n != dev.name && Pumps().IsLive(n) && devices[n].addr == addr { assert Captures(devices, n, addr); }
    }

    method OpenRefused(dev: Device) returns (refused: bool)
      ensures refused <==> Refusal(dev).Some?
    {
      var res := Resolved(dev.id);
      if ResolveRefused(dev.id, res.err) { return true; }
      var owner := HardwareOwner(res.addr, dev.name);
      return owner.Some?;
    }

    // ----- opening and stopping -----

    method AddTracks(rt: Runtime)
      modifies `mounted
      ensures mounted == old(mounted) + Tracks(rt)
    {
      var dev, gen := rt.dev, rt.gen;
      for i := 0 to |dev.streams|
        invariant forall p :: p in mounted <==> p in old(mounted) || exists j | 0 <= j < i :: dev.streams[j].path == p
        invariant forall p | p in mounted ::
          mounted[p] == (if exists j | 0 <= j < i :: dev.streams[j].path == p
                         then Track(dev.name, gen) else old(mounted)[p])
      {
        mounted := mounted[dev.streams[i].path := Track(dev.name, gen)];
      }
      forall p ensures p in dev.Paths() <==> exists j | 0 <= j < |dev.streams| :: dev.streams[j].path == p {
        if p in dev.Paths() { var s :| s in dev.streams && s.path == p; }
      }
    }

    method RemoveTracks(dev: Device)
      modifies `mounted
      ensures mounted == old(mounted) - dev.Paths()
    {
      for i := 0 to |dev.streams|
        invariant forall p :: p in mounted <==> p in old(mounted) && forall j | 0 <= j < i :: dev.streams[j].path != p
        invariant forall p | p in mounted :: mounted[p] == old(mounted)[p]
      {
        mounted := mounted - {dev.streams[i].path};
      }
      forall p ensures p in dev.Paths() <==> exists j | 0 <= j < |dev.streams| :: dev.streams[j].path == p {
        if p in dev.Paths() { var s :| s in dev.streams && s.path == p; }
      }
    }

    /** The opening is the world's answer, in the state it was asked. */
    twostate predicate Answered(o: Opening, dev: Device, world: World)
      reads this
    {
      && o.refusal == old(Refusal(dev)) && o.addr == old(Resolved(dev.id)).addr && o.opens == world.opens(dev.name)
      && o.gen == old(nextGen) && old(clock) <= o.now == clock
    }

    /** The escalated open: from the asked rung down while the failure allows it. */
    method OpenDescending(asked: int, opens: Opens) returns (a: Attempt)
      ensures a == Descend(opens, asked, None)
    {
      var step, refusedAt := asked, None;
      while At(opens, step).Failure? && step > 0 && Fallback(At(opens, step).error)
        invariant Descend(opens, asked, None) == Descend(opens, step, refusedAt)
        decreases step
      {
        if At(opens, step).error.refused { refusedAt := Some(step); }
        step := step - 1;
      }
      return Attempt(At(opens, step).Success?, step, refusedAt);
    }

    method SkipDevice(dev: Device, addr: string, cause: Cause)
      requires BoardOk(Pumps()) && !IsLive(dev.name)
      modifies `devices, `downReason, `downNotes, `nextGen
      ensures View(dev.name) == Lifecycle.MarkDown(old(View(dev.name)), cause).(rt :=
                Some(Runtime(old(nextGen), dev, Skipped, Some(cause), addr, 0, None, {}, false, false)))
      ensures !IsLive(dev.name)
      ensures forall m | m != dev.name :: View(m) == old(View(m))
      ensures BoardOk(Pumps())
    {
      hide Lifecycle.MarkDown, BoardOk;
      ghost var board := Pumps();
      MarkDown(dev.name, cause);
      var rt := Runtime(nextGen, dev, Skipped, Some(cause), addr, 0, None, {}, false, false);
      devices := devices[dev.name := rt];
      nextGen := nextGen + 1;
      DeadRecord(board, rt, nextGen);
    }

    /** Opens dev and starts serving it, or records why it could not; either way the record is stored at once. */
    method OpenAndStart(dev: Device, world: World) returns (served: bool, ghost o: Opening)
      requires BoardOk(Pumps()) && !IsLive(dev.name) && Pumps().PathsFree(dev)
      modifies `devices, `downReason, `downNotes, `geometry, `geoNotes, `mounted, `alive, `clock, `nextGen
      ensures Answered(o, dev, world)
      ensures View(dev.name) == Lifecycle.OpenAndStart(old(View(dev.name)), dev, o)
      ensures served <==> View(dev.name).IsServing()
      ensures served <==> IsLive(dev.name)
      ensures forall m | m != dev.name :: View(m) == old(View(m))
      ensures BoardOk(Pumps())
    {
      hide View, Maps.At, Lifecycle.OpenFrom, Lifecycle.MarkDown, CheckGeometry, BoardOk;
      ghost var gen := nextGen;
      var asked := GeometryStep(dev);
      var res := Resolved(dev.id);
      if ResolveRefused(dev.id, res.err) {
        SkipDevice(dev, res.addr, CauseOf(res.err));
        o := Opening(Some(CauseOf(res.err)), res.addr, world.opens(dev.name), gen, clock);
        served := false;
        return;
      }
      var owner := HardwareOwner(res.addr, dev.name);
      if owner.Some? {
        SkipDevice(dev, res.addr, SameHardware);
        o := Opening(Some(SameHardware), res.addr, world.opens(dev.name), gen, clock);
        served := false;
        return;
      }
      clock := clock + world.took(dev.name);
      o := Opening(None, res.addr, world.opens(dev.name), gen, clock);
      served := OpenFrom(dev, asked, res.addr, world.opens(dev.name), o);
    }

    method OpenFrom(dev: Device, asked: int, addr: string, opens: Opens, ghost o: Opening) returns (served: bool)
      requires BoardOk(Pumps()) && !IsLive(dev.name) && Pumps().PathsFree(dev) && !Pumps().Owned(addr, dev.name)
      requires o == Opening(None, addr, opens, nextGen, clock)
      modifies `devices, `downReason, `downNotes, `geometry, `geoNotes, `mounted, `alive, `nextGen
      ensures View(dev.name) == Lifecycle.OpenFrom(old(View(dev.name)), dev, asked, o)
      ensures served <==> View(dev.name).IsServing()
      ensures served <==> IsLive(dev.name)
      ensures forall m | m != dev.name :: View(m) == old(View(m))
      ensures BoardOk(Pumps())
    {
      hide View, Maps.At, Descend, Refuse, Lifecycle.GeometryOpened, Lifecycle.MarkDown, BoardOk;
      var a := OpenDescending(asked, opens);
      if a.refusedAt.Some? { GeometryRefuse(dev.name, a.refusedAt.value); }
      if !a.served {
        SkipDevice(dev, addr, OpenFailed);
        return false;
      }
      if asked > 0 { GeometryOpened(dev.name, a.step, asked); }
      Serve(Runtime(nextGen, dev, Serving, None, addr, a.step, Some(clock), {}, false, false));
      return true;
    }

    /** Stores a runtime that opened, mounts its streams and counts its pump. */
    method Serve(rt: Runtime)
      requires BoardOk(Pumps()) && !IsLive(rt.dev.name) && Pumps().PathsFree(rt.dev)
      requires rt.Live() && rt.gen == nextGen && !Pumps().Owned(rt.addr, rt.dev.name)
      modifies `devices, `mounted, `alive, `nextGen
      ensures View(rt.dev.name) == old(View(rt.dev.name)).(rt := Some(rt)) && IsLive(rt.dev.name)
      ensures forall m | m != rt.dev.name :: View(m) == old(View(m))
      ensures BoardOk(Pumps())
    {
      hide BoardOk;
      ServedRecord(Pumps(), rt);
      devices := devices[rt.dev.name := rt];
      nextGen := nextGen + 1;
      AddTracks(rt);
      alive := alive + 1;
    }

    // ----- the operations on one device -----

    function FaultedPaths(name: string): (paths: seq<string>)
      reads this`devices, this`downReason, this`retries, this`encodeFaults, this`geometry, this`downNotes, this`geoNotes
      ensures paths == View(name).FaultedPaths()
    {
      if name in encodeFaults then encodeFaults[name].paths else []
    }

    method StartDevice(dev: Device, world: World) returns (ghost o: Opening)
      requires BoardOk(Pumps()) && TimerOk() && !IsLive(dev.name) && Pumps().PathsFree(dev)
      modifies `devices, `downReason, `downNotes, `retries, `encodeFaults, `geometry, `geoNotes, `mounted,
               `alive, `clock, `nextGen, `retryAt, `timerAt
      ensures BoardOk(Pumps()) && TimerOk() && Answered(o, dev, world)
      ensures View(dev.name) == Lifecycle.StartDevice(old(View(dev.name)), dev, o)
      ensures forall m | m != dev.name :: View(m) == old(View(m))
    {
      hide Slices, View, Maps.At, Lifecycle.OpenAndStart, Lifecycle.ScheduleRetry, Lifecycle.FinishRecovery, BoardOk,
           Refusal, Board.PathsFree, Covered, IsEarliest;
      ForgetOutage(dev.name);
      var served;
      served, o := OpenAndStart(dev, world);
      if !served {
        ScheduleRetry(dev, clock);
      } else {
        ArmRetryTimer();
        FinishRecovery(dev.name);
      }
    }

    method AttemptRetry(dev: Device, world: World) returns (ghost o: Opening)
      requires BoardOk(Pumps()) && TimerOk() && !IsLive(dev.name) && Pumps().PathsFree(dev) && dev.name in retries
      modifies `devices, `downReason, `downNotes, `retries, `geometry, `geoNotes, `mounted,
               `alive, `clock, `nextGen, `retryAt, `timerAt
      ensures BoardOk(Pumps()) && TimerOk() && Answered(o, dev, world)
      ensures View(dev.name) == Lifecycle.AttemptRetry(old(View(dev.name)), dev, o)
      ensures forall m | m != dev.name :: View(m) == old(View(m))
    {
      hide Lifecycle.OpenAndStart, View, Maps.At, Scheduled, Lifecycle.OpenAndStart, Lifecycle.ReplaceDown,
           Lifecycle.ScheduleRetry, BoardOk, Refusal, Board.PathsFree, Covered;
      var name := dev.name;
      var served;
      served, o := OpenAndStart(dev, world);
      if !served {
        ScheduleRetry(dev, clock);
        return;
      }
      StartSettle(name);
      if FaultedPaths(name) == [] { return; }
      AskForEncode(name);
    }

    method StartSettle(name: string)
      requires name in retries
      modifies `retries
      ensures old(View(name)).retry.Some?
      ensures View(name) == (var d := old(View(name));
                             d.(retry := Some(d.retry.value.(settleAt := Some(clock + RETRY_SETTLE)))))
      ensures forall m | m != name :: View(m) == old(View(m))
    {
      SetRetry(name, Some(retries[name].(settleAt := Some(clock + RETRY_SETTLE))));
    }

    /** The condition of a restart that must prove an encoder reads as the failure it waits out, and its
        stages are asked to wake the loop. */
    method AskForEncode(name: string)
      requires BoardOk(Pumps()) && IsLive(name)
      modifies `devices, `downReason, `downNotes
      ensures BoardOk(Pumps())
      ensures old(View(name)).rt.Some?
      ensures View(name) == (var d := Lifecycle.ReplaceDown(old(View(name)), Died);
                             d.(rt := Some(d.rt.value.(awaitEncode := true))))
      ensures forall m | m != name :: View(m) == old(View(m))
    {
      hide Lifecycle.ReplaceDown, BoardOk;
      TouchedRecord(Pumps(), name, devices[name].(awaitEncode := true));
      ReplaceDown(name, Died);
      SetRecord(name, Some(devices[name].(awaitEncode := true)));
    }

    /** Any pending attempt is consumed by the forced one. */
    method ConsumePending(name: string, resetBackoff: bool)
      modifies `retries
      ensures View(name) == RestartState(old(View(name)), resetBackoff) && name in retries
      ensures forall m | m != name :: View(m) == old(View(m))
    {
      var st := if name in retries then retries[name] else FRESH;
      st := st.(next := None);
      if resetBackoff { st := st.(attempts := 0, failures := 0, recoveredAt := None); }
      SetRetry(name, Some(st));
    }

    method RestartFaulted(dev: Device, world: World, resetBackoff: bool) returns (ghost o: Opening)
      requires BoardOk(Pumps()) && TimerOk() && !IsLive(dev.name) && Pumps().PathsFree(dev)
      modifies `devices, `downReason, `downNotes, `retries, `geometry, `geoNotes, `mounted,
               `alive, `clock, `nextGen, `retryAt, `timerAt
      ensures BoardOk(Pumps()) && TimerOk() && Answered(o, dev, world)
      ensures View(dev.name) == Lifecycle.RestartFaulted(old(View(dev.name)), dev, o, resetBackoff)
      ensures forall m | m != dev.name :: View(m) == old(View(m))
    {
      hide Slices, View, Maps.At, Lifecycle.OpenAndStart, Lifecycle.AttemptRetry, Lifecycle.ScheduleRetry, RestartState,
           BoardOk, Refusal, Board.PathsFree, Covered;
      var refused := OpenRefused(dev);
      if refused {
        if resetBackoff { SetRetry(dev.name, None); }
        var served;
        served, o := OpenAndStart(dev, world);
        ScheduleRetry(dev, clock);
        return;
      }
      ConsumePending(dev.name, resetBackoff);
      o := AttemptRetry(dev, world);
    }

    method Stop(rt: Runtime)
      requires BoardOk(Pumps()) && IsLive(rt.dev.name) && devices[rt.dev.name] == rt
      modifies `devices, `stopping, `mounted, `geometry, `geoNotes
      ensures BoardOk(Pumps()) && stopping == old(stopping) + {rt.gen}
      ensures View(rt.dev.name) == StopDevice(old(View(rt.dev.name)), clock)
      ensures devices == old(devices)[rt.dev.name := rt.(superseded := true)]
      ensures forall m | m != rt.dev.name :: View(m) == old(View(m))
    {
      var name := rt.dev.name;
      ViewAt(name);
      hide View, Maps.At, BoardOk, RunEnded;
      Supersede(rt);
      GeometryRunEnded(rt, clock);
    }

    method Supersede(rt: Runtime)
      requires BoardOk(Pumps()) && IsLive(rt.dev.name) && devices[rt.dev.name] == rt
      modifies `devices, `stopping, `mounted
      ensures BoardOk(Pumps()) && stopping == old(stopping) + {rt.gen}
      ensures devices == old(devices)[rt.dev.name := rt.(superseded := true)]
      ensures View(rt.dev.name) == old(View(rt.dev.name)).(rt := Some(rt.(superseded := true)))
      ensures forall m | m != rt.dev.name :: View(m) == old(View(m))
    {
      hide BoardOk;
      StoppedRecord(Pumps(), rt.dev.name);
      devices := devices[rt.dev.name := rt.(superseded := true)];
      stopping := stopping + {rt.gen};
      RemoveTracks(rt.dev);
    }

    /** The end of a settle window of a serving device. */
    method Settle(name: string, now: int)
      requires name in devices && name in retries
      modifies `retries, `encodeFaults, `downReason, `downNotes
      ensures old(View(name)).retry.Some? && View(name) == Lifecycle.Settle(old(View(name)), now)
      ensures forall m | m != name :: View(m) == old(View(m))
    {
      var st := retries[name];
      if !devices[name].status.Serving? { return; }
      if FaultedPaths(name) != [] && !st.encodeSeen {
        if devices[name].EncodedAll(FaultedPaths(name)) {
          SetRetry(name, Some(SettleFromEncode(st, now)));
        } else {
          SetRetry(name, Some(st.(awaitEncode := true)));
        }
        return;
      }
      SetRetry(name, Some(st.(recoveredAt := Some(now), encodeSeen := false)));
      SetFault(name, None);
      FinishRecovery(name);
    }

    /** Every id of a configuration was resolved against the world's current hardware. */
    ghost predicate Refreshed(c: seq<Device>, world: World)
      reads this`hw
    {
      forall d | d in c :: Resolved(d.id) == world.resolve(d.id)
    }

    /** A device's share of a pass over the due retries. The ids are resolved once per pass, before its
        first attempt. */
    method ServeDue(dev: Device, now: int, world: World, attempted: bool) returns (tried: bool, ghost o: Opening)
      requires BoardOk(Pumps()) && TimerOk() && (IsLive(dev.name) || Pumps().PathsFree(dev)) && now <= clock
      requires dev in cfg && dev.name in devices && dev.name in retries
      requires attempted ==> Refreshed(cfg, world)
      modifies `hw, `devices, `downReason, `downNotes, `retries, `encodeFaults, `geometry, `geoNotes, `mounted,
               `alive, `clock, `nextGen, `retryAt, `timerAt
      ensures BoardOk(Pumps()) && TimerOk() && old(clock) <= clock == o.now
      ensures View(dev.name) == TickDevice(old(View(dev.name)), dev, now, o)
      ensures forall m | m != dev.name :: View(m) == old(View(m))
      ensures tried ==> Refreshed(cfg, world)
      ensures Attempts(old(View(dev.name)), now) ==> tried && AnswersFor(world, dev, old(Held(dev, world)), o)
    {
      hide View, BoardOk, Board.PathsFree, Refreshed, TimerOk, Lifecycle.AttemptRetry, Lifecycle.Settle,
           SettleFromEncode, Runtime.EncodedAll, AnswersFor, HeldNow;
      var name := dev.name;
      var st, rt := retries[name], devices[name];
      ViewAt(name);
      tried := attempted;
      o := ANY_OPENING.(now := clock);
      if st.awaitEncode {
        if !rt.status.Serving? || !rt.EncodedAll(FaultedPaths(name)) { return; }
        SetRetry(name, Some(SettleFromEncode(st, now)));
      } else if st.settleAt.Some? && now >= st.settleAt.value {
        SetRetry(name, Some(st.(settleAt := None)));
        Settle(name, now);
      } else if st.next.Some? && now >= st.next.value {
        SetRetry(name, Some(st.(next := None)));
        if !rt.IsDown() { return; }
        o := AttemptDue(dev, world, attempted);
        tried := true;
      }
    }

    method AttemptDue(dev: Device, world: World, attempted: bool) returns (ghost o: Opening)
      requires BoardOk(Pumps()) && TimerOk() && !IsLive(dev.name) && Pumps().PathsFree(dev)
      requires dev.name in retries && dev in cfg && (attempted ==> Refreshed(cfg, world))
      modifies `hw, `devices, `downReason, `downNotes, `retries, `geometry, `geoNotes, `mounted,
               `alive, `clock, `nextGen, `retryAt, `timerAt
      ensures BoardOk(Pumps()) && TimerOk() && old(clock) <= clock == o.now
      ensures AnswersFor(world, dev, old(Held(dev, world)), o)
      ensures View(dev.name) == Lifecycle.AttemptRetry(old(View(dev.name)), dev, o)
      ensures forall m | m != dev.name :: View(m) == old(View(m))
      ensures Refreshed(cfg, world)
    {
      hide View, Lifecycle.AttemptRetry, BoardOk, Board.PathsFree, Held, Board.Owned;
      HeldIsOwned(dev, world);
      if !attempted { RefreshHardware(cfg, world); }
      o := AttemptRetry(dev, world);
    }

    /** A pump that stopped on its own. `missing` is what resolving the device's id once more said. */
    method PumpDied(rt: Runtime, err: PumpError, faultPath: Option<string>, missing: bool)
      requires BoardOk(Pumps()) && TimerOk() && IsLive(rt.dev.name) && devices[rt.dev.name] == rt
      modifies `devices, `downReason, `downNotes, `retries, `encodeFaults, `geometry, `geoNotes, `mounted,
               `alive, `retryAt, `timerAt
      ensures BoardOk(Pumps()) && TimerOk() && Covered()
      ensures View(rt.dev.name) == DieDevice(old(View(rt.dev.name)), err, faultPath, missing, clock)
      ensures forall m | m != rt.dev.name :: View(m) == old(View(m))
    {
      var name := rt.dev.name;
      ViewAt(name);
      hide View, BoardOk, KeepsFault, Covered, TimerOk, Lifecycle.Bury, Lifecycle.ScheduleRetry, Lifecycle.Blame;
      if err.gone || missing {
        Bury(rt, Disconnected);
        DropRetry(name);
      } else {
        Bury(rt, if err.stalled then Stalled else Died);
        ScheduleRetry(rt.dev, clock);
        Blame(rt, err, faultPath);
      }
    }

    method Bury(rt: Runtime, cause: Cause)
      requires BoardOk(Pumps()) && IsLive(rt.dev.name) && devices[rt.dev.name] == rt
      modifies `devices, `downReason, `downNotes, `geometry, `geoNotes, `mounted, `alive
      ensures BoardOk(Pumps()) && old(View(rt.dev.name)).rt.Some?
      ensures View(rt.dev.name) == Lifecycle.Bury(old(View(rt.dev.name)), cause, clock)
      ensures forall m | m != rt.dev.name :: View(m) == old(View(m))
    {
      ViewAt(rt.dev.name);
      hide View, Maps.At, BoardOk, RunEnded, Lifecycle.MarkDown;
      MarkFailed(rt, cause);
      GeometryRunEnded(rt, clock);
      MarkDown(rt.dev.name, cause);
    }

    method MarkFailed(rt: Runtime, cause: Cause)
      requires BoardOk(Pumps()) && IsLive(rt.dev.name) && devices[rt.dev.name] == rt
      modifies `devices, `mounted, `alive
      ensures BoardOk(Pumps())
      ensures View(rt.dev.name) == old(View(rt.dev.name)).(rt := Some(rt.(status := Failed, cause := Some(cause))))
      ensures forall m | m != rt.dev.name :: View(m) == old(View(m))
    {
      hide BoardOk;
      var dead := rt.(status := Failed, cause := Some(cause));
      DiedRecord(Pumps(), rt.dev.name, dead);
      alive := alive - 1;
      RemoveTracks(rt.dev);
      devices := devices[rt.dev.name := dead];
    }

    method Blame(rt: Runtime, err: PumpError, faultPath: Option<string>)
      modifies `geometry, `encodeFaults
      ensures View(rt.dev.name) == Lifecycle.Blame(old(View(rt.dev.name)), rt, err, faultPath)
      ensures forall m | m != rt.dev.name :: View(m) == old(View(m))
    {
      hide Shortfall;
      var name := rt.dev.name;
      if err.shortfall && name in retries { GeometryShortfall(rt.dev, rt.step); }
      if faultPath.Some? && name in retries {
        var paths := FaultedPaths(name);
        if faultPath.value !in paths { paths := paths + [faultPath.value]; }
        SetFault(name, Some(Fault(rt.dev, paths)));
      }
    }

    /** What a device leaves behind when it is disabled or removed. */
    method Forget(name: string)
      modifies `downReason, `downNotes, `retries, `encodeFaults, `geometry, `geoNotes
      ensures View(name) == Lifecycle.Forget(old(View(name)))
      ensures forall m | m != name :: View(m) == old(View(m))
    {
      hide Lifecycle.DropGeometry;
      SetDown(name, None, End(History(downNotes, name), Resolve));
      ForgetOutage(name);
      DropGeometry(name);
    }

    method Disable(dev: Device)
      requires BoardOk(Pumps()) && !IsLive(dev.name)
      modifies `devices, `downReason, `downNotes, `retries, `encodeFaults, `geometry, `geoNotes, `nextGen
      ensures BoardOk(Pumps())
      ensures View(dev.name) == DisableDevice(old(View(dev.name)), dev, old(nextGen), Resolved(dev.id).addr)
      ensures forall m | m != dev.name :: View(m) == old(View(m))
    {
      hide Lifecycle.Forget, BoardOk;
      ghost var board := Pumps();
      Forget(dev.name);
      var rt := Runtime(nextGen, dev, Status.Disabled, None, Resolved(dev.id).addr, 0, None, {}, false, false);
      devices := devices[dev.name := rt];
      nextGen := nextGen + 1;
      DeadRecord(board, rt, nextGen);
    }

    method Remove(name: string)
      requires BoardOk(Pumps()) && !IsLive(name)
      modifies `devices, `downReason, `downNotes, `retries, `encodeFaults, `geometry, `geoNotes
      ensures BoardOk(Pumps())
      ensures View(name) == RemoveDevice(old(View(name))) && devices == old(devices) - {name}
      ensures forall m | m != name :: View(m) == old(View(m))
    {
      hide Lifecycle.Forget, BoardOk;
      RemovedRecord(Pumps(), name);
      Forget(name);
      SetRecord(name, None);
    }

    // ----- recording -----

    /** An operation on one device, done as its function says, keeps every trace true. */
    ghost method Record(was: Maps, since: int, name: string, e: Event)
      requires Explained(was, since)
      requires Allowed(was.At(name), e) && View(name) == Step(was.At(name), e)
      requires forall n | n != name :: View(n) == was.At(n)
      requires since <= clock && (IsTimed(e) ==> since <= Ended(e) <= clock && Began(e) <= Ended(e))
      modifies `trace
      ensures Follows()
      ensures Trace(name) == old(Trace(name)) + [e]
      ensures forall n | n != name :: Trace(n) == old(Trace(n))
    {
      hide Step, Allowed, Explains, Maps.At;
      ghost var before := trace;
      trace := trace[name := Trace(name) + [e]];
      forall n ensures Explains(Trace(n), View(n), clock) {
        assert Explains(TraceOf(before, n), was.At(n), since);
        if n == name {
          TraceGrows(TraceOf(before, n), was.At(n), since, e, clock);
        } else {
          TraceWaits(TraceOf(before, n), was.At(n), since, clock);
        }
      }
    }

    /** One recorded operation on one device; every other device is as it was. */
    twostate predicate Did(name: string, e: Event)
      reads this
    {
      && Allowed(old(View(name)), e)
      && View(name) == Step(old(View(name)), e) && Trace(name) == old(Trace(name)) + [e]
      && (forall n | n != name :: View(n) == old(View(n)))
      && (forall n | n != name :: Trace(n) == old(Trace(n)))
    }

    method RecordStop(rt: Runtime)
      requires Base() && IsLive(rt.dev.name) && devices[rt.dev.name] == rt
      modifies `devices, `stopping, `mounted, `geometry, `geoNotes, `trace
      ensures Base() && Did(rt.dev.name, Event.Stop(clock))
      ensures devices == old(devices)[rt.dev.name := rt.(superseded := true)]
    {
      hide Slices, BoardOk, Explains, Maps.At, StopDevice, TimerOk;
      ghost var was := Slices();
      ViewAt(rt.dev.name);
      Stop(rt);
      Record(was, clock, rt.dev.name, Event.Stop(clock));
    }

    /** A device the configuration lists finds its paths free while it does not serve. */
    lemma FreeFor(c: seq<Device>, dev: Device)
      requires BoardOk(Pumps()) && Config.Valid(c) && LiveIn(c) && dev in c && !IsLive(dev.name)
      ensures Pumps().PathsFree(dev)
    {
      hide BoardOk, Config.Valid;
      ConfiguredPathsFree(Pumps(), c, dev);
    }

    method RecordStart(dev: Device, world: World, ghost c: seq<Device>) returns (ghost o: Opening)
      requires Base() && Config.Valid(c) && LiveIn(c) && dev in c && Resolved(dev.id) == world.resolve(dev.id)
      requires Allowed(View(dev.name), Start(dev, ANY_OPENING))
      modifies `devices, `downReason, `downNotes, `retries, `encodeFaults, `geometry, `geoNotes, `mounted,
               `alive, `clock, `nextGen, `retryAt, `timerAt, `trace
      ensures Base() && Did(dev.name, Start(dev, o)) && clock >= old(clock)
      ensures AnswersFor(world, dev, old(Held(dev, world)), o)
    {
      hide Slices, BoardOk, Config.Valid, LiveIn, Explains, Maps.At, Lifecycle.StartDevice, TimerOk, Board.PathsFree,
           Held, Board.Owned;
      HeldIsOwned(dev, world);
      ghost var was, since := Slices(), clock;
      ViewAt(dev.name);
      FreeFor(c, dev);
      o := StartDevice(dev, world);
      Record(was, since, dev.name, Start(dev, o));
    }

    method RecordRestart(dev: Device, world: World, reset: bool, ghost c: seq<Device>) returns (ghost o: Opening)
      requires Base() && Config.Valid(c) && LiveIn(c) && dev in c && Resolved(dev.id) == world.resolve(dev.id)
      requires Allowed(View(dev.name), Restart(dev, ANY_OPENING, reset))
      modifies `devices, `downReason, `downNotes, `retries, `geometry, `geoNotes, `mounted,
               `alive, `clock, `nextGen, `retryAt, `timerAt, `trace
      ensures Base() && Did(dev.name, Restart(dev, o, reset)) && clock >= old(clock)
      ensures AnswersFor(world, dev, old(Held(dev, world)), o)
    {
      hide Slices, BoardOk, Config.Valid, LiveIn, Explains, Maps.At, Lifecycle.RestartFaulted, TimerOk, Board.PathsFree,
           Held, Board.Owned;
      HeldIsOwned(dev, world);
      ghost var was, since := Slices(), clock;
      ViewAt(dev.name);
      FreeFor(c, dev);
      o := RestartFaulted(dev, world, reset);
      Record(was, since, dev.name, Restart(dev, o, reset));
    }

    method RecordTick(dev: Device, now: int, world: World, attempted: bool) returns (tried: bool, ghost o: Opening)
      requires Base() && Config.Valid(cfg) && LiveIn(cfg) && dev in cfg && (attempted ==> Refreshed(cfg, world))
      requires Allowed(View(dev.name), Tick(dev, now, ANY_OPENING.(now := now))) && now <= clock
      modifies `hw, `devices, `downReason, `downNotes, `retries, `encodeFaults, `geometry, `geoNotes, `mounted,
               `alive, `clock, `nextGen, `retryAt, `timerAt, `trace
      ensures Base() && Did(dev.name, Tick(dev, now, o)) && old(clock) <= clock == o.now
      ensures tried ==> Refreshed(cfg, world)
      ensures Attempts(old(View(dev.name)), now) ==> tried && AnswersFor(world, dev, old(Held(dev, world)), o)
    {
      hide Slices, BoardOk, Config.Valid, LiveIn, Explains, Maps.At, TickDevice, TimerOk, Board.PathsFree, Refreshed,
           AnswersFor, HeldNow;
      ghost var was, since := Slices(), clock;
      ViewAt(dev.name);
      if !IsLive(dev.name) { FreeFor(cfg, dev); }
      tried, o := ServeDue(dev, now, world, attempted);
      Record(was, since, dev.name, Tick(dev, now, o));
    }

    method RecordDisable(dev: Device)
      requires Base() && Allowed(View(dev.name), Event.Disable(dev, 0, ""))
      modifies `devices, `downReason, `downNotes, `retries, `encodeFaults, `geometry, `geoNotes, `nextGen, `trace
      ensures Base() && Did(dev.name, Event.Disable(dev, old(nextGen), Resolved(dev.id).addr))
    {
      hide Slices, BoardOk, Explains, Maps.At, DisableDevice, TimerOk;
      ghost var was, gen := Slices(), nextGen;
      LiveView(dev.name);
      Disable(dev);
      Record(was, clock, dev.name, Event.Disable(dev, gen, Resolved(dev.id).addr));
    }

    method RecordRemove(name: string)
      requires Base() && !IsLive(name)
      modifies `devices, `downReason, `downNotes, `retries, `encodeFaults, `geometry, `geoNotes, `trace
      ensures Base() && Did(name, Event.Remove) && devices == old(devices) - {name}
    {
      hide Slices, BoardOk, Explains, Maps.At, RemoveDevice, TimerOk;
      ghost var was := Slices();
      LiveView(name);
      Remove(name);
      Record(was, clock, name, Event.Remove);
    }

    // ----- the events -----

    predicate EnabledInConfig(name: string)
      reads this`cfg
    {
      WantedIn(cfg, name)
    }

    /** Drops every state kept under a name that is not an enabled configured device. */
    method Prune()
      modifies `retries, `encodeFaults, `geometry, `geoNotes
      ensures forall n :: View(n) == Pruned(old(View(n)), EnabledInConfig(n))
    {
      hide Lifecycle.DropGeometry, EnabledInConfig;
      retries := map n | n in retries && EnabledInConfig(n) :: retries[n];
      encodeFaults := map n | n in encodeFaults && EnabledInConfig(n) :: encodeFaults[n];
      PruneGeometry();
    }

    method PruneGeometry()
      modifies `geometry, `geoNotes
      ensures forall n :: View(n) == (if n in old(geometry) && !EnabledInConfig(n)
                                      then Lifecycle.DropGeometry(old(View(n))) else old(View(n)))
    {
      hide View, EnabledInConfig, Lifecycle.DropGeometry;
      var left := set n | n in geometry && !EnabledInConfig(n);
      while left != {}
        invariant left <= set n | n in old(geometry) && !EnabledInConfig(n)
        invariant forall n :: View(n) == (if n in old(geometry) && !EnabledInConfig(n) && n !in left
                                          then Lifecycle.DropGeometry(old(View(n))) else old(View(n)))
        decreases left
      {
        var n :| n in left;
        left := left - {n};
        DropGeometry(n);
      }
    }

    /** Every live device of a valid state is one the configuration wants serving. */
    lemma LiveListed()
      requires RecordsOk(cfg)
      ensures LiveIn(cfg)
    {
      forall n | IsLive(n) ensures devices[n].dev in cfg && devices[n].dev.enabled {
        ViewAt(n);
        var d :| d in cfg && d.name == n;
        assert Listed(View(d.name), d);
      }
    }

    /** From c[i] on, and before it outside the group whose turns are being taken, the records are those the
        pass started from. */
    predicate Untouched(c: seq<Device>, early: set<string>, isEarly: bool, start: map<string, Runtime>, i: nat)
      reads this`devices
    {
      forall j | 0 <= j < |c| && (i <= j || (c[j].name in early) != isEarly) ::
        Lookup(devices, c[j].name) == Lookup(start, c[j].name)
    }

    lemma StartsUntouched(c: seq<Device>, early: set<string>, isEarly: bool)
      ensures Untouched(c, early, isEarly, devices, 0)
    {}

    lemma StaysUntouched(c: seq<Device>, early: set<string>, isEarly: bool, start: map<string, Runtime>, i: nat)
      requires Untouched(c, early, isEarly, start, i)
      ensures Untouched(c, early, isEarly, start, i + 1)
    {}

    /** A pass over c that has come to c[i]. */
    lemma AtTurn(c: seq<Device>, kept: set<string>, early: set<string>, start: map<string, Runtime>, i: nat)
      requires Base() && LiveIn(c) && Config.Valid(c) && i < |c|
      requires Untouched(c, early, c[i].name in early, start, i)
      requires forall e | e in c && e.name in start && start[e.name].Live() ::
                 e.name in kept || (e.name in early && c[i].name !in early)
      ensures MidPass(c, kept, early, start, devices, i)
    {
      hide BoardOk, Follows, View, Config.Valid;
      DistinctNames(c);
      RecordViews();
      forall n | n in devices && devices[n].Live() ensures exists e | e in c :: e.name == n {
        assert IsLive(n);
        RecordName(n);
      }
    }

    /** Nothing is kept under a name that is not an enabled configured device. */
    lemma NothingToPrune(n: string)
      requires Follows() && RecordsOk(cfg)
      ensures Pruned(View(n), EnabledInConfig(n)) == View(n)
      ensures View(n).retry.Some? ==> EnabledInConfig(n)
    {
      ViewInv(n);
      if View(n).rt.Some? {
        var d :| d in cfg && d.name == n;
        assert Listed(View(d.name), d);
      }
    }

    /** One device of the pass. */
    method TickAt(d: Device, now: int, world: World, attempted: bool) returns (tried: bool)
      requires Base() && RecordsOk(cfg) && Config.Valid(cfg) && d in cfg
      requires now <= clock && (attempted ==> Refreshed(cfg, world))
      modifies `hw, `devices, `downReason, `downNotes, `retries, `encodeFaults, `geometry, `geoNotes, `mounted,
               `alive, `clock, `nextGen, `retryAt, `timerAt, `trace
      ensures Base() && RecordsOk(cfg) && old(clock) <= clock && (tried ==> Refreshed(cfg, world))
      ensures Past(View(d.name), now)
      ensures Ticked(old(View(d.name)), View(d.name), old(Trace(d.name)), Trace(d.name), d, now, world,
                     old(Held(d, world)))
      ensures old(View(d.name)).IsLive() ==> View(d.name).rt == old(View(d.name)).rt
      ensures forall n | n != d.name :: View(n) == old(View(n))
      ensures forall n | n != d.name :: Trace(n) == old(Trace(n))
    {
      hide BoardOk, Explains, View, Listed, Allowed, Step, Refreshed, TimerOk, LiveIn, AnswersFor, HeldNow,
           Outcome;
      ViewInv(d.name);
      ghost var v := View(d.name);
      ViewAt(d.name);
      tried := attempted;
      if d.name in retries {
        LiveListed();
        TickServes(v, d, now, ANY_OPENING.(now := now));
        ghost var o;
        tried, o := RecordTick(d, now, world, attempted);
        TickServes(v, d, now, o);
        if v.IsLive() { TickKeepsLive(v, d, now, o); }
        StepHasOutcome(v, Tick(d, now, o));
        assert TickedBy(v, View(d.name), d, now, o, world, old(Held(d, world)));
      }
    }

    /** One device of the pass, in its turn. */
    method TickTurn(i: nat, now: int, world: World, attempted: bool, ghost kept: set<string>,
                    ghost start: map<string, Runtime>) returns (tried: bool)
      requires Base() && RecordsOk(cfg) && Config.Valid(cfg) && i < |cfg|
      requires now <= clock && (attempted ==> Refreshed(cfg, world))
      requires Untouched(cfg, {}, false, start, i) && forall n :: n in kept <==> n in start && start[n].Live()
      modifies `hw, `devices, `downReason, `downNotes, `retries, `encodeFaults, `geometry, `geoNotes, `mounted,
               `alive, `clock, `nextGen, `retryAt, `timerAt, `trace
      ensures Base() && RecordsOk(cfg) && old(clock) <= clock && (tried ==> Refreshed(cfg, world))
      ensures Past(View(cfg[i].name), now) && Untouched(cfg, {}, false, start, i + 1)
      ensures Ticked(old(View(cfg[i].name)), View(cfg[i].name), old(Trace(cfg[i].name)), Trace(cfg[i].name), cfg[i],
                     now, world, HeldAtTurn(cfg, kept, {}, devices, cfg[i], world))
      ensures forall j | 0 <= j < i :: HeldAtTurn(cfg, kept, {}, devices, cfg[j], world)
                                       <==> HeldAtTurn(cfg, kept, {}, old(devices), cfg[j], world)
      ensures forall n | n != cfg[i].name :: View(n) == old(View(n)) && Trace(n) == old(Trace(n))
    {
      hide Ticked, Config.Valid, View, Base, RecordsOk, Past, Refreshed, HeldAtTurn, HeldNow, MidPass;
      ghost var mid := devices;
      RecordViews();
      DistinctNames(cfg);
      PassTurn(kept, start, i);
      tried := TickAt(cfg[i], now, world, attempted);
      RecordViews();
      Turn(cfg, kept, {}, start, mid, devices, i, world);
    }

    method TickAll(now: int, world: World)
      requires Base() && RecordsOk(cfg) && Config.Valid(cfg) && now <= clock
      modifies `hw, `devices, `downReason, `downNotes, `retries, `encodeFaults, `geometry, `geoNotes, `mounted,
               `alive, `clock, `nextGen, `retryAt, `timerAt, `trace
      ensures Base() && RecordsOk(cfg) && old(clock) <= clock
      ensures forall d | d in cfg :: Past(View(d.name), now)
      ensures forall d | d in cfg ::
                Ticked(old(View(d.name)), View(d.name), old(Trace(d.name)), Trace(d.name), d, now, world,
                       HeldAtTurn(cfg, old(Pumps().LiveNames()), {}, devices, d, world))
      ensures forall n | n !in Names(cfg) :: View(n) == old(View(n)) && Trace(n) == old(Trace(n))
    {
      hide Ticked, Config.Valid, View, Base, RecordsOk, Past, Refreshed, HeldAtTurn, Untouched;
      var attempted := false;
      ghost var kept, start := Pumps().LiveNames(), devices;
      DistinctNames(cfg);
      StartsUntouched(cfg, {}, false);
      for i := 0 to |cfg|
        invariant Base() && RecordsOk(cfg) && old(clock) <= clock && (attempted ==> Refreshed(cfg, world))
        invariant Untouched(cfg, {}, false, start, i)
        invariant forall j | 0 <= j < i :: Past(View(cfg[j].name), now)
        invariant forall j | 0 <= j < i ::
          Ticked(old(View(cfg[j].name)), View(cfg[j].name), old(Trace(cfg[j].name)), Trace(cfg[j].name), cfg[j], now,
                 world, HeldAtTurn(cfg, kept, {}, devices, cfg[j], world))
        invariant forall j | i <= j < |cfg| ::
          View(cfg[j].name) == old(View(cfg[j].name)) && Trace(cfg[j].name) == old(Trace(cfg[j].name))
        invariant forall n | n !in Names(cfg) :: View(n) == old(View(n)) && Trace(n) == old(Trace(n))
      {
        attempted := TickTurn(i, now, world, attempted, kept, start);
      }
    }

    /** A pass in the order of the configuration. */
    lemma PassTurn(kept: set<string>, start: map<string, Runtime>, i: nat)
      requires Base() && RecordsOk(cfg) && Config.Valid(cfg) && i < |cfg|
      requires Untouched(cfg, {}, false, start, i) && forall n | n in start && start[n].Live() :: n in kept
      ensures MidPass(cfg, kept, {}, start, devices, i)
    {
      hide BoardOk, Follows, View, Config.Valid, RecordsOk, LiveIn, MidPass;
      LiveListed();
      AtTurn(cfg, kept, {}, start, i);
    }

    /** Forgets the armed deadline and whatever a missed cleanup would have left. Nothing was. */
    method BeginPass()
      requires Valid()
      modifies `retries, `encodeFaults, `geometry, `geoNotes, `retryAt, `retryDue
      ensures Base() && RecordsOk(cfg) && !retryDue
      ensures forall n :: View(n) == old(View(n))
      ensures trace == old(trace)
    {
      hide BoardOk, Config.Valid, Explains, View, Covered, Pruned, Listed, EnabledInConfig;
      forall n ensures Pruned(View(n), EnabledInConfig(n)) == View(n) { NothingToPrune(n); }
      retryDue, retryAt := false, None;
      Prune();
    }

    /** The retry timer fired, or a stage asked: each device with a retry takes its share of the pass, in the order
        of the configuration; no deadline at or before the pass is left, and the timer is armed for the next. */
    method OnRetryDue(world: World)
      requires Valid() && retryDue
      modifies `hw, `devices, `downReason, `downNotes, `retries, `encodeFaults, `geometry, `geoNotes, `mounted,
               `alive, `clock, `nextGen, `retryAt, `timerAt, `retryDue, `trace
      ensures Valid() && old(clock) <= clock && !retryDue
      ensures forall d | d in cfg ::
                Ticked(old(View(d.name)), View(d.name), old(Trace(d.name)), Trace(d.name), d, old(clock), world,
                       HeldAtTurn(cfg, old(Pumps().LiveNames()), {}, devices, d, world))
      ensures forall d | d in cfg && d.name in old(retries) && !Attempts(old(View(d.name)), old(clock)) ::
                && d.name in old(devices)
                && Moves(old(retries)[d.name], old(devices)[d.name], old(FaultedPaths(d.name)), old(clock),
                         Lookup(retries, d.name))
      ensures forall n | n !in Names(cfg) :: View(n) == old(View(n))
      ensures forall n | n !in Names(cfg) :: Trace(n) == old(Trace(n))
      ensures forall n :: Past(View(n), old(clock))
      ensures retryAt.Some? ==> retryAt.value > old(clock) && timerAt == retryAt
    {
      hide Ticked, BoardOk, Config.Valid, Follows, Maps.At, Covered, RecordsOk, AnswersFor, Past, IsEarliest,
           HeldAtTurn, Moves, Attempts;
      var now := clock;
      ghost var kept, was := Pumps().LiveNames(), Slices();
      BeginPass();
      TickAll(now, world);
      NothingPast(now);
      ArmRetryTimer();
      ArmedPast(now);
      forall d | d in cfg && d.name in was.retries && !Attempts(was.At(d.name), now)
        ensures d.name in was.devices
        ensures Moves(was.retries[d.name], was.devices[d.name], was.At(d.name).FaultedPaths(), now,
                      Lookup(retries, d.name))
      {
        SliceAt(was, d.name);
        SliceAt(Slices(), d.name);
        TickedMoves(was.At(d.name), View(d.name), old(Trace(d.name)), Trace(d.name), d, now, world,
                    HeldAtTurn(cfg, kept, {}, devices, d, world));
      }
    }

    lemma NothingPast(now: int)
      requires Follows() && RecordsOk(cfg) && forall d | d in cfg :: Past(View(d.name), now)
      ensures forall n :: Past(View(n), now)
    {
      hide Follows, RecordsOk, View;
      forall n ensures Past(View(n), now) {
        NothingToPrune(n);
        if View(n).retry.Some? { var d :| d in cfg && d.name == n; }
      }
    }

    lemma ArmedPast(now: int)
      requires IsEarliest(retries, retryAt) && forall n :: Past(View(n), now)
      ensures retryAt.Some? ==> retryAt.value > now
    {
      hide View;
      if retryAt.Some? {
        var n :| n in retries && IsDeadline(retries[n], retryAt.value);
        ViewAt(n);
        assert Past(View(n), now);
      }
    }

    method RecordDeath(rt: Runtime, err: PumpError, faultPath: Option<string>, missing: bool)
      requires Base() && IsLive(rt.dev.name) && devices[rt.dev.name] == rt
      requires faultPath.Some? ==> faultPath.value in rt.dev.Paths()
      modifies `devices, `downReason, `downNotes, `retries, `encodeFaults, `geometry, `geoNotes, `mounted,
               `alive, `retryAt, `timerAt, `trace
      ensures Base() && Covered() && Did(rt.dev.name, Die(err, faultPath, missing, clock))
    {
      hide Slices, BoardOk, Explains, Maps.At, DieDevice, TimerOk, Covered;
      ghost var was := Slices();
      ViewAt(rt.dev.name);
      PumpDied(rt, err, faultPath, missing);
      Record(was, clock, rt.dev.name, Die(err, faultPath, missing, clock));
    }

    /** The result of a pump that was told to stop. */
    method TakeLate(gen: nat)
      requires Valid() && gen in stopping
      modifies `alive, `stopping
      ensures Valid() && stopping == old(stopping) - {gen} && alive == old(alive) - 1
    {
      hide BoardOk, Follows, Covered, RecordsOk, Config.Valid;
      ReportedStop(Pumps(), gen);
      alive := alive - 1;
      stopping := stopping - {gen};
    }

    /** The result of a pump that ended on its own. */
    method TakeDeath(name: string, err: PumpError, faultPath: Option<string>, missing: bool)
      requires Valid() && IsLive(name) && (faultPath.Some? ==> faultPath.value in devices[name].dev.Paths())
      modifies `devices, `downReason, `downNotes, `retries, `encodeFaults, `geometry, `geoNotes, `mounted,
               `alive, `retryAt, `timerAt, `trace
      ensures Valid() && Did(name, Die(err, faultPath, missing, clock))
      ensures Outcome(old(View(name)), Die(err, faultPath, missing, clock), View(name))
      ensures Blamed(old(Lookup(encodeFaults, name)), old(devices)[name].dev, err, faultPath, missing,
                     Lookup(encodeFaults, name))
    {
      hide BoardOk, Explains, View, Covered, TimerOk, Config.Valid, Step, Allowed, Inv, Outcome, Blamed;
      var rt := devices[name];
      RecordName(name);
      ViewInv(name);
      ViewAt(name);
      ListedRecord(name);
      ghost var v, e := View(name), Die(err, faultPath, missing, clock);
      RecordDeath(rt, err, faultPath, missing);
      DeathListed(v, rt.dev, e);
      StepHasOutcome(v, e);
      ViewAt(name);
      DeathBlames(v, View(name), err, faultPath, missing, clock);
    }

    /** A pump ended: the late result of one told to stop changes nothing but the counts, and any other is
        the death of the live runtime it belonged to. */
    method OnPumpDone(name: string, gen: nat, err: PumpError, faultPath: Option<string>, world: World)
      requires Valid() && (gen in stopping || (IsLive(name) && devices[name].gen == gen))
      requires gen !in stopping && faultPath.Some? ==> faultPath.value in devices[name].dev.Paths()
      modifies `devices, `downReason, `downNotes, `retries, `encodeFaults, `geometry, `geoNotes, `mounted,
               `alive, `stopping, `retryAt, `timerAt, `trace
      ensures Valid() && stopping == old(stopping) - {gen}
      ensures gen in old(stopping) ==> alive == old(alive) - 1 && mounted == old(mounted) && trace == old(trace)
      ensures gen in old(stopping) ==> forall n :: View(n) == old(View(n))
      ensures gen !in old(stopping) ==>
        && old(Trace(name)) + [Die(err, faultPath, old(Missing(name, world)), clock)] == Trace(name)
        && (forall n | n != name :: Trace(n) == old(Trace(n)))
        && Outcome(old(View(name)), Die(err, faultPath, old(Missing(name, world)), clock), View(name))
      ensures gen !in old(stopping) ==>
        Blamed(old(Lookup(encodeFaults, name)), old(devices)[name].dev, err, faultPath, old(Missing(name, world)),
               Lookup(encodeFaults, name))
    {
      hide BoardOk, Follows, View, Covered, Config.Valid, RecordsOk, Inv, Outcome, Blamed;
      if gen in stopping {
        TakeLate(gen);
        return;
      }
      TakeDeath(name, err, faultPath, Missing(name, world));
    }

    /** Resolving the device's id once more finds no such device. */
    predicate Missing(name: string, world: World)
      requires name in devices
      reads this`devices
    {
      world.resolve(devices[name].dev.id).err.NoSuchDevice?
    }

    lemma ListedRecord(name: string)
      requires RecordsOk(cfg) && View(name).rt.Some?
      ensures View(name).rt.value.dev in cfg && Listed(View(name), View(name).rt.value.dev)
    {
      hide View;
      var d :| d in cfg && d.name == name;
      assert Listed(View(d.name), d);
    }

    lemma RecordName(name: string)
      requires BoardOk(Pumps()) && name in devices
      ensures devices[name].dev.name == name
    {
      assert Pumps().RecordOk(name);
    }

    /** A stage of a live device encoded a frame. The stream's first sets its flag and wakes the loop if it asked;
        any later one changes nothing. */
    method FrameEncoded(name: string, path: string)
      requires Valid() && IsLive(name)
      modifies `devices, `retryDue, `trace
      ensures Valid()
      ensures if path in old(devices)[name].encoded
              then devices == old(devices) && retryDue == old(retryDue) && trace == old(trace)
              else Did(name, Encode(path)) && retryDue == (old(retryDue) || old(devices)[name].awaitEncode)
    {
      hide BoardOk, Explains, View, Covered, Step, Slices, Config.Valid, Allowed;
      if path in devices[name].encoded { return; }
      var awaited := devices[name].awaitEncode;
      ghost var v := View(name);
      ViewAt(name);
      ListedRecord(name);
      RecordEncode(name, path);
      EncodeListed(v, v.rt.value.dev, path);
      if awaited { Signal(); }
    }

    method RecordEncode(name: string, path: string)
      requires Base() && IsLive(name)
      modifies `devices, `trace
      ensures Base() && Did(name, Encode(path))
    {
      hide Slices, BoardOk, Explains, Maps.At, TimerOk;
      ghost var was := Slices();
      var rt := devices[name];
      ViewAt(name);
      RecordName(name);
      TouchedRecord(Pumps(), name, rt.(encoded := rt.encoded + {path}));
      SetRecord(name, Some(rt.(encoded := rt.encoded + {path})));
      Record(was, clock, name, Encode(path));
    }

    /** Wakes the loop; a signal already pending is enough. */
    method Signal()
      modifies `retryDue
      ensures retryDue && TimerOk() && Covered()
    {
      retryDue := true;
    }

    /** The armed deadline is reached. */
    method TimerFires()
      requires Valid() && timerAt.Some? && timerAt.value <= clock
      modifies `timerAt, `retryDue
      ensures Valid() && retryDue && timerAt.None?
    {
      hide BoardOk, Explains;
      timerAt := None;
      Signal();
    }

    method TimePasses(later: int)
      requires Valid() && clock <= later
      modifies `clock
      ensures Valid() && clock == later
    {
      hide BoardOk, Explains, View, Covered;
      ghost var since := clock;
      clock := later;
      forall n ensures Explains(Trace(n), View(n), clock) {
        assert Explains(Trace(n), View(n), since);
        TraceWaits(Trace(n), View(n), since, clock);
      }
    }

    /** The configurations the live devices run with. */
    function Running(): (running: map<string, Device>)
      reads this`devices
      ensures forall n :: n in running <==> IsLive(n)
      ensures forall n | n in running :: n in devices && running[n] == devices[n].dev
    {
      map n | n in devices && devices[n].Live() :: devices[n].dev
    }

    /** What the stop passes have done once the devices in done are stopped. */
    twostate predicate StoppedOnly(done: set<string>)
      reads this
    {
      && devices == Superseded(old(devices), done)
      && (forall n | n in done :: old(IsLive(n)))
      && (forall n | n in done :: View(n) == StopDevice(old(View(n)), clock))
      && (forall n | n in done :: Trace(n) == old(Trace(n)) + [Event.Stop(clock)])
      && (forall n | n !in done :: View(n) == old(View(n)))
      && (forall n | n !in done :: Trace(n) == old(Trace(n)))
    }

    method StopOne(n: string)
      requires Base() && IsLive(n)
      modifies `devices, `stopping, `mounted, `geometry, `geoNotes, `trace
      ensures Base() && StoppedOnly({n})
    {
      hide BoardOk, Explains, View, TimerOk, StopDevice;
      RecordName(n);
      RecordStop(devices[n]);
    }

    /** The stop passes: every device that goes away or restarts stops before any starts, so two devices
        that swap cards can both reopen. */
    method StopPlanned(c: seq<Device>, running: map<string, Device>) returns (ghost done: set<string>)
      requires Base() && Config.Valid(c) && running == Running() && forall n | n in running :: running[n].enabled
      modifies `devices, `stopping, `mounted, `geometry, `geoNotes, `trace
      ensures Base() && StoppedOnly(done) && LiveIn(c)
      ensures forall n :: n in done <==> n in running && !Keeps(running, c, n)
      ensures forall n | n in devices && devices[n].Live() :: n in KeptNames(running, c)
    {
      hide BoardOk, Explains, View, TimerOk, Config.Valid, Stops, ParamsEqual, StopDevice, Superseded;
      forall n | n in running ensures Leaves(running, c, n) <==> !Keeps(running, c, n) {
        PlanIsComplete(running, c, n);
      }
      done := StopGone(c, running);
      forall n ensures IsLive(n) <==> old(IsLive(n)) && n !in done { SupersededIs(old(devices), done, n); }
      forall d | d in c && Restarts(running, d) ensures IsLive(d.name) { PlanIsComplete(running, c, d.name); }
      ghost var restarting := StopRestarting(c, running);
      SupersededTwice(old(devices), done, restarting);
      done := done + restarting;
      forall n | n in devices && devices[n].Live()
        ensures devices[n].dev in c && devices[n].dev.enabled && n in KeptNames(running, c)
      {
        assert IsLive(n);
        SupersededIs(old(devices), done, n);
        RecordName(n);
        KeptAsListed(running, c, n);
      }
    }

    method StopGone(c: seq<Device>, running: map<string, Device>) returns (ghost done: set<string>)
      requires Base() && forall n | n in running :: IsLive(n)
      modifies `devices, `stopping, `mounted, `geometry, `geoNotes, `trace
      ensures Base() && StoppedOnly(done) && forall n :: n in done <==> n in running && Stops(running, c, n)
    {
      hide Base, View, StopDevice, Stops, Superseded;
      NoneSuperseded(devices);
      done := {};
      var left := running.Keys;
      while left != {}
        invariant left <= running.Keys && Base() && StoppedOnly(done)
        invariant forall n :: n in done <==> n in running && n !in left && Stops(running, c, n)
      {
        var n :| n in left;
        left := left - {n};
        if Stops(running, c, n) {
          MoreSuperseded(old(devices), done, n);
          StopOne(n);
          done := done + {n};
        }
      }
    }

    method StopRestarting(c: seq<Device>, running: map<string, Device>) returns (ghost done: set<string>)
      requires Base() && Config.Valid(c) && forall d | d in c && Restarts(running, d) :: IsLive(d.name)
      modifies `devices, `stopping, `mounted, `geometry, `geoNotes, `trace
      ensures Base() && StoppedOnly(done)
      ensures forall n :: n in done <==> exists d | d in c :: d.name == n && Restarts(running, d)
    {
      hide Config.Valid, Base, View, StopDevice, Restarts, Superseded;
      NoneSuperseded(devices);
      done := {};
      DistinctNames(c);
      for i := 0 to |c|
        invariant Base() && StoppedOnly(done)
        invariant forall n | n in done :: exists j | 0 <= j < i :: c[j].name == n && Restarts(running, c[j])
        invariant forall j | 0 <= j < i && Restarts(running, c[j]) :: c[j].name in done
      {
        if Restarts(running, c[i]) {
          MoreSuperseded(old(devices), done, c[i].name);
          StopOne(c[i].name);
          done := done + {c[i].name};
        }
      }
    }

    lemma LiveViews(c: seq<Device>)
      ensures LiveIn(c) <==> forall n :: LiveListedIn(View(n), c)
    {
      forall n ensures IsLive(n) <==> View(n).IsLive() {}
      if !LiveIn(c) {
        var n :| IsLive(n) && !(devices[n].dev in c && devices[n].dev.enabled);
        assert !LiveListedIn(View(n), c);
      }
    }

    method Launch(d: Device, c: seq<Device>, world: World)
      requires Base() && Config.Valid(c) && LiveIn(c) && d in c && Resolved(d.id) == world.resolve(d.id)
      requires Ready(View(d.name), d)
      modifies `devices, `downReason, `downNotes, `retries, `encodeFaults, `geometry, `geoNotes, `mounted,
               `alive, `clock, `nextGen, `retryAt, `timerAt, `trace
      ensures Base() && LiveIn(c) && old(clock) <= clock
      ensures Launched(old(View(d.name)), old(Trace(d.name)), View(d.name), Trace(d.name), d, world,
                       old(Held(d, world)))
      ensures forall n | n != d.name :: View(n) == old(View(n))
      ensures forall n | n != d.name :: Trace(n) == old(Trace(n))
    {
      hide BoardOk, Explains, View, TimerOk, Config.Valid, LiveIn, Step, Allowed, AnswersFor, HeldNow;
      ghost var v, o := View(d.name), ANY_OPENING;
      ViewAt(d.name);
      ViewInv(d.name);
      ReadyAllows(v, d);
      LiveViews(c);
      if d.name in encodeFaults && ParamsEqual(encodeFaults[d.name].dev, d) {
        o := RecordRestart(d, world, true, c);
      } else {
        o := RecordStart(d, world, c);
      }
      LaunchListed(v, d, o, true);
      LiveViews(c);
    }

    /** A started device in its turn: the restarted ones, in running, took theirs before. */
    method LaunchTurn(i: nat, c: seq<Device>, world: World, ghost running: map<string, Device>,
                      ghost kept: set<string>, ghost start: map<string, Runtime>)
      requires Base() && Config.Valid(c) && LiveIn(c) && i < |c| && Resolved(c[i].id) == world.resolve(c[i].id)
      requires Ready(View(c[i].name), c[i]) && c[i].name !in running && c[i].name !in kept
      requires Untouched(c, running.Keys, false, start, i)
      requires forall n | n in start && start[n].Live() :: n in kept || n in running
      modifies `devices, `downReason, `downNotes, `retries, `encodeFaults, `geometry, `geoNotes, `mounted,
               `alive, `clock, `nextGen, `retryAt, `timerAt, `trace
      ensures Base() && LiveIn(c) && old(clock) <= clock && Untouched(c, running.Keys, false, start, i + 1)
      ensures Launched(old(View(c[i].name)), old(Trace(c[i].name)), View(c[i].name), Trace(c[i].name), c[i], world,
                       HeldAtTurn(c, kept, running.Keys, devices, c[i], world))
      ensures forall k | 0 <= k < |c| && (k < i || c[k].name in running) ::
                HeldAtTurn(c, kept, running.Keys, devices, c[k], world)
                <==> HeldAtTurn(c, kept, running.Keys, old(devices), c[k], world)
      ensures forall n | n != c[i].name :: View(n) == old(View(n))
      ensures forall n | n != c[i].name :: Trace(n) == old(Trace(n))
    {
      hide Launched, Config.Valid, View, Base, LiveIn, HeldAtTurn, HeldNow, MidPass, Ready;
      ghost var mid := devices;
      RecordViews();
      DistinctNames(c);
      AtTurn(c, kept, running.Keys, start, i);
      Launch(c[i], c, world);
      RecordViews();
      Turn(c, kept, running.Keys, start, mid, devices, i, world);
    }

    /** The restart pass: a device whose parameters changed builds different streams, so it starts afresh. */
    method Relaunch(d: Device, c: seq<Device>, world: World)
      requires Base() && Config.Valid(c) && LiveIn(c) && d in c && Resolved(d.id) == world.resolve(d.id)
      requires Ready(View(d.name), d) && !AsFaulted(View(d.name), d)
      modifies `devices, `downReason, `downNotes, `retries, `encodeFaults, `geometry, `geoNotes, `mounted,
               `alive, `clock, `nextGen, `retryAt, `timerAt, `trace
      ensures Base() && LiveIn(c) && old(clock) <= clock
      ensures Launched(old(View(d.name)), old(Trace(d.name)), View(d.name), Trace(d.name), d, world,
                       old(Held(d, world)))
      ensures forall n | n != d.name :: View(n) == old(View(n))
      ensures forall n | n != d.name :: Trace(n) == old(Trace(n))
    {
      hide BoardOk, Explains, View, TimerOk, Config.Valid, LiveIn, Step, Allowed, AnswersFor, HeldNow;
      ghost var v := View(d.name);
      ViewInv(d.name);
      ReadyAllows(v, d);
      LiveViews(c);
      ghost var o := RecordStart(d, world, c);
      LaunchListed(v, d, o, true);
      LiveViews(c);
    }

    method RestartPlanned(c: seq<Device>, running: map<string, Device>, world: World, ghost kept: set<string>)
      requires Base() && Config.Valid(c) && LiveIn(c) && Refreshed(c, world)
      requires forall n | n in devices && devices[n].Live() :: n in kept
      requires forall d | d in c && Restarts(running, d) :: d.name in running && d.name !in kept
      requires forall d | d in c && Restarts(running, d) :: Ready(View(d.name), d) && !AsFaulted(View(d.name), d)
      modifies `devices, `downReason, `downNotes, `retries, `encodeFaults, `geometry, `geoNotes, `mounted,
               `alive, `clock, `nextGen, `retryAt, `timerAt, `trace
      ensures Base() && LiveIn(c) && old(clock) <= clock
      ensures forall n | n in devices && devices[n].Live() :: n in kept || n in running
      ensures forall d | d in c && Restarts(running, d) ::
                Launched(old(View(d.name)), old(Trace(d.name)), View(d.name), Trace(d.name), d, world,
                         HeldAtTurn(c, kept, running.Keys, devices, d, world))
      ensures forall d | d in c && !Restarts(running, d) ::
                View(d.name) == old(View(d.name)) && Trace(d.name) == old(Trace(d.name))
      ensures forall n | n !in Names(c) :: View(n) == old(View(n)) && Trace(n) == old(Trace(n))
    {
      hide Config.Valid, Base, View, LiveIn, Ready, AsFaulted, Launched, Restarts, HeldAtTurn, HeldNow, MidPass;
      ghost var early, start := running.Keys, devices;
      DistinctNames(c);
      RecordViews();
      for i := 0 to |c|
        invariant Base() && LiveIn(c) && old(clock) <= clock
        invariant forall n | n in devices && devices[n].Live() :: n in kept || n in running
        invariant forall j | 0 <= j < i && Restarts(running, c[j]) ::
          Launched(old(View(c[j].name)), old(Trace(c[j].name)), View(c[j].name), Trace(c[j].name), c[j], world,
                   HeldAtTurn(c, kept, early, devices, c[j], world))
        invariant forall j | 0 <= j < |c| && (j < i ==> !Restarts(running, c[j])) ::
          View(c[j].name) == old(View(c[j].name)) && Trace(c[j].name) == old(Trace(c[j].name))
        invariant forall n | n !in Names(c) :: View(n) == old(View(n)) && Trace(n) == old(Trace(n))
      {
        if Restarts(running, c[i]) {
          ghost var mid := devices;
          RecordViews();
          AtTurn(c, kept, early, start, i);
          Relaunch(c[i], c, world);
          RecordViews();
          Turn(c, kept, early, start, mid, devices, i, world);
        }
      }
    }

    method StartNew(c: seq<Device>, running: map<string, Device>, world: World, ghost kept: set<string>)
      requires Base() && Config.Valid(c) && LiveIn(c) && Refreshed(c, world)
      requires forall n | n in devices && devices[n].Live() :: n in kept || n in running
      requires forall d | d in c && Starts(running, d) :: d.name !in running && d.name !in kept
      requires forall d | d in c && Starts(running, d) :: Ready(View(d.name), d)
      modifies `devices, `downReason, `downNotes, `retries, `encodeFaults, `geometry, `geoNotes, `mounted,
               `alive, `clock, `nextGen, `retryAt, `timerAt, `trace
      ensures Base() && LiveIn(c) && old(clock) <= clock
      ensures forall d | d in c && Starts(running, d) ::
                Launched(old(View(d.name)), old(Trace(d.name)), View(d.name), Trace(d.name), d, world,
                         HeldAtTurn(c, kept, running.Keys, devices, d, world))
      ensures forall d | d in c && d.name in running ::
                HeldAtTurn(c, kept, running.Keys, devices, d, world)
                <==> HeldAtTurn(c, kept, running.Keys, old(devices), d, world)
      ensures forall d | d in c && !Starts(running, d) ::
                View(d.name) == old(View(d.name)) && Trace(d.name) == old(Trace(d.name))
      ensures forall n | n !in Names(c) :: View(n) == old(View(n)) && Trace(n) == old(Trace(n))
    {
      hide Config.Valid, Base, View, LiveIn, Ready, AsFaulted, Launched, Starts, HeldAtTurn, Untouched;
      ghost var early, start := running.Keys, devices;
      DistinctNames(c);
      StartsUntouched(c, early, false);
      for i := 0 to |c|
        invariant Base() && LiveIn(c) && old(clock) <= clock
        invariant Untouched(c, early, false, start, i)
        invariant forall j | 0 <= j < i && Starts(running, c[j]) ::
          Launched(old(View(c[j].name)), old(Trace(c[j].name)), View(c[j].name), Trace(c[j].name), c[j], world,
                   HeldAtTurn(c, kept, early, devices, c[j], world))
        invariant forall j | 0 <= j < |c| && c[j].name in running ::
          HeldAtTurn(c, kept, early, devices, c[j], world) <==> HeldAtTurn(c, kept, early, start, c[j], world)
        invariant forall j | 0 <= j < |c| && (j < i ==> !Starts(running, c[j])) ::
          View(c[j].name) == old(View(c[j].name)) && Trace(c[j].name) == old(Trace(c[j].name))
        invariant forall n | n !in Names(c) :: View(n) == old(View(n)) && Trace(n) == old(Trace(n))
      {
        if Starts(running, c[i]) {
          LaunchTurn(i, c, world, running, kept, start);
        } else {
          StaysUntouched(c, early, false, start, i);
        }
      }
    }

    /** Makes the records match the configuration once its devices were started and stopped. */
    method ReconcileRecords(c: seq<Device>)
      requires Base() && Config.Valid(c) && LiveIn(c) && forall d | d in c && d.enabled :: Listed(View(d.name), d)
      modifies `devices, `downReason, `downNotes, `retries, `encodeFaults, `geometry, `geoNotes, `nextGen,
               `retryAt, `timerAt, `trace
      ensures Base() && RecordsOk(c) && Covered() && SameLive(c, old(devices), devices)
      ensures forall d | d in c && d.enabled :: View(d.name) == old(View(d.name)) && Trace(d.name) == old(Trace(d.name))
      ensures forall d | d in c && !d.enabled :: TurnedOff(View(d.name), old(Trace(d.name)), Trace(d.name), d)
      ensures forall n | n !in Names(c) :: Dropped(old(View(n)), View(n), old(Trace(n)), Trace(n))
    {
      hide BoardOk, Follows, View, Covered, LiveIn, Config.Valid, Listed, IsEarliest, RecordsOk;
      LiveEnabled(c);
      RecordViews();
      DisableListed(c);
      RemoveUnlisted(c);
      LiveEnabled(c);
      RecordViews();
      RecordsFollow(c);
      ArmRetryTimer();
    }

    lemma RecordsFollow(c: seq<Device>)
      requires forall d | d in c :: Listed(View(d.name), d)
      requires forall n | n !in Names(c) :: View(n).rt.None?
      ensures RecordsOk(c)
    {
      hide View, Listed;
    }

    method DisableOne(d: Device, c: seq<Device>)
      requires Base() && Config.Valid(c) && LiveIn(c) && d in c && !d.enabled
      modifies `devices, `downReason, `downNotes, `retries, `encodeFaults, `geometry, `geoNotes, `nextGen, `trace
      ensures Base() && LiveIn(c) && TurnedOff(View(d.name), old(Trace(d.name)), Trace(d.name), d)
      ensures forall n | n != d.name :: View(n) == old(View(n))
      ensures forall n | n != d.name :: Trace(n) == old(Trace(n))
    {
      hide BoardOk, Explains, View, TimerOk;
      NotLive(d, c);
      ViewAt(d.name);
      LiveViews(c);
      RecordDisable(d);
      LiveViews(c);
    }

    lemma NotLive(d: Device, c: seq<Device>)
      requires BoardOk(Pumps()) && Config.Valid(c) && LiveIn(c) && d in c && !d.enabled
      ensures !IsLive(d.name)
    {
      if IsLive(d.name) {
        RecordName(d.name);
        SameName(c, d, devices[d.name].dev);
      }
    }

    lemma LiveEnabled(c: seq<Device>)
      requires Base() && Config.Valid(c) && LiveIn(c)
      ensures forall d | d in c && !d.enabled :: !(d.name in devices && devices[d.name].Live())
    {
      hide BoardOk, Follows, Config.Valid, LiveIn;
      forall d | d in c && !d.enabled ensures !IsLive(d.name) { NotLive(d, c); }
    }

    method DisableListed(c: seq<Device>)
      requires Base() && Config.Valid(c) && LiveIn(c)
      modifies `devices, `downReason, `downNotes, `retries, `encodeFaults, `geometry, `geoNotes, `nextGen, `trace
      ensures Base() && LiveIn(c)
      ensures forall d | d in c && d.enabled :: View(d.name) == old(View(d.name)) && Trace(d.name) == old(Trace(d.name))
      ensures forall d | d in c && !d.enabled :: TurnedOff(View(d.name), old(Trace(d.name)), Trace(d.name), d)
      ensures forall n | n !in Names(c) :: View(n) == old(View(n)) && Trace(n) == old(Trace(n))
    {
      hide Config.Valid, Base, View, LiveIn, Listed;
      DistinctNames(c);
      for i := 0 to |c|
        invariant Base() && LiveIn(c)
        invariant forall j | 0 <= j < i && !c[j].enabled ::
          TurnedOff(View(c[j].name), old(Trace(c[j].name)), Trace(c[j].name), c[j])
        invariant forall j | 0 <= j < |c| && (j < i ==> c[j].enabled) ::
          View(c[j].name) == old(View(c[j].name)) && Trace(c[j].name) == old(Trace(c[j].name))
        invariant forall n | n !in Names(c) :: View(n) == old(View(n)) && Trace(n) == old(Trace(n))
      {
        if !c[i].enabled { DisableOne(c[i], c); }
      }
    }

    method RemoveOne(n: string, c: seq<Device>)
      requires Base() && LiveIn(c) && n !in Names(c)
      modifies `devices, `downReason, `downNotes, `retries, `encodeFaults, `geometry, `geoNotes, `trace
      ensures Base() && LiveIn(c) && devices == old(devices) - {n}
      ensures View(n).rt.None? && Trace(n) == old(Trace(n)) + [Event.Remove]
      ensures forall m | m != n :: View(m) == old(View(m))
      ensures forall m | m != n :: Trace(m) == old(Trace(m))
    {
      hide BoardOk, Explains, View, TimerOk;
      if n in devices {
        RecordName(n);
        // The plan stopped it: a live record here would be one the save still wants.
        assert !IsLive(n);
      }
      RecordRemove(n);
    }

    method RemoveUnlisted(c: seq<Device>)
      requires Base() && LiveIn(c)
      modifies `devices, `downReason, `downNotes, `retries, `encodeFaults, `geometry, `geoNotes, `trace
      ensures Base() && LiveIn(c)
      ensures forall n | n in Names(c) :: View(n) == old(View(n)) && Trace(n) == old(Trace(n))
      ensures forall n | n !in Names(c) :: Dropped(old(View(n)), View(n), old(Trace(n)), Trace(n))
    {
      hide Slices, Base, View, LiveIn;
      var left := set n | n in devices && !exists d | d in c :: d.name == n;
      forall n ensures View(n).rt.Some? <==> n in devices { ViewAt(n); }
      while left != {}
        invariant Base() && LiveIn(c) && left <= old(devices.Keys)
        invariant forall n | n in left :: n !in Names(c)
        invariant forall n | n in Names(c) || n in left :: View(n) == old(View(n)) && Trace(n) == old(Trace(n))
        invariant forall n | n !in Names(c) && n !in left :: Dropped(old(View(n)), View(n), old(Trace(n)), Trace(n))
        decreases left
      {
        var n :| n in left;
        left := left - {n};
        RemoveOne(n, c);
      }
    }

    /** Where the stop passes leave a device the save wants serving. */
    twostate predicate Paused(d: Device)
      reads this
    {
      var v := old(View(d.name));
      && PausedFrom(v, View(d.name), d)
      && Trace(d.name) == if v.IsLive() && ParamsEqual(v.rt.value.dev, d) then old(Trace(d.name))
                          else Halted(old(Trace(d.name)), v, clock)
    }

    lemma RunningViews(d: Device)
      ensures Restarts(Running(), d) <==>
              d.enabled && View(d.name).IsLive() && !ParamsEqual(View(d.name).rt.value.dev, d)
      ensures Starts(Running(), d) <==> d.enabled && !View(d.name).IsLive()
    {
      ViewAt(d.name);
    }

    /** The planned stops, seen from each device. */
    method StopPass(c: seq<Device>) returns (running: map<string, Device>)
      requires Base() && Config.Valid(c) && RecordsOk(cfg)
      modifies `devices, `stopping, `mounted, `geometry, `geoNotes, `trace
      ensures Base() && LiveIn(c) && running == old(Running())
      ensures forall n | n in devices && devices[n].Live() :: n in KeptNames(running, c)
      ensures forall d | d in c && d.enabled :: Paused(d)
      ensures forall n | !WantedIn(c, n) :: View(n).rt.Some? == old(View(n)).rt.Some?
      ensures forall n | !WantedIn(c, n) :: Trace(n) == Halted(old(Trace(n)), old(View(n)), clock)
    {
      hide BoardOk, Explains, View, LiveIn, RecordsOk, Config.Valid, TimerOk, ParamsEqual, Inv, Listed, Ready,
           AsFaulted, StopDevice, Keeps, WantedIn, PausedFrom, SelfListed;
      running := Running();
      LiveListed();
      forall n ensures Inv(View(n)) && SelfListed(View(n), n) { Itself(n); }
      forall n ensures (n in running <==> View(n).IsLive()) && (n in running ==> running[n] == View(n).rt.value.dev) {
        ViewAt(n);
      }
      ghost var done := StopPlanned(c, running);
      forall d | d in c && d.enabled ensures Paused(d) {
        StopsWhatChanged(old(View(d.name)), d, c, running, clock);
      }
      forall n | !WantedIn(c, n)
        ensures View(n).rt.Some? == old(View(n)).rt.Some? && Trace(n) == Halted(old(Trace(n)), old(View(n)), clock)
      {
        Unwanted(running, c, n);
        StopKeepsRecord(old(View(n)), clock);
      }
    }

    lemma Itself(n: string)
      requires Base() && RecordsOk(cfg)
      ensures Inv(View(n)) && SelfListed(View(n), n)
    {
      ViewInv(n);
      ViewAt(n);
      if View(n).rt.Some? {
        RecordName(n);
        ListedRecord(n);
      }
    }

    /** The device plan of a save, executed. */
    method ApplyPlan(c: seq<Device>, world: World)
      requires Base() && Config.Valid(c) && RecordsOk(cfg) && Refreshed(c, world)
      modifies `devices, `stopping, `downReason, `downNotes, `retries, `encodeFaults, `geometry, `geoNotes, `mounted,
               `alive, `clock, `nextGen, `retryAt, `timerAt, `trace
      ensures Base() && LiveIn(c) && old(clock) <= clock
      ensures forall d | d in c && d.enabled :: Listed(View(d.name), d)
      ensures forall d | d in c && d.enabled ::
                Restored(old(View(d.name)), old(Trace(d.name)), Trace(d.name), d, old(clock), world,
                         HeldAtTurn(c, KeptNames(old(Running()), c), old(Running()).Keys, devices, d, world))
      ensures forall n | !WantedIn(c, n) :: View(n).rt.Some? == old(View(n)).rt.Some?
      ensures forall n | !WantedIn(c, n) :: Trace(n) == Halted(old(Trace(n)), old(View(n)), old(clock))
    {
      hide Base, View, LiveIn, RecordsOk, Config.Valid, AnswersFor, Refreshed, AsFaulted, Ready, Listed, ParamsEqual,
           Restarts, Starts, StopDevice, HeldAtTurn, KeptNames;
      forall d | d in c ensures
        && (Restarts(Running(), d) <==>
              d.enabled && View(d.name).IsLive() && !ParamsEqual(View(d.name).rt.value.dev, d))
        && (Starts(Running(), d) <==> d.enabled && !View(d.name).IsLive())
      {
        RunningViews(d);
      }
      var running := StopPass(c);
      ghost var kept := KeptNames(running, c);
      forall d | d in c ensures Restarts(running, d) ==> d.name in running && d.name !in kept
                        ensures Starts(running, d) ==> d.name !in running && d.name !in kept
      {
        NotKept(running, c, d);
      }
      RestartPlanned(c, running, world, kept);
      StartNew(c, running, world, kept);
      forall n | !WantedIn(c, n) && n in Names(c) ensures exists d :: d in c && d.name == n && !d.enabled {
        var d :| d in c && d.name == n;
      }
    }

    /** A configuration is saved: the plan is executed, and the records follow it. Contested hardware stays with a
        device the save keeps running, and goes to a restarted one before a started one. */
    method Reconcile(newCfg: seq<Device>, world: World)
      requires Valid() && Config.Valid(newCfg)
      modifies `cfg, `hw, `devices, `stopping, `downReason, `downNotes, `retries, `encodeFaults, `geometry, `geoNotes,
               `mounted, `alive, `clock, `nextGen, `retryAt, `timerAt, `trace
      ensures Valid() && cfg == newCfg && old(clock) <= clock
      ensures forall d | d in cfg && d.enabled ::
                Restored(old(View(d.name)), old(Trace(d.name)), Trace(d.name), d, old(clock), world,
                         HeldAtTurn(cfg, KeptNames(old(Running()), cfg), old(Running()).Keys, devices, d, world))
      ensures forall d | d in cfg && !d.enabled :: exists gen, addr ::
                Trace(d.name) == Halted(old(Trace(d.name)), old(View(d.name)), old(clock))
                                 + [Event.Disable(d, gen, addr)]
      ensures forall n | n !in Names(cfg) :: Trace(n) ==
                Halted(old(Trace(n)), old(View(n)), old(clock)) + (if old(View(n)).rt.Some? then [Event.Remove] else [])
    {
      hide Base, View, LiveIn, RecordsOk, Config.Valid, Refreshed, Restored, Halted, Listed, Covered, HeldAtTurn,
           KeptNames, SameLive;
      ghost var running := Running();
      RefreshHardware(newCfg, world);
      ApplyPlan(newCfg, world);
      ghost var mid := devices;
      forall d | d in newCfg && !d.enabled ensures !WantedIn(newCfg, d.name) { OneEntry(newCfg, d); }
      ReconcileRecords(newCfg);
      DeadRecordsStand(newCfg, KeptNames(running, newCfg), running.Keys, mid, devices, world);
      cfg := newCfg;
    }

    /** The capture hardware changed: every enabled device that is down under a stable id is started. */
    method RetryDown(world: World)
      requires Valid()
      modifies `hw, `devices, `downReason, `downNotes, `retries, `encodeFaults, `geometry, `geoNotes,
               `mounted, `alive, `clock, `nextGen, `retryAt, `timerAt, `trace
      ensures Valid() && old(clock) <= clock
      ensures forall d | d in cfg && d.enabled ::
                Revived(old(View(d.name)), old(Trace(d.name)), Trace(d.name), d, world,
                        HeldAtTurn(cfg, old(Pumps().LiveNames()), {}, devices, d, world))
      ensures forall d | d in cfg && !d.enabled :: exists gen, addr ::
                Trace(d.name) == old(Trace(d.name)) + [Event.Disable(d, gen, addr)]
      ensures forall n | n !in Names(cfg) :: Trace(n) == old(Trace(n))
    {
      hide Base, View, LiveIn, Config.Valid, Refreshed, Revived, Listed, Covered, HeldAtTurn,
           SameLive;
      ghost var kept := Pumps().LiveNames();
      RefreshHardware(cfg, world);
      ReviveAll(world);
      LiveListed();
      ghost var mid := devices;
      ReconcileRecords(cfg);
      DeadRecordsStand(cfg, kept, {}, mid, devices, world);
    }

    method ReviveAll(world: World)
      requires Base() && RecordsOk(cfg) && Config.Valid(cfg) && Refreshed(cfg, world)
      modifies `devices, `downReason, `downNotes, `retries, `encodeFaults, `geometry, `geoNotes, `mounted,
               `alive, `clock, `nextGen, `retryAt, `timerAt, `trace
      ensures Base() && RecordsOk(cfg) && old(clock) <= clock
      ensures forall d | d in cfg && d.enabled ::
                Revived(old(View(d.name)), old(Trace(d.name)), Trace(d.name), d, world,
                        HeldAtTurn(cfg, old(Pumps().LiveNames()), {}, devices, d, world))
      ensures forall d | d in cfg && !d.enabled ::
                View(d.name) == old(View(d.name)) && Trace(d.name) == old(Trace(d.name))
      ensures forall n | n !in Names(cfg) :: View(n) == old(View(n)) && Trace(n) == old(Trace(n))
    {
      hide Base, View, RecordsOk, Config.Valid, Refreshed, Revived, HeldAtTurn, Untouched;
      ghost var kept, start := Pumps().LiveNames(), devices;
      DistinctNames(cfg);
      StartsUntouched(cfg, {}, false);
      for i := 0 to |cfg|
        invariant Base() && RecordsOk(cfg) && old(clock) <= clock && Refreshed(cfg, world)
        invariant Untouched(cfg, {}, false, start, i)
        invariant forall j | 0 <= j < i && cfg[j].enabled ::
                    Revived(old(View(cfg[j].name)), old(Trace(cfg[j].name)), Trace(cfg[j].name), cfg[j], world,
                            HeldAtTurn(cfg, kept, {}, devices, cfg[j], world))
        invariant forall j | 0 <= j < |cfg| && (j < i ==> !cfg[j].enabled) ::
                    View(cfg[j].name) == old(View(cfg[j].name)) && Trace(cfg[j].name) == old(Trace(cfg[j].name))
        invariant forall n | n !in Names(cfg) :: View(n) == old(View(n)) && Trace(n) == old(Trace(n))
      {
        if cfg[i].enabled {
          ReviveTurn(i, world, kept, start);
        } else {
          StaysUntouched(cfg, {}, false, start, i);
        }
      }
    }

    /** One device the hardware change may bring back, in its turn. */
    method ReviveTurn(i: nat, world: World, ghost kept: set<string>, ghost start: map<string, Runtime>)
      requires Base() && RecordsOk(cfg) && Config.Valid(cfg) && i < |cfg| && cfg[i].enabled && Refreshed(cfg, world)
      requires Untouched(cfg, {}, false, start, i) && forall n :: n in kept <==> n in start && start[n].Live()
      modifies `devices, `downReason, `downNotes, `retries, `encodeFaults, `geometry, `geoNotes, `mounted,
               `alive, `clock, `nextGen, `retryAt, `timerAt, `trace
      ensures Base() && RecordsOk(cfg) && old(clock) <= clock && Untouched(cfg, {}, false, start, i + 1)
      ensures Revived(old(View(cfg[i].name)), old(Trace(cfg[i].name)), Trace(cfg[i].name), cfg[i], world,
                      HeldAtTurn(cfg, kept, {}, devices, cfg[i], world))
      ensures forall j | 0 <= j < i :: HeldAtTurn(cfg, kept, {}, devices, cfg[j], world)
                                       <==> HeldAtTurn(cfg, kept, {}, old(devices), cfg[j], world)
      ensures forall n | n != cfg[i].name :: View(n) == old(View(n)) && Trace(n) == old(Trace(n))
    {
      hide Revived, Config.Valid, View, Base, RecordsOk, Refreshed, HeldAtTurn, HeldNow, MidPass;
      ghost var mid := devices;
      RecordViews();
      DistinctNames(cfg);
      PassTurn(kept, start, i);
      Revive(cfg[i], world);
      RecordViews();
      Turn(cfg, kept, {}, start, mid, devices, i, world);
    }

    method Revive(d: Device, world: World)
      requires Base() && RecordsOk(cfg) && Config.Valid(cfg) && d in cfg && d.enabled && Refreshed(cfg, world)
      modifies `devices, `downReason, `downNotes, `retries, `encodeFaults, `geometry, `geoNotes, `mounted,
               `alive, `clock, `nextGen, `retryAt, `timerAt, `trace
      ensures Base() && RecordsOk(cfg) && old(clock) <= clock
      ensures Revived(old(View(d.name)), old(Trace(d.name)), Trace(d.name), d, world, old(Held(d, world)))
      ensures old(View(d.name)).IsLive() ==> View(d.name).rt == old(View(d.name)).rt
      ensures forall n | n != d.name :: View(n) == old(View(n))
      ensures forall n | n != d.name :: Trace(n) == old(Trace(n))
    {
      hide BoardOk, Explains, View, TimerOk, Config.Valid, LiveIn, Step, Allowed, AnswersFor, Listed, IsCardIndex,
           HeldNow;
      LiveListed();
      ViewAt(d.name);
      ViewInv(d.name);
      ghost var v, o := View(d.name), ANY_OPENING;
      ListedHere(d);
      if IsCardIndex(d.id) || !devices[d.name].IsDown() { return; }
      DownAllows(v, d);
      if FaultedPaths(d.name) != [] {
        o := RecordRestart(d, world, false, cfg);
      } else {
        o := RecordStart(d, world, cfg);
      }
      LaunchListed(v, d, o, false);
    }

    lemma ListedHere(d: Device)
      requires RecordsOk(cfg) && Config.Valid(cfg) && d in cfg
      ensures Listed(View(d.name), d) && d.name in devices
      ensures forall e | e in cfg && e.name == d.name :: e == d
    {
      ViewAt(d.name);
      forall e | e in cfg && e.name == d.name ensures e == d { SameName(cfg, d, e); }
    }

    // ----- what holds between events -----

    /** Every device's trace is a run that kept to the clock, and its state is where that run leads: what is
        proved of all runs holds of every device. */
    lemma TracesAreRuns(n: string)
      requires Valid()
      ensures IsRun(Trace(n)) && Timed(Trace(n)) && View(n) == Replay(Trace(n))
      ensures Inv(View(n))
    {
      assert Explains(Trace(n), View(n), clock);
      RunKeepsInv(Trace(n));
    }

    /** A retry state is in exactly one mode, pending on a down record and any other on a serving one; a down
        device has an active condition, a serving one has one iff its restart has yet to settle, and a
        disabled or unconfigured one has neither condition nor any other state. */
    lemma StateIsSound(n: string)
      requires Valid()
      ensures n in retries ==>
                var st := retries[n];
                && n in devices && (devices[n].IsDown() || devices[n].Live())
                && One(Pending(st)) + One(Settling(st)) + One(Waiting(st)) + One(Recovered(st)) == 1
                && (Pending(st) <==> devices[n].IsDown())
      ensures Active(History(downNotes, n)) <==> n in downReason
      ensures n in devices && devices[n].IsDown() ==> n in downReason
      ensures n in devices && devices[n].Live() ==> (n in downReason <==> n in retries && retries[n].recoveredAt.None?)
      ensures n in encodeFaults ==> n in downReason && encodeFaults[n].paths != []
      ensures !WantedIn(cfg, n) ==> n !in downReason && n !in retries && n !in encodeFaults && n !in geometry
      ensures !WantedIn(cfg, n) ==> !Active(History(geoNotes, n))
    {
      TracesAreRuns(n);
      EveryPointOfARun(Trace(n));
      NothingToPrune(n);
      if View(n).rt.Some? { ListedRecord(n); }
      ViewAt(n);
    }

    /** Pumps are conserved, and hardware and paths exclusive. */
    lemma PumpsAreConserved()
      requires Valid()
      ensures alive == |set n | n in devices && devices[n].Live()| + |stopping|
      ensures forall p :: p in mounted <==> exists n | n in devices :: devices[n].Live() && p in devices[n].dev.Paths()
      ensures forall p | p in mounted ::
                && mounted[p].device in devices && devices[mounted[p].device].Live()
                && mounted[p].gen == devices[mounted[p].device].gen
      ensures forall n, m | n in devices && m in devices && n != m && devices[n].Live() && devices[m].Live() ::
                devices[n].addr != "" ==> devices[n].addr != devices[m].addr
    {
      Conserved(Pumps());
    }
  }
}
