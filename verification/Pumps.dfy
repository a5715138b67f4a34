/** Conservation and exclusivity of the capture pumps: what the counters, the mounted RTSP paths and the
    device records say of each other. The lemmas are the four ways a record's liveness can change. */
module Pumps {
  import opened Config
  import opened Lifecycle

  /** The RTSP track mounted at a path: the device and runtime that serve it. */
  datatype Track = Track(device: string, gen: nat)

  /** The records, the runtimes told to stop whose pump has yet to report, the count of live pumps, the
      mounted paths, and the next identity to hand out. */
  datatype Board = Board(devices: map<string, Runtime>, stopping: set<nat>, alive: int,
                         mounted: map<string, Track>, nextGen: nat)
  {
    predicate IsLive(n: string) { n in devices && devices[n].Live() }

    ghost function LiveNames(): set<string> { set n | n in devices && devices[n].Live() }

    /** One pump per live runtime, and one per stopped runtime yet to report. */
    ghost predicate CountOk() { alive == |LiveNames()| + |stopping| }

    /** The record at n is its own; while it is live its pump has not been told to stop, and every one of
        its paths is mounted and served by it. */
    ghost predicate RecordOk(n: string) {
      n in devices ==>
        && devices[n].dev.name == n && devices[n].gen < nextGen
        && (devices[n].Live() ==>
              && devices[n].gen !in stopping
              && forall p | p in devices[n].dev.Paths() :: p in mounted && mounted[p] == Track(n, devices[n].gen))
    }

    /** Nothing else is mounted. */
    ghost predicate PathOk(p: string) {
      p in mounted ==> IsLive(mounted[p].device) && p in devices[mounted[p].device].dev.Paths()
    }

    /** Two live devices are two runtimes, and never capture from one piece of hardware. */
    ghost predicate Apart(n: string, m: string) {
      n != m && IsLive(n) && IsLive(m) ==>
        devices[n].gen != devices[m].gen && (devices[n].addr != "" ==> devices[n].addr != devices[m].addr)
    }

    /** Another live device already captures from the hardware at addr. */
    ghost predicate Owned(addr: string, name: string) {
      addr != "" && exists other :: other != name && IsLive(other) && devices[other].addr == addr
    }

    predicate PathsFree(dev: Device) { forall p | p in dev.Paths() :: p !in mounted }
  }

  ghost predicate BoardOk(b: Board) {
    && b.CountOk()
    && (forall g | g in b.stopping :: g < b.nextGen)
    && (forall n :: b.RecordOk(n)) && (forall p :: b.PathOk(p)) && (forall n, m :: b.Apart(n, m))
  }

  function Tracks(rt: Runtime): map<string, Track> {
    map p | p in rt.dev.Paths() :: Track(rt.dev.name, rt.gen)
  }

  /** What the bookkeeping comes to: as many pumps as live runtimes and stopped ones yet to report, exactly
      the live runtimes' paths mounted, each by the current runtime, and no two on one piece of hardware. */
  lemma Conserved(b: Board)
    requires BoardOk(b)
    ensures b.alive == |set n | n in b.devices && b.devices[n].Live()| + |b.stopping|
    ensures forall p :: p in b.mounted <==>
              exists n | n in b.devices :: b.devices[n].Live() && p in b.devices[n].dev.Paths()
    ensures forall p | p in b.mounted ::
              b.IsLive(b.mounted[p].device) && b.mounted[p].gen == b.devices[b.mounted[p].device].gen
    ensures forall n, m | n in b.devices && m in b.devices && n != m && b.devices[n].Live() && b.devices[m].Live() ::
              b.devices[n].addr != "" ==> b.devices[n].addr != b.devices[m].addr
  {
    forall p
      ensures p in b.mounted <==> exists n | n in b.devices :: b.devices[n].Live() && p in b.devices[n].dev.Paths()
    {
      assert b.PathOk(p);
      if n :| n in b.devices && b.devices[n].Live() && p in b.devices[n].dev.Paths() { assert b.RecordOk(n); }
    }
    forall p | p in b.mounted
      ensures b.IsLive(b.mounted[p].device) && b.mounted[p].gen == b.devices[b.mounted[p].device].gen
    {
      assert b.PathOk(p) && b.RecordOk(b.mounted[p].device);
    }
    forall n, m | n in b.devices && m in b.devices && n != m && b.devices[n].Live() && b.devices[m].Live()
      ensures b.devices[n].addr != "" ==> b.devices[n].addr != b.devices[m].addr
    {
      assert b.Apart(n, m);
    }
  }

  /** A record that is not live gives way to another that is not. */
  lemma DeadRecord(b: Board, rt: Runtime, nextGen: nat)
    requires BoardOk(b) && !b.IsLive(rt.dev.name) && !rt.Live() && rt.gen < nextGen && b.nextGen <= nextGen
    ensures BoardOk(b.(devices := b.devices[rt.dev.name := rt], nextGen := nextGen))
  {
    var c := b.(devices := b.devices[rt.dev.name := rt], nextGen := nextGen);
    assert c.LiveNames() == b.LiveNames();
    forall n ensures c.RecordOk(n) { assert b.RecordOk(n); }
    forall p ensures c.PathOk(p) { assert b.PathOk(p); }
    forall n, m ensures c.Apart(n, m) { assert b.Apart(n, m); }
  }

  /** A runtime that opened: its record is stored, its paths mounted, its pump counted. */
  lemma ServedRecord(b: Board, rt: Runtime)
    requires BoardOk(b) && !b.IsLive(rt.dev.name) && rt.Live() && rt.gen == b.nextGen
    requires b.PathsFree(rt.dev) && !b.Owned(rt.addr, rt.dev.name)
    ensures BoardOk(b.(devices := b.devices[rt.dev.name := rt], alive := b.alive + 1,
               mounted := b.mounted + Tracks(rt), nextGen := b.nextGen + 1))
  {
    var c := b.(devices := b.devices[rt.dev.name := rt], alive := b.alive + 1,
                mounted := b.mounted + Tracks(rt), nextGen := b.nextGen + 1);
    assert c.LiveNames() == b.LiveNames() + {rt.dev.name};
    forall n ensures c.RecordOk(n) { assert b.RecordOk(n); }
    forall p ensures c.PathOk(p) { assert b.PathOk(p); }
    forall n, m ensures c.Apart(n, m) { assert b.Apart(n, m) && b.RecordOk(n) && b.RecordOk(m); }
  }

  /** A live device told to stop: its pump is still counted, its paths are gone. */
  lemma StoppedRecord(b: Board, n: string)
    requires BoardOk(b) && b.IsLive(n)
    ensures var rt := b.devices[n];
            BoardOk(b.(devices := b.devices[n := rt.(superseded := true)], stopping := b.stopping + {rt.gen},
               mounted := b.mounted - rt.dev.Paths()))
  {
    var rt := b.devices[n];
    var c := b.(devices := b.devices[n := rt.(superseded := true)], stopping := b.stopping + {rt.gen},
                mounted := b.mounted - rt.dev.Paths());
    assert b.RecordOk(n);
    assert c.LiveNames() == b.LiveNames() - {n};
    GoneKeepsRest(b, n, c);
  }

  /** Dropping a live device from the live ones, with its paths, leaves the rest as they were. */
  lemma GoneKeepsRest(b: Board, n: string, c: Board)
    requires BoardOk(b) && b.IsLive(n) && n in c.devices && !c.devices[n].Live()
    requires c.devices == b.devices[n := c.devices[n]] && c.nextGen == b.nextGen
    requires c.devices[n].dev == b.devices[n].dev && c.devices[n].gen == b.devices[n].gen
    requires c.mounted == b.mounted - b.devices[n].dev.Paths()
    requires c.stopping <= b.stopping + {b.devices[n].gen}
    ensures (forall m :: c.RecordOk(m)) && (forall p :: c.PathOk(p)) && (forall l, m :: c.Apart(l, m))
  {
    forall m ensures c.RecordOk(m) {
      assert b.RecordOk(m) && b.RecordOk(n) && b.Apart(m, n);
      if c.IsLive(m) {
        forall p | p in c.devices[m].dev.Paths() ensures p in c.mounted && c.mounted[p] == Track(m, c.devices[m].gen) {
          assert b.mounted[p] == Track(m, b.devices[m].gen);
        }
      }
    }
    forall p ensures c.PathOk(p) { assert b.PathOk(p) && b.RecordOk(n); }
    forall l, m ensures c.Apart(l, m) { assert b.Apart(l, m); }
  }

  /** A live device whose pump ended on its own. */
  lemma DiedRecord(b: Board, n: string, rt: Runtime)
    requires BoardOk(b) && b.IsLive(n) && !rt.Live() && rt.dev == b.devices[n].dev && rt.gen == b.devices[n].gen
    ensures BoardOk(b.(devices := b.devices[n := rt], alive := b.alive - 1, mounted := b.mounted - rt.dev.Paths()))
  {
    var c := b.(devices := b.devices[n := rt], alive := b.alive - 1, mounted := b.mounted - rt.dev.Paths());
    assert c.LiveNames() == b.LiveNames() - {n};
    GoneKeepsRest(b, n, c);
  }

  /** The late result of a stopped pump changes nothing but the counts: its successor keeps its paths. */
  lemma ReportedStop(b: Board, gen: nat)
    requires BoardOk(b) && gen in b.stopping
    ensures BoardOk(b.(alive := b.alive - 1, stopping := b.stopping - {gen}))
  {
    var c := b.(alive := b.alive - 1, stopping := b.stopping - {gen});
    assert c.LiveNames() == b.LiveNames();
    assert b.stopping == c.stopping + {gen};
    forall n ensures c.RecordOk(n) { assert b.RecordOk(n); }
    forall p ensures c.PathOk(p) { assert b.PathOk(p); }
    forall n, m ensures c.Apart(n, m) { assert b.Apart(n, m); }
  }

  /** A record that is not live is dropped. */
  lemma RemovedRecord(b: Board, n: string)
    requires BoardOk(b) && !b.IsLive(n)
    ensures BoardOk(b.(devices := b.devices - {n}))
  {
    var c := b.(devices := b.devices - {n});
    assert c.LiveNames() == b.LiveNames();
    forall m ensures c.RecordOk(m) { assert b.RecordOk(m); }
    forall p ensures c.PathOk(p) { assert b.PathOk(p); }
    forall l, m ensures c.Apart(l, m) { assert b.Apart(l, m); }
  }

  /** A live record changes in nothing the board depends on. */
  lemma TouchedRecord(b: Board, n: string, rt: Runtime)
    requires BoardOk(b) && b.IsLive(n) && rt.Live()
    requires rt.dev == b.devices[n].dev && rt.gen == b.devices[n].gen && rt.addr == b.devices[n].addr
    ensures BoardOk(b.(devices := b.devices[n := rt]))
  {
    var c := b.(devices := b.devices[n := rt]);
    assert c.LiveNames() == b.LiveNames();
    forall m ensures c.RecordOk(m) { assert b.RecordOk(m); }
    forall p ensures c.PathOk(p) { assert b.PathOk(p); }
    forall l, m ensures c.Apart(l, m) { assert b.Apart(l, m); }
  }

  /** While every live device is one the configuration lists, a configured device that is not live finds
      its paths free: no other device's stream is mounted there. */
  lemma ConfiguredPathsFree(b: Board, cfg: seq<Device>, d: Device)
    requires BoardOk(b) && Config.Valid(cfg) && d in cfg && !b.IsLive(d.name)
    requires forall n | b.IsLive(n) :: b.devices[n].dev in cfg
    ensures b.PathsFree(d)
  {
    forall p | p in d.Paths() ensures p !in b.mounted {
      assert b.PathOk(p);
      var other := if p in b.mounted then b.devices[b.mounted[p].device].dev else d;
      assert p in b.mounted ==> b.RecordOk(b.mounted[p].device) && other in cfg && other.name != d.name;
      DistinctPaths(cfg, d, other);
    }
  }

  lemma DistinctPaths(cfg: seq<Device>, d: Device, other: Device)
    requires Config.Valid(cfg) && d in cfg && other in cfg
    ensures d.name != other.name ==> d.Paths() !! other.Paths()
  {
    var i :| 0 <= i < |cfg| && cfg[i] == d;
    var j :| 0 <= j < |cfg| && cfg[j] == other;
  }
}
