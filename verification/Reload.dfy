/** How a saved configuration is reconciled with the devices that are running. */
module Reload {
  import opened Config

  /** The configuration wants a device of this name serving. */
  predicate WantedIn(c: seq<Device>, n: string) { exists d | d in c :: d.name == n && d.enabled }

  /** A running device the configuration no longer wants serving. */
  predicate Stops(running: map<string, Device>, c: seq<Device>, n: string) { n in running && !WantedIn(c, n) }

  /** A running device whose capture or streams changed. */
  predicate Restarts(running: map<string, Device>, d: Device) {
    d.enabled && d.name in running && !ParamsEqual(running[d.name], d)
  }

  /** An enabled device that is not running. */
  predicate Starts(running: map<string, Device>, d: Device) {
    d.enabled && d.name !in running
  }

  /** A running device that keeps running untouched. */
  predicate Keeps(running: map<string, Device>, c: seq<Device>, n: string) {
    n in running && exists d | d in c :: d.name == n && d.enabled && ParamsEqual(running[n], d)
  }

  /** The running devices a save leaves alone. */
  function KeptNames(running: map<string, Device>, c: seq<Device>): set<string> {
    set n | n in running && Keeps(running, c, n)
  }

  /** A running device the save stops, for good or to restart it. */
  predicate Leaves(running: map<string, Device>, c: seq<Device>, n: string) {
    Stops(running, c, n) || exists d | d in c :: d.name == n && Restarts(running, d)
  }

  /** A device is left running exactly when the configuration lists it enabled with the id, rate, format and streams it
      runs with. */
  lemma KeptExactly(running: map<string, Device>, c: seq<Device>, n: string)
    ensures n in KeptNames(running, c) <==>
            && n in running
            && exists d | d in c ::
                 && d.name == n && d.enabled && d.id == running[n].id && d.rate == running[n].rate
                 && d.format == running[n].format && d.streams == running[n].streams
  {}

  lemma SameName(c: seq<Device>, d: Device, e: Device)
    requires Config.Valid(c) && d in c && e in c && d.name == e.name
    ensures d == e
  {
    var i :| 0 <= i < |c| && c[i] == d;
    var j :| 0 <= j < |c| && c[j] == e;
  }

  lemma OneEntry(c: seq<Device>, d: Device)
    requires Config.Valid(c) && d in c && !d.enabled
    ensures !WantedIn(c, d.name)
  {
    forall e | e in c && e.name == d.name ensures e == d { SameName(c, d, e); }
  }

  lemma DistinctNames(c: seq<Device>)
    requires Config.Valid(c)
    ensures forall i, j | 0 <= i < |c| && 0 <= j < |c| && i != j :: c[i].name != c[j].name
  {}

  /** A running device is stopped for good, stopped to be restarted, or kept; exactly one of the three. */
  lemma PlanIsComplete(running: map<string, Device>, c: seq<Device>, n: string)
    requires Config.Valid(c) && n in running
    ensures Leaves(running, c, n) <==> !Keeps(running, c, n)
    ensures Stops(running, c, n) ==> !exists d | d in c :: d.name == n && Restarts(running, d)
  {
    forall d, e | d in c && e in c && d.name == n && e.name == n ensures d == e { SameName(c, d, e); }
  }

  /** A device that keeps running does so as the configuration lists it. */
  lemma KeptAsListed(running: map<string, Device>, c: seq<Device>, n: string)
    requires Keeps(running, c, n) && running[n].enabled && running[n].name == n
    ensures running[n] in c
  {
    var d :| d in c && d.name == n && d.enabled && ParamsEqual(running[n], d);
    assert running[n] == d;
  }

  /** A device the save restarts or starts is not one it leaves alone. */
  lemma NotKept(running: map<string, Device>, c: seq<Device>, d: Device)
    requires Config.Valid(c) && d in c
    ensures Restarts(running, d) ==> d.name in running && d.name !in KeptNames(running, c)
    ensures Starts(running, d) ==> d.name !in running && d.name !in KeptNames(running, c)
  {
    if Restarts(running, d) { PlanIsComplete(running, c, d.name); }
  }
}
