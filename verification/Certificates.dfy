/** The management certificate on disk: an installed pair is pinned by a marker beside it and outlives every
    fault that could be transient; any other pair the appliance manages itself. */
module Certificates {
  import opened Common

  /** A directory entry: none, a regular file, and a symlink, whose target may be gone for now. */
  datatype Entry = Missing | File(content: string) | Link(content: string, present: bool)
  {
    predicate Holds(c: string) { !Missing? && content == c }
  }

  /** The pair and its marker, and what a write left in the two staging files beside the pair. */
  datatype Files = Files(cert: Entry, key: Entry, marker: Entry, certStaged: Option<string>, keyStaged: Option<string>)
  {
    /** The pair and marker are those of another state. */
    predicate SamePair(f: Files) { cert == f.cert && key == f.key && marker == f.marker }
  }

  /** The subject names and validity of a parsed certificate. */
  datatype Leaf = Leaf(dns: seq<string>, ips: seq<string>, notBefore: int, notAfter: int)

  /** What the X.509 and IP parsers answer: the leaf of a pair that matches, whether a leaf is good for a host, the
      printed form of an IP literal, and the certificate chain of an uploaded pair that passes validation. */
  datatype X509 = X509(parse: (string, string) -> Option<Leaf>, verify: (Leaf, string) -> bool,
                       parseIp: string -> Option<string>, validate: (string, string) -> Option<string>)

  /** A validated pair parses, and an IP, also one read from a certificate, prints as a literal of itself. */
  ghost predicate Sound(x: X509) {
    && x.parseIp("").None?
    && (forall c, k :: x.validate(c, k).Some? ==> x.parse(x.validate(c, k).value, k).Some?)
    && (forall s :: x.parseIp(s).Some? ==> IsIp(x, x.parseIp(s).value))
    && (forall c, k :: x.parse(c, k).Some? ==> forall p | p in x.parse(c, k).value.ips :: IsIp(x, p))
  }

  predicate IsIp(x: X509, p: string) { p != "" && x.parseIp(p) == Some(p) }

  datatype ReadError = NotExist | OtherError

  /** The faults one call meets: reads and stats that fail, and the steps of the write that do. */
  datatype Faults = Faults(readCert: bool, readKey: bool, statCert: bool, statKey: bool, statMarker: bool,
                           stageCert: bool, stageKey: bool, commitCert: bool, commitKey: bool, removeMarker: bool,
                           removeStaged: bool)

  /** A certificate and its key, as written. */
  datatype Pair = Pair(cert: string, key: string)

  /** One start: the names and addresses the appliance has now, and how a pair is generated for a list of hosts,
      which can fail. */
  datatype Call = Call(hosts: seq<string>, now: int, faults: Faults, make: seq<string> -> Option<Pair>)

  const VALIDITY: int := 10 * 365 * 24 * HOUR

  /** What is generated for hosts parses as a certificate in date for exactly those hosts. */
  ghost predicate Makes(x: X509, c: Call) {
    forall hosts :: c.make(hosts).Some? ==> MadeFor(x, c.make(hosts).value, hosts, c.now)
  }

  predicate MadeFor(x: X509, pair: Pair, hosts: seq<string>, now: int) {
    x.parse(pair.cert, pair.key) == Some(Leaf(DnsOf(x, hosts), IpsOf(x, hosts), now - HOUR, now + VALIDITY))
  }

  datatype Outcome = Reused(cert: string, key: string) | PinnedRead | Generated(ok: bool)

  // ----- reading -----

  function Read(e: Entry, fault: bool): (r: (Option<ReadError>, string)) {
    if fault then (Some(OtherError), "")
    else if e.Missing? || (e.Link? && !e.present) then (Some(NotExist), "")
    else (None, e.content)
  }

  /** Whether a stat of the entry itself, not of what it links to, finds it. */
  function Lstat(e: Entry, fault: bool): Option<ReadError> {
    if fault then Some(OtherError) else if e.Missing? then Some(NotExist) else None
  }

  /** Only a stat that says the marker does not exist reads as unpinned. */
  predicate Pinned(f: Files, fault: bool) { Lstat(f.marker, fault) != Some(NotExist) }

  /** A failed read of a pinned file that does not prove the file missing. */
  predicate ReadFault(e: Entry, read: Option<ReadError>, statFault: bool) {
    read.Some? && (read.value.OtherError? || Lstat(e, statFault) != Some(NotExist))
  }

  function ParsePair(x: X509, cert: (Option<ReadError>, string), key: (Option<ReadError>, string)): Option<Leaf> {
    if cert.0.Some? || key.0.Some? then None else x.parse(cert.1, key.1)
  }

  predicate CurrentlyValid(l: Leaf, now: int) { l.notBefore < now < l.notAfter }

  predicate Covers(x: X509, l: Leaf, hosts: seq<string>) { forall h | h in hosts :: x.verify(l, h) }

  // ----- writing -----

  /** The entry after a rename over what it resolves to: through a symlink whose target is there, and in
      place of anything else. */
  function Renamed(e: Entry, content: string): Entry {
    if e.Link? && e.present then e.(content := content) else File(content)
  }

  /** Staging files are removed after a failure, unless that fails too. */
  function Unstaged(f: Files, t: Faults): Files {
    if t.removeStaged then f else f.(certStaged := None, keyStaged := None)
  }

  /** The pair is staged whole before either file is renamed into place. */
  function WritePair(f: Files, pair: Pair, t: Faults): (Files, bool) {
    if t.stageCert then (f, false)
    else
      var f1 := f.(certStaged := Some(pair.cert));
      if t.stageKey then (if t.removeStaged then f1 else f1.(certStaged := None), false)
      else
        var f2 := f1.(keyStaged := Some(pair.key));
        if t.commitCert then (Unstaged(f2, t), false)
        else
          var f3 := f2.(cert := Renamed(f2.cert, pair.cert), certStaged := None);
          if t.commitKey then (Unstaged(f3, t), false)
          else (f3.(key := Renamed(f3.key, pair.key), keyStaged := None), true)
  }

  function Unpin(f: Files, t: Faults): Files { if t.removeMarker then f else f.(marker := Missing) }

  function Generate(f: Files, c: Call, hosts: seq<string>): (Files, bool) {
    var pair := c.make(hosts);
    if pair.None? then (f, false) else WritePair(f, pair.value, c.faults)
  }

  // ----- names -----

  /** Each entry once, in order, and none empty. */
  function Union(s: seq<string>): seq<string> {
    if s == [] then []
    else
      var u, h := Union(s[..|s| - 1]), s[|s| - 1];
      if h == "" || h in u then u else u + [h]
  }

  /** hosts, then the names the certificate carries. */
  function Carried(l: Leaf, hosts: seq<string>): seq<string> { Union(hosts + l.dns + l.ips) }

  function DnsOf(x: X509, hosts: seq<string>): seq<string> {
    if hosts == [] then []
    else DnsOf(x, hosts[..|hosts| - 1]) + if x.parseIp(hosts[|hosts| - 1]).None? then [hosts[|hosts| - 1]] else []
  }

  function IpsOf(x: X509, hosts: seq<string>): seq<string> {
    if hosts == [] then []
    else
      var ip := x.parseIp(hosts[|hosts| - 1]);
      IpsOf(x, hosts[..|hosts| - 1]) + if ip.Some? then [ip.value] else []
  }

  /** The hosts a new pair is generated for: an in-date certificate's names are carried forward, those of an expired
      or broken one are not. */
  function HostsFor(leaf: Option<Leaf>, c: Call): seq<string> {
    if leaf.Some? && CurrentlyValid(leaf.value, c.now) then Carried(leaf.value, c.hosts) else c.hosts
  }

  /** The start of the management server: the pair to serve, reused or generated. */
  function Ensure(x: X509, f: Files, c: Call): (Files, Outcome) {
    var pinned := Pinned(f, c.faults.statMarker);
    var cert, key := Read(f.cert, c.faults.readCert), Read(f.key, c.faults.readKey);
    if pinned && (ReadFault(f.cert, cert.0, c.faults.statCert) || ReadFault(f.key, key.0, c.faults.statKey))
    then (f, PinnedRead)
    else
      var leaf := ParsePair(x, cert, key);
      if leaf.Some? && (pinned || (CurrentlyValid(leaf.value, c.now) && Covers(x, leaf.value, c.hosts)))
      then (f, Reused(cert.1, key.1))
      else
        var g := Generate(if pinned then Unpin(f, c.faults) else f, c, HostsFor(leaf, c));
        (g.0, Generated(g.1))
  }

  // ----- what a start does -----

  /** The file can be read now: a regular one, or through a symlink whose target is there. */
  predicate Readable(e: Entry, fault: bool) { !fault && (e.File? || (e.Link? && e.present)) }

  /** The file cannot be read, and that is not because it is known not to exist. */
  predicate Unread(e: Entry, fault: bool, statFault: bool) {
    !Readable(e, fault) && (fault || statFault || !e.Missing?)
  }

  /** The certificate of a pair of which both files were read and match. */
  function Found(x: X509, f: Files, c: Call): Option<Leaf> {
    if Readable(f.cert, c.faults.readCert) && Readable(f.key, c.faults.readKey)
    then x.parse(f.cert.content, f.key.content) else None
  }

  /** A certificate good now, and for every name the appliance has now. */
  predicate GoodFor(x: X509, l: Leaf, c: Call) {
    l.notBefore < c.now && c.now < l.notAfter && forall h | h in c.hosts :: x.verify(l, h)
  }

  /** The entry a completed write leaves: a symlink whose target is there still links to it. */
  predicate Rewritten(e: Entry, content: string, after: Entry) {
    after == if e.Link? && e.present then Link(content, true) else File(content)
  }

  /** A fresh pair for hosts: both files are the new ones exactly if it was generated and no step of the write failed;
      else the key is the old one, and the certificate too unless the write failed between the two renames. */
  predicate FreshPair(f: Files, c: Call, hosts: seq<string>, g: Files, ok: bool) {
    var pair, t := c.make(hosts), c.faults;
    && (ok <==> pair.Some? && !t.stageCert && !t.stageKey && !t.commitCert && !t.commitKey)
    && (ok ==> Rewritten(f.cert, pair.value.cert, g.cert) && Rewritten(f.key, pair.value.key, g.key))
    && (!ok ==> g.key == f.key)
    && (!ok ==> if pair.Some? && !t.stageCert && !t.stageKey && !t.commitCert
                then Rewritten(f.cert, pair.value.cert, g.cert) else g.cert == f.cert)
  }

  /** What a start leaves and answers: a pinned pair that may be there unread is refused; a pinned pair that parses is
      served, and an unpinned one that is also good; anything else is replaced, and a pin on it dropped. */
  predicate StartIs(x: X509, f: Files, c: Call, g: Files, r: Outcome) {
    var pinned, leaf := c.faults.statMarker || !f.marker.Missing?, Found(x, f, c);
    if pinned && (|| Unread(f.cert, c.faults.readCert, c.faults.statCert)
                  || Unread(f.key, c.faults.readKey, c.faults.statKey))
    then r == PinnedRead && g == f
    else if leaf.Some? && (pinned || GoodFor(x, leaf.value, c)) then
      r == Reused(f.cert.content, f.key.content) && g == f
    else
      var carries := leaf.Some? && leaf.value.notBefore < c.now && c.now < leaf.value.notAfter;
      && r.Generated? && FreshPair(f, c, if carries then Carried(leaf.value, c.hosts) else c.hosts, g, r.ok)
      && g.marker == if pinned && !c.faults.removeMarker then Missing else f.marker
  }

  lemma EnsureIsStart(x: X509, f: Files, c: Call)
    ensures StartIs(x, f, c, Ensure(x, f, c).0, Ensure(x, f, c).1)
  {
    hide Carried;
  }

  /** An unpinned pair is reused exactly when both its files are read, they match, and the certificate is in date and
      good for every name the appliance has now; in every other case a new one is generated. */
  lemma ReusedExactly(x: X509, f: Files, c: Call)
    requires f.marker.Missing? && !c.faults.statMarker
    ensures Ensure(x, f, c).1.Reused? <==>
              && Readable(f.cert, c.faults.readCert) && Readable(f.key, c.faults.readKey)
              && x.parse(f.cert.content, f.key.content).Some?
              && var l := x.parse(f.cert.content, f.key.content).value;
                 l.notBefore < c.now < l.notAfter && forall h | h in c.hosts :: x.verify(l, h)
    ensures !Ensure(x, f, c).1.Reused? ==> Ensure(x, f, c).1.Generated?
  {
    EnsureIsStart(x, f, c);
  }

  // ----- the store -----

  class Store {
    const x: X509
    var files: Files

    constructor (x: X509, files: Files)
      ensures this.x == x && this.files == files
    {
      this.x, this.files := x, files;
    }

    /** Writes the pair as a unit. A failure to stage either file leaves the pair as it was; the one window in
        which certificate and key differ is between the two renames; and no staging file outlives the write unless
        it cannot be removed. */
    method WritePairToDisk(pair: Pair, t: Faults) returns (ok: bool)
      modifies `files
      ensures (files, ok) == WritePair(old(files), pair, t)
      ensures ok <==> !t.stageCert && !t.stageKey && !t.commitCert && !t.commitKey
      ensures t.stageCert || t.stageKey || t.commitCert ==> files.SamePair(old(files))
      ensures ok ==> files.cert.Holds(pair.cert) && files.key.Holds(pair.key)
      ensures files.marker == old(files).marker && (!ok ==> files.key == old(files).key)
      ensures ok || (!t.stageCert && !t.removeStaged && old(files).keyStaged.None?) ==>
                files.certStaged.None? && files.keyStaged.None?
    {
      if t.stageCert { return false; }
      files := files.(certStaged := Some(pair.cert));
      if t.stageKey {
        if !t.removeStaged { files := files.(certStaged := None); }
        return false;
      }
      files := files.(keyStaged := Some(pair.key));
      if t.commitCert {
        RemoveStaged(t);
        return false;
      }
      files := files.(cert := Renamed(files.cert, files.certStaged.value), certStaged := None);
      if t.commitKey {
        RemoveStaged(t);
        return false;
      }
      files := files.(key := Renamed(files.key, files.keyStaged.value), keyStaged := None);
      return true;
    }

    method RemoveStaged(t: Faults)
      modifies `files
      ensures files == Unstaged(old(files), t)
    {
      if t.removeStaged { return; }
      files := files.(certStaged := None, keyStaged := None);
    }

    method UnpinOnDisk(t: Faults)
      modifies `files
      ensures files == Unpin(old(files), t)
    {
      if t.removeMarker { return; }
      files := files.(marker := Missing);
    }

    method EnsureOnDisk(c: Call) returns (r: Outcome)
      modifies `files
      ensures (files, r) == Ensure(x, old(files), c) && StartIs(x, old(files), c, files, r)
    {
      EnsureIsStart(x, files, c);
      var pinned := Pinned(files, c.faults.statMarker);
      var cert, key := Read(files.cert, c.faults.readCert), Read(files.key, c.faults.readKey);
      if pinned {
        if ReadFault(files.cert, cert.0, c.faults.statCert) { return PinnedRead; }
        if ReadFault(files.key, key.0, c.faults.statKey) { return PinnedRead; }
      }
      var leaf := ParsePair(x, cert, key);
      if leaf.Some? {
        if pinned { return Reused(cert.1, key.1); }
        if CurrentlyValid(leaf.value, c.now) && Covers(x, leaf.value, c.hosts) { return Reused(cert.1, key.1); }
      }
      var hosts := c.hosts;
      if leaf.Some? && CurrentlyValid(leaf.value, c.now) { hosts := CarryForward(leaf.value, c.hosts); }
      if pinned { UnpinOnDisk(c.faults); }
      var ok := GenerateOnDisk(c, hosts);
      return Generated(ok);
    }

    method GenerateOnDisk(c: Call, hosts: seq<string>) returns (ok: bool)
      modifies `files
      ensures (files, ok) == Generate(old(files), c, hosts)
      ensures ok ==> && c.make(hosts).Some?
                     && files.cert.Holds(c.make(hosts).value.cert) && files.key.Holds(c.make(hosts).value.key)
      ensures !ok ==> files.key == old(files).key
      ensures files.marker == old(files).marker
    {
      var pair := c.make(hosts);
      if pair.None? { return false; }
      ok := WritePairToDisk(pair.value, c.faults);
    }

    /** An operator's pair, validated before anything is written, and pinned after all of it is. */
    method Install(certPem: string, keyPem: string, t: Faults, markerFault: bool) returns (ok: bool)
      modifies `files
      ensures x.validate(certPem, keyPem).None? ==> !ok && files == old(files)
      ensures ok <==> && x.validate(certPem, keyPem).Some? && !markerFault
                      && !t.stageCert && !t.stageKey && !t.commitCert && !t.commitKey
      ensures ok ==> && x.validate(certPem, keyPem).Some?
                     && Installed(files, Pair(x.validate(certPem, keyPem).value, keyPem))
      ensures ok && Sound(x) ==> x.parse(x.validate(certPem, keyPem).value, keyPem).Some?
      ensures t.stageCert || t.stageKey || t.commitCert ==> !ok && files.SamePair(old(files))
      ensures files.marker != old(files).marker ==> ok
    {
      var chain := x.validate(certPem, keyPem);
      if chain.None? { return false; }
      ok := WritePairToDisk(Pair(chain.value, keyPem), t);
      if !ok { return; }
      if markerFault { return false; }
      files := files.(marker := Renamed(files.marker, "installed\n"));
    }

    /** A fresh pair in place of any other. The pin goes only once the pair is written. */
    method Regenerate(c: Call) returns (ok: bool)
      modifies `files
      ensures ok <==> && c.make(c.hosts).Some? && !c.faults.removeMarker
                      && !c.faults.stageCert && !c.faults.stageKey && !c.faults.commitCert && !c.faults.commitKey
      ensures ok ==> && files.marker.Missing? && c.make(c.hosts).Some?
                     && files.cert.Holds(c.make(c.hosts).value.cert) && files.key.Holds(c.make(c.hosts).value.key)
      ensures files.marker != old(files).marker ==> ok
    {
      ok := GenerateOnDisk(c, c.hosts);
      if !ok { return; }
      if c.faults.removeMarker { return false; }
      files := files.(marker := Missing);
    }
  }

  predicate Installed(f: Files, pair: Pair) {
    f.cert.Holds(pair.cert) && f.key.Holds(pair.key) && !f.marker.Missing?
  }

  // ----- an installed pair survives -----

  /** What can happen in between: a call, and a symlink's target going away or coming back. */
  datatype Happening = Starts(call: Call) | Targets(cert: bool, key: bool)

  function Seen(e: Entry, present: bool): Entry { if e.Link? then e.(present := present) else e }

  function After(x: X509, f: Files, h: Happening): Files {
    match h
    case Starts(call) => Ensure(x, f, call).0
    case Targets(cert, key) => f.(cert := Seen(f.cert, cert), key := Seen(f.key, key))
  }

  function AfterAll(x: X509, f: Files, hs: seq<Happening>): Files {
    if hs == [] then f else After(x, AfterAll(x, f, hs[..|hs| - 1]), hs[|hs| - 1])
  }

  /** A call replaces a pinned pair exactly when neither file can be there unread, and what was read does not
      parse: a file is missing, or the pair is broken. */
  lemma PinnedReplacedExactly(x: X509, f: Files, c: Call)
    requires !f.marker.Missing?
    ensures var cert, key := Read(f.cert, c.faults.readCert), Read(f.key, c.faults.readKey);
            Ensure(x, f, c).1.Generated? <==>
              && !ReadFault(f.cert, cert.0, c.faults.statCert) && !ReadFault(f.key, key.0, c.faults.statKey)
              && (cert.0.Some? || key.0.Some? || x.parse(cert.1, key.1).None?)
    ensures !Ensure(x, f, c).1.Generated? ==> Ensure(x, f, c).0 == f
    ensures Ensure(x, f, c).1.Generated? && !c.faults.readCert && !c.faults.readKey ==>
              f.cert.Missing? || f.key.Missing? || x.parse(f.cert.content, f.key.content).None?
  {}

  lemma StartKeepsInstalled(x: X509, f: Files, pair: Pair, c: Call)
    requires Installed(f, pair) && x.parse(pair.cert, pair.key).Some?
    ensures var r := Ensure(x, f, c); r.0 == f && (r.1 == Reused(pair.cert, pair.key) || r.1 == PinnedRead)
  {}

  /** Once installed, a pair that parses and its marker survive every sequence of starts, whatever fails to
      read, dangles, expires or no longer covers the appliance's names; and every start either serves that
      very pair or refuses to serve. */
  lemma {:induction false} InstalledSurvives(x: X509, f: Files, pair: Pair, hs: seq<Happening>)
    requires Installed(f, pair) && x.parse(pair.cert, pair.key).Some?
    ensures Installed(AfterAll(x, f, hs), pair)
    ensures hs != [] && hs[|hs| - 1].Starts? ==>
              var r := Ensure(x, AfterAll(x, f, hs[..|hs| - 1]), hs[|hs| - 1].call).1;
              r == Reused(pair.cert, pair.key) || r == PinnedRead
  {
    if hs != [] {
      InstalledSurvives(x, f, pair, hs[..|hs| - 1]);
      var before := AfterAll(x, f, hs[..|hs| - 1]);
      if hs[|hs| - 1].Starts? { StartKeepsInstalled(x, before, pair, hs[|hs| - 1].call); }
    }
  }

  /** Symlinks whose targets go away and come back: with no other fault, a start serves the installed pair exactly
      when every one of its links has its target, and refuses until then. */
  lemma ServedExactly(x: X509, f: Files, pair: Pair, c: Call, cert: bool, key: bool)
    requires Installed(f, pair) && x.parse(pair.cert, pair.key).Some? && !c.faults.readCert && !c.faults.readKey
    ensures var r := Ensure(x, After(x, f, Targets(cert, key)), c).1;
            r == if (f.cert.Link? ==> cert) && (f.key.Link? ==> key) then Reused(pair.cert, pair.key) else PinnedRead
  {}

  // ----- the names carried forward -----

  predicate Distinct(s: seq<string>) { forall i, j | 0 <= i < j < |s| :: s[i] != s[j] }

  lemma {:induction false} UnionIs(s: seq<string>)
    ensures forall h :: h in Union(s) <==> h != "" && h in s
    ensures Distinct(Union(s))
  {
    if s != [] {
      UnionIs(s[..|s| - 1]);
      assert s == s[..|s| - 1] + [s[|s| - 1]];
    }
  }

  /** hosts, then the names the certificate carries: each once, and none empty. */
  method CarryForward(l: Leaf, hosts: seq<string>) returns (out: seq<string>)
    ensures out == Carried(l, hosts)
    ensures forall h :: h in out <==> h != "" && (h in hosts || h in l.dns || h in l.ips)
    ensures Distinct(out)
  {
    out := [];
    var all := hosts + l.dns + l.ips;
    for i := 0 to |all|
      invariant out == Union(all[..i])
    {
      assert all[..i + 1][..i] == all[..i];
      if all[i] != "" && all[i] !in out { out := out + [all[i]]; }
    }
    assert all[..|all|] == all;
    UnionIs(all);
  }

  lemma {:induction false} DnsIs(x: X509, hosts: seq<string>)
    ensures forall d :: d in DnsOf(x, hosts) <==> d in hosts && x.parseIp(d).None?
  {
    if hosts != [] {
      DnsIs(x, hosts[..|hosts| - 1]);
      assert hosts == hosts[..|hosts| - 1] + [hosts[|hosts| - 1]];
    }
  }

  lemma {:induction false} IpsAre(x: X509, hosts: seq<string>)
    ensures forall h | h in hosts && x.parseIp(h).Some? :: x.parseIp(h).value in IpsOf(x, hosts)
    ensures forall p | p in IpsOf(x, hosts) :: exists h | h in hosts :: x.parseIp(h) == Some(p)
  {
    if hosts != [] {
      IpsAre(x, hosts[..|hosts| - 1]);
      assert hosts == hosts[..|hosts| - 1] + [hosts[|hosts| - 1]];
    }
  }

  /** The subject names of a certificate generated for hosts: IP literals as IPs, the rest as DNS names. */
  method SubjectNames(x: X509, hosts: seq<string>) returns (dns: seq<string>, ips: seq<string>)
    ensures dns == DnsOf(x, hosts) && ips == IpsOf(x, hosts)
    ensures forall d :: d in dns <==> d in hosts && x.parseIp(d).None?
    ensures forall h | h in hosts && x.parseIp(h).Some? :: x.parseIp(h).value in ips
    ensures forall p | p in ips :: exists h | h in hosts :: x.parseIp(h) == Some(p)
  {
    dns, ips := [], [];
    for i := 0 to |hosts|
      invariant dns == DnsOf(x, hosts[..i]) && ips == IpsOf(x, hosts[..i])
    {
      assert hosts[..i + 1][..i] == hosts[..i];
      var ip := x.parseIp(hosts[i]);
      if ip.Some? { ips := ips + [ip.value]; } else { dns := dns + [hosts[i]]; }
    }
    assert hosts[..|hosts|] == hosts;
    DnsIs(x, hosts);
    IpsAre(x, hosts);
  }

  /** The certificate on disk, if its pair is there to be read and matches. */
  function OnDisk(x: X509, f: Files): Option<Leaf> { ParsePair(x, Read(f.cert, false), Read(f.key, false)) }

  /** A DNS name that generating a certificate keeps as one. */
  predicate Carriable(x: X509, d: string) { d != "" && x.parseIp(d).None? }

  /** A start of an unpinned store whose pair is read, matches, and is in date. */
  ghost predicate FindsInDate(x: X509, f: Files, c: Call) {
    && f.marker.Missing? && !c.faults.readCert && !c.faults.readKey && Makes(x, c)
    && OnDisk(x, f).Some? && CurrentlyValid(OnDisk(x, f).value, c.now)
  }

  /** The write of a start fails between its two renames. */
  predicate Interrupted(x: X509, f: Files, c: Call) {
    && Ensure(x, f, c).1.Generated? && c.make(HostsFor(OnDisk(x, f), c)).Some?
    && !c.faults.stageCert && !c.faults.stageKey && !c.faults.commitCert && c.faults.commitKey
  }

  predicate Writes(x: X509, f: Files, c: Call) { Ensure(x, f, c).1 == Generated(true) }

  /** What of the names of l is among those of m, with a pair written in between or not. */
  ghost predicate Keeps(x: X509, l: Leaf, m: Leaf, wrote: bool) {
    && (forall p | p in l.ips :: p in m.ips)
    && (forall d | d in l.dns :: d in m.dns <==> Carriable(x, d) || !wrote)
    && (wrote ==> forall d | d in l.dns && x.parseIp(d).Some? :: x.parseIp(d).value in m.ips)
    && (wrote ==> forall d | d in m.dns :: Carriable(x, d))
    && (!wrote ==> m == l)
  }

  /** A certificate generated for carried names has every IP of the old one, and of its DNS names exactly those that
      are neither empty nor IP literals; an IP literal comes back as that IP. */
  lemma GeneratedKeeps(x: X509, l: Leaf, hosts: seq<string>, m: Leaf)
    requires x.parseIp("").None? && forall p | p in l.ips :: IsIp(x, p)
    requires m.dns == DnsOf(x, Carried(l, hosts)) && m.ips == IpsOf(x, Carried(l, hosts))
    ensures Keeps(x, l, m, true)
    ensures forall h | h in hosts && h != "" :: if x.parseIp(h).Some? then x.parseIp(h).value in m.ips else h in m.dns
  {
    hide Union, DnsOf, IpsOf;
    UnionIs(hosts + l.dns + l.ips);
    DnsIs(x, Carried(l, hosts));
    IpsAre(x, Carried(l, hosts));
    forall p | p in l.ips ensures p in m.ips { assert p in Carried(l, hosts) && x.parseIp(p).value == p; }
    forall d | d in l.dns && x.parseIp(d).Some? && d != "" ensures x.parseIp(d).value in m.ips {
      assert d in Carried(l, hosts);
    }
  }

  /** What one start does to the names of an in-date unpinned pair: a pair left alone keeps them all, one written
      anew keeps those, and only a write that fails between its two renames leaves certificate and key apart. */
  lemma StartKeepsNames(x: X509, f: Files, c: Call)
    requires Sound(x) && FindsInDate(x, f, c)
    ensures var g := Ensure(x, f, c).0;
            && g.marker.Missing?
            && (if Interrupted(x, f, c)
                then g.key == f.key && g.cert.Holds(c.make(HostsFor(OnDisk(x, f), c)).value.cert)
                else OnDisk(x, g).Some? && Keeps(x, OnDisk(x, f).value, OnDisk(x, g).value, Writes(x, f, c)))
    ensures Writes(x, f, c) ==> HostsFor(OnDisk(x, f), c) == Carried(OnDisk(x, f).value, c.hosts)
  {
    hide Carried, DnsOf, IpsOf;
    var l, hosts := OnDisk(x, f).value, Carried(OnDisk(x, f).value, c.hosts);
    var g := Ensure(x, f, c).0;
    if Writes(x, f, c) {
      var pair := c.make(hosts).value;
      assert MadeFor(x, pair, hosts, c.now);
      GeneratedKeeps(x, l, c.hosts, OnDisk(x, g).value);
    }
  }

  /** A broken or expired unpinned certificate is replaced by one for the appliance's own names and no others. */
  lemma ExpiredStartsOver(x: X509, f: Files, c: Call)
    requires Makes(x, c) && f.marker.Missing? && !c.faults.statMarker
    requires var l := Found(x, f, c); l.None? || !(l.value.notBefore < c.now < l.value.notAfter)
    ensures Ensure(x, f, c).1.Generated?
    ensures var g := Ensure(x, f, c).0;
            Writes(x, f, c) ==>
            && OnDisk(x, g).Some?
            && OnDisk(x, g).value.dns == DnsOf(x, c.hosts) && OnDisk(x, g).value.ips == IpsOf(x, c.hosts)
  {
    if Writes(x, f, c) { assert MadeFor(x, c.make(c.hosts).value, c.hosts, c.now); }
  }

  function AfterStarts(x: X509, f: Files, calls: seq<Call>): Files {
    if calls == [] then f else Ensure(x, AfterStarts(x, f, calls[..|calls| - 1]), calls[|calls| - 1]).0
  }

  /** Some start wrote a new pair. */
  predicate Wrote(x: X509, f: Files, calls: seq<Call>) {
    calls != [] && (Wrote(x, f, calls[..|calls| - 1])
                    || Writes(x, AfterStarts(x, f, calls[..|calls| - 1]), calls[|calls| - 1]))
  }

  /** Every start finds the pair in date, and none is interrupted between its renames. */
  ghost predicate StaysInDate(x: X509, f: Files, calls: seq<Call>) {
    forall n | 0 <= n < |calls| ::
      && FindsInDate(x, AfterStarts(x, f, calls[..n]), calls[n])
      && !Interrupted(x, AfterStarts(x, f, calls[..n]), calls[n])
  }

  /** Over any sequence of starts, whatever the appliance's names become in between, an unpinned certificate that
      stays in date never loses an IP it carried, and keeps a DNS name exactly if the name is neither empty nor an IP
      literal or no start wrote a new pair; an IP literal is then among the IPs. */
  lemma {:induction false} CarriedNamesSurvive(x: X509, f: Files, calls: seq<Call>)
    requires Sound(x) && f.marker.Missing? && OnDisk(x, f).Some? && StaysInDate(x, f, calls)
    ensures var g := AfterStarts(x, f, calls);
            && g.marker.Missing? && OnDisk(x, g).Some?
            && Keeps(x, OnDisk(x, f).value, OnDisk(x, g).value, Wrote(x, f, calls))
  {
    hide Ensure, FindsInDate, Interrupted, Writes, OnDisk;
    if calls != [] {
      var n := |calls| - 1;
      assert forall m | 0 <= m < n :: calls[..n][..m] == calls[..m];
      CarriedNamesSurvive(x, f, calls[..n]);
      StartKeepsNames(x, AfterStarts(x, f, calls[..n]), calls[n]);
    }
  }

  // ----- names that are not kept -----

  function DemoParse(cert: string, key: string): Option<Leaf> {
    if cert == "old" then Some(Leaf(["", "10.0.0.1", "mic.local"], [], -1, 1))
    else if cert == "new" then Some(Leaf(["host", "mic.local"], ["10.0.0.1"], -HOUR, VALIDITY))
    else None
  }

  predicate DemoVerify(l: Leaf, h: string) { h in l.dns }

  function DemoIp(s: string): Option<string> { if s == "10.0.0.1" then Some(s) else None }

  function DemoMake(hosts: seq<string>): Option<Pair> {
    if hosts == ["host", "10.0.0.1", "mic.local"] then Some(Pair("new", "key")) else None
  }

  /** A start that finds an in-date certificate with an empty DNS name and an IP literal as another: both are gone
      from its DNS names, and the literal is an IP. */
  lemma BadNamesAreNotKept() returns (x: X509, f: Files, c: Call)
    ensures Sound(x) && FindsInDate(x, f, c) && !Interrupted(x, f, c) && Writes(x, f, c)
    ensures OnDisk(x, f).value.dns == ["", "10.0.0.1", "mic.local"]
    ensures var m := OnDisk(x, Ensure(x, f, c).0).value; m.dns == ["host", "mic.local"] && m.ips == ["10.0.0.1"]
  {
    x := X509(DemoParse, DemoVerify, DemoIp, (cert, key) => None);
    f := Files(File("old"), File("key"), Missing, None, None);
    var none := Faults(false, false, false, false, false, false, false, false, false, false, false);
    c := Call(["host"], 0, none, DemoMake);
    DemoCarries();
    DemoNames(x);
    assert forall hosts :: c.make(hosts).Some? ==> MadeFor(x, c.make(hosts).value, hosts, c.now);
    assert c.hosts[0] == "host" && !x.verify(OnDisk(x, f).value, "host");
  }

  lemma DemoCarries()
    ensures Carried(Leaf(["", "10.0.0.1", "mic.local"], [], -1, 1), ["host"]) == ["host", "10.0.0.1", "mic.local"]
  {
    var all := ["host"] + ["", "10.0.0.1", "mic.local"] + [];
    assert all == ["host", "", "10.0.0.1", "mic.local"];
    assert all[..3] == ["host", "", "10.0.0.1"] && all[..3][..2] == ["host", ""] && all[..3][..2][..1] == ["host"];
    assert Union(["host"]) == ["host"];
    assert Union(["host", ""]) == ["host"];
    assert Union(["host", "", "10.0.0.1"]) == ["host", "10.0.0.1"];
  }

  lemma DemoNames(x: X509)
    requires x.parseIp == DemoIp
    ensures var hosts := ["host", "10.0.0.1", "mic.local"];
            DnsOf(x, hosts) == ["host", "mic.local"] && IpsOf(x, hosts) == ["10.0.0.1"]
  {
    var hosts := ["host", "10.0.0.1", "mic.local"];
    assert hosts[..2] == ["host", "10.0.0.1"] && hosts[..2][..1] == ["host"];
    assert DnsOf(x, ["host"]) == ["host"] && IpsOf(x, ["host"]) == [];
    assert DnsOf(x, ["host", "10.0.0.1"]) == ["host"] && IpsOf(x, ["host", "10.0.0.1"]) == ["10.0.0.1"];
  }
}
