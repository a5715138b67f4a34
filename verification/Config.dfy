/** The part of the configuration the run loop acts on. */
module Config {
  /** One stream of a device. `encoding` stands for what decides its pipeline stage: the mode and,
      for Opus, the effective bitrate, so two streams build the same stage iff they are equal. */
  datatype Stream = Stream(path: string, channels: seq<nat>, encoding: int)

  datatype Device = Device(name: string, id: string, rate: int, format: string, streams: seq<Stream>, enabled: bool)
  {
    function Paths(): set<string> { set s | s in streams :: s.path }

    /** The capture channels the device opens. A set: they are opened sorted and each once. */
    function ChannelUnion(): set<nat> { set s, c | s in streams && c in s.channels :: c }
  }

  predicate IsSpace(c: char) {
    || '\t' <= c <= '\r' || c == ' ' || c == '\U{0085}' || c == '\U{00A0}' || c == '\U{1680}'
    || '\U{2000}' <= c <= '\U{200A}' || c == '\U{2028}' || c == '\U{2029}' || c == '\U{202F}'
    || c == '\U{205F}' || c == '\U{3000}'
  }

  function TrimLeft(s: string): string {
    if s != "" && IsSpace(s[0]) then TrimLeft(s[1..]) else s
  }

  /** True for an id that names a card by its kernel index rather than by a stable identity. */
  predicate IsCardIndex(id: string) {
    var t := TrimLeft(id);
    !("usb:" <= t) && (!("hw:" <= t) || '=' !in t)
  }

  /** Whitespace, then rest. */
  predicate Leads(lead: string, rest: string, id: string) {
    id == lead + rest && forall i | 0 <= i < |lead| :: IsSpace(lead[i])
  }

  /** The stable ids are those that start, past leading whitespace, with "usb:", or with "hw:" and name a property. */
  lemma StableExactly(id: string)
    ensures !IsCardIndex(id) <==>
            exists lead, rest :: Leads(lead, rest, id) && ("usb:" <= rest || ("hw:" <= rest && '=' in rest))
  {
    TrimLeftIs(id);
    var t := TrimLeft(id);
    assert Leads(id[..|id| - |t|], t, id);
    if lead, rest :| Leads(lead, rest, id) && ("usb:" <= rest || ("hw:" <= rest && '=' in rest)) {
      assert !IsSpace(rest[0]);
      TrimLeftSkips(lead, rest);
    }
  }

  lemma {:induction false} TrimLeftIs(s: string)
    ensures |TrimLeft(s)| <= |s| && s[|s| - |TrimLeft(s)|..] == TrimLeft(s)
    ensures forall i | 0 <= i < |s| - |TrimLeft(s)| :: IsSpace(s[i])
  {
    if s != "" && IsSpace(s[0]) { TrimLeftIs(s[1..]); }
  }

  lemma {:induction false} TrimLeftSkips(lead: string, rest: string)
    requires (forall i | 0 <= i < |lead| :: IsSpace(lead[i])) && rest != "" && !IsSpace(rest[0])
    ensures TrimLeft(lead + rest) == rest
  {
    if lead == "" {
      assert lead + rest == rest;
    } else {
      TrimLeftSkips(lead[1..], rest);
      assert (lead + rest)[1..] == lead[1..] + rest;
    }
  }

  /** Two configurations that open the same capture and build the same streams. */
  predicate ParamsEqual(a: Device, b: Device) {
    a.id == b.id && a.rate == b.rate && a.format == b.format && a.streams == b.streams
  }

  /** What validation establishes of a device list: unique non-empty names, unique ids, and paths
      unique across the streams of every device. */
  ghost predicate Valid(cfg: seq<Device>) {
    && (forall i | 0 <= i < |cfg| :: cfg[i].name != "")
    && (forall i, j | 0 <= i < j < |cfg| :: cfg[i].name != cfg[j].name && cfg[i].id != cfg[j].id)
    && (forall i, j | 0 <= i < j < |cfg| :: cfg[i].Paths() !! cfg[j].Paths())
  }

  ghost function Names(cfg: seq<Device>): set<string> { set d | d in cfg :: d.name }
}
