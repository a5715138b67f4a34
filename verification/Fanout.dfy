/** One capture read by one goroutine and handed to every stream: a bounded queue a consumer, whole periods
    dropped when it is full, nothing sent while no client plays, and a position counted over every read. */
module FanOut {
  import opened Common

  const QUEUE: nat := 8
  const WORD: int := 0x1_0000_0000_0000_0000

  /** A period as a consumer is sent it. */
  datatype Period = Period(bytes: seq<byte>, frames: nat, pos: nat, session: nat, captured: int)

  /** What one read of the capture delivered. */
  datatype Audio = Audio(bytes: seq<byte>, frames: nat)

  /** What a stream's gate reports: there is none, no client plays, or one does in this play session. */
  datatype Gate = NoGate | Idle | Playing(session: nat)

  /** One turn of the reader, with what happened around it: how many periods each consumer read just before,
      and what each gate reported. Consumers share nothing, so this is any interleaving of their reads. */
  datatype Turn = Turn(audio: Audio, captured: int, gates: seq<Gate>, taken: seq<nat>)

  function Heard(turns: seq<Turn>): seq<Audio> {
    if turns == [] then [] else Heard(turns[..|turns| - 1]) + [turns[|turns| - 1].audio]
  }

  function Frames(past: seq<Audio>): nat {
    if past == [] then 0 else Frames(past[..|past| - 1]) + past[|past| - 1].frames
  }

  /** What is left of a count in a 64-bit word. */
  function Wrap(n: int): nat { n % WORD }

  /** Period p is the read at k, at the position of every frame read before it. */
  ghost predicate Stamped(past: seq<Audio>, k: nat, p: Period) {
    k < |past| && p.bytes == past[k].bytes && p.frames == past[k].frames && p.pos == Wrap(Frames(past[..k]))
  }

  /** got is an in-order subsequence of the reads: its periods are the reads at the indices in at. */
  ghost predicate Accounted(past: seq<Audio>, got: seq<Period>, at: seq<nat>) {
    && |got| == |at|
    && (forall i, j | 0 <= i < j < |at| :: at[i] < at[j])
    && (forall i | 0 <= i < |at| :: Stamped(past, at[i], got[i]))
  }

  lemma {:induction false} FramesSplit(past: seq<Audio>, i: nat, j: nat)
    requires i <= j <= |past|
    ensures Frames(past[..j]) == Frames(past[..i]) + Frames(past[i..j])
  {
    if i < j {
      FramesSplit(past, i, j - 1);
      assert past[..j][..j - 1] == past[..j - 1] && past[i..j][..j - i - 1] == past[i..j - 1];
    }
  }

  /** The gap between the positions of two consecutive periods is the audio lost between them: the frames of
      every period read in between, which were dropped or sent nowhere. */
  lemma GapIsWhatWasSkipped(past: seq<Audio>, got: seq<Period>, at: seq<nat>, k: nat)
    requires Accounted(past, got, at) && k + 1 < |got|
    ensures at[k] < at[k + 1] < |past|
    ensures Wrap(got[k + 1].pos - got[k].pos - got[k].frames) == Wrap(Frames(past[at[k] + 1..at[k + 1]]))
  {
    var i, j := at[k], at[k + 1];
    assert Stamped(past, i, got[k]) && Stamped(past, j, got[k + 1]);
    FramesSplit(past, i, j);
    FramesSplit(past[i..j], 1, j - i);
    assert past[i..j][..j - i] == past[i..j] && past[i..j][1..j - i] == past[i + 1..j];
    assert past[i..j][..1] == [past[i]] && [past[i]][..0] == [];
    assert Frames(past[i..j][..1]) == Frames([]) + past[i].frames;
    Differ(Frames(past[..j]), Frames(past[..i]), got[k].frames);
  }

  lemma WrapAdd(a: int, b: int)
    ensures Wrap(Wrap(a) + b) == Wrap(a + b)
  {
    Shifts(a % WORD + b, a / WORD);
  }

  lemma Differ(a: int, b: int, c: int)
    ensures (a % WORD - b % WORD - c) % WORD == (a - b - c) % WORD
  {
    var q := a / WORD - b / WORD;
    assert a - b - c == (a % WORD - b % WORD - c) + q * WORD;
    Shifts(a % WORD - b % WORD - c, q);
  }

  lemma Shifts(x: int, q: int)
    ensures (x + q * WORD) % WORD == x % WORD
  {}

  lemma Grows(past: seq<Audio>, got: seq<Period>, at: seq<nat>, a: Audio)
    requires Accounted(past, got, at)
    ensures Accounted(past + [a], got, at)
  {
    forall i | 0 <= i < |at| ensures Stamped(past + [a], at[i], got[i]) {
      assert Stamped(past, at[i], got[i]) && (past + [a])[..at[i]] == past[..at[i]];
    }
  }

  lemma Counted(past: seq<Audio>, a: Audio)
    ensures Wrap(Wrap(Frames(past)) + a.frames) == Wrap(Frames(past + [a]))
  {
    assert (past + [a])[..|past|] == past;
    WrapAdd(Frames(past), a.frames);
  }

  lemma Sent(past: seq<Audio>, got: seq<Period>, at: seq<nat>, a: Audio, p: Period)
    requires Accounted(past, got, at)
    requires p.bytes == a.bytes && p.frames == a.frames && p.pos == Wrap(Frames(past))
    ensures Accounted(past + [a], got + [p], at + [|past|])
  {
    hide Stamped;
    Grows(past, got, at, a);
    Last(past, a, p);
    var n := |past|;
    forall i | 0 <= i <= |at| ensures Stamped(past + [a], (at + [n])[i], (got + [p])[i]) {
      assert i < |at| ==> (at + [n])[i] == at[i] && (got + [p])[i] == got[i];
    }
    forall i | 0 <= i < |at| ensures at[i] < n { Within(past, at[i], got[i]); }
  }

  lemma Last(past: seq<Audio>, a: Audio, p: Period)
    requires p.bytes == a.bytes && p.frames == a.frames && p.pos == Wrap(Frames(past))
    ensures Stamped(past + [a], |past|, p)
  {
    assert (past + [a])[..|past|] == past;
  }

  lemma Within(past: seq<Audio>, k: nat, p: Period)
    requires Stamped(past, k, p)
    ensures k < |past|
  {}

  function Session(gate: Gate): nat { if gate.Playing? then gate.session else 0 }

  class Consumer {
    var queue: seq<Period>
    var closed: bool
    /** The stream's counter of lost audio, shared with its clients' drops: a 64-bit word. */
    var dropped: int
    /** Every period sent, the reads they were, how many of them were received, and the reads that were
        dropped for a full queue and skipped while idle. */
    ghost var got: seq<Period>
    ghost var at: seq<nat>
    ghost var received: nat
    ghost var lost: nat
    ghost var idle: nat
    ghost var first: int

    constructor (dropped: int)
      requires 0 <= dropped < WORD
      ensures Ok([]) && queue == [] && !closed && got == [] && this.dropped == dropped
    {
      queue, closed, this.dropped := [], false, dropped;
      got, at, received, lost, idle, first := [], [], 0, 0, 0, dropped;
    }

    /** Every read is accounted for: sent in order, dropped, or skipped while idle; and what was sent and not
        yet received is what is queued. */
    ghost predicate Ok(past: seq<Audio>)
      reads this
    {
      && Accounted(past, got, at)
      && |past| == |got| + lost + idle
      && received <= |got| && queue == got[received..] && |queue| <= QUEUE
      && dropped == Wrap(first + lost)
    }

    /** The next period sent and not yet received. It blocks while there is none, so it returns none only
        once the feed is closed and everything sent was received. */
    method Read(ghost past: seq<Audio>) returns (p: Option<Period>)
      requires Ok(past) && (queue != [] || closed)
      modifies `queue, `received
      ensures Ok(past)
      ensures if p.Some? then received == old(received) + 1 && p.value == got[old(received)]
              else received == old(received) == |got| && closed
    {
      if queue == [] { return None; }
      p := Some(queue[0]);
      queue := queue[1..];
      received := received + 1;
    }

    /** The period read last, for this consumer, without blocking: not sent while no client plays, dropped
        when the queue is full. */
    method Offer(p: Period, gate: Gate, ghost past: seq<Audio>)
      requires Ok(past) && p.pos == Wrap(Frames(past))
      modifies `queue, `dropped, `got, `at, `lost, `idle
      ensures Ok(past + [Audio(p.bytes, p.frames)]) && Accepted(p, gate)
    {
      hide Accounted;
      ghost var a := Audio(p.bytes, p.frames);
      var out := p.(session := Session(gate));
      Grows(past, got, at, a);
      Sent(past, got, at, a, out);
      if gate.Idle? {
        idle := idle + 1;
      } else if |queue| == QUEUE {
        WrapAdd(first + lost, 1);
        dropped := Wrap(dropped + 1);
        lost := lost + 1;
      } else {
        queue := queue + [out];
        got, at := got + [out], at + [|past|];
      }
    }

    /** What one period does to a consumer: nothing while idle, a drop when its queue is full, else it is
        sent tagged with its session. */
    twostate predicate Accepted(p: Period, gate: Gate)
      reads this
    {
      && received == old(received) && closed == old(closed)
      && if gate.Idle? then got == old(got) && idle == old(idle) + 1 && lost == old(lost)
         else if old(|queue|) == QUEUE then got == old(got) && idle == old(idle) && lost == old(lost) + 1
         else
           && got == old(got) + [p.(session := if gate.Playing? then gate.session else 0)]
           && idle == old(idle) && lost == old(lost)
    }

    method Close()
      modifies `closed
      ensures closed && forall past :: old(Ok(past)) ==> Ok(past)
    {
      closed := true;
    }
  }

  class Fanout {
    const consumers: seq<Consumer>
    /** The position of the next period: a 64-bit word. */
    var pos: nat
    /** Every read so far. */
    ghost var past: seq<Audio>

    ghost predicate Valid()
      reads this, consumers
    {
      && pos == Wrap(Frames(past))
      && (forall i, j | 0 <= i < j < |consumers| :: consumers[i] != consumers[j])
      && (forall i | 0 <= i < |consumers| :: consumers[i].Ok(past))
    }

    constructor (consumers: seq<Consumer>)
      requires forall i, j | 0 <= i < j < |consumers| :: consumers[i] != consumers[j]
      requires forall i | 0 <= i < |consumers| :: consumers[i].Ok([])
      ensures Valid() && past == [] && this.consumers == consumers
    {
      this.consumers, pos, past := consumers, 0, [];
    }

    /** Hands one period to every consumer. Its position is the frames of every earlier read, sent or not. */
    method Distribute(bytes: seq<byte>, frames: nat, captured: int, gates: seq<Gate>)
      requires Valid() && |gates| == |consumers|
      modifies `pos, `past, consumers
      ensures Valid() && past == old(past) + [Audio(bytes, frames)]
      ensures forall i | 0 <= i < |consumers| ::
                consumers[i].Accepted(Period(bytes, frames, old(pos), 0, captured), gates[i])
    {
      hide Consumer.Ok, Wrap, Frames;
      ghost var before := past;
      var p := Period(bytes, frames, pos, 0, captured);
      Counted(past, Audio(bytes, frames));
      pos := Wrap(pos + frames);
      past := past + [Audio(bytes, frames)];
      for i := 0 to |consumers|
        invariant pos == Wrap(Frames(past)) && past == before + [Audio(bytes, frames)]
        invariant forall j | 0 <= j < i :: consumers[j].Ok(past) && consumers[j].Accepted(p, gates[j])
        invariant forall j | i <= j < |consumers| :: unchanged(consumers[j])
      {
        consumers[i].Offer(p, gates[i], before);
      }
    }

    /** Consumers take up to that many of their queued periods. */
    method Drain(taken: seq<nat>)
      requires Valid() && |taken| == |consumers|
      modifies consumers
      ensures Valid()
      ensures forall i | 0 <= i < |consumers| :: consumers[i].got == old(consumers[i].got)
    {
      hide Consumer.Ok, Wrap, Frames;
      for i := 0 to |consumers|
        invariant pos == Wrap(Frames(past)) && forall j | 0 <= j < |consumers| :: consumers[j].Ok(past)
        invariant forall j | 0 <= j < |consumers| :: consumers[j].got == old(consumers[j].got)
      {
        var k := taken[i];
        while k > 0 && consumers[i].queue != []
          invariant pos == Wrap(Frames(past)) && forall j | 0 <= j < |consumers| :: consumers[j].Ok(past)
          invariant forall j | 0 <= j < |consumers| :: consumers[j].got == old(consumers[j].got)
          decreases k
        {
          var p := consumers[i].Read(past);
          k := k - 1;
        }
      }
    }

    /** The reader, until its source ends: every period is offered, and then every feed is closed. It fails
        unless the source ended of its own accord. */
    method Run(turns: seq<Turn>, eof: bool) returns (failed: bool)
      requires Valid() && forall t | t in turns :: |t.gates| == |t.taken| == |consumers|
      modifies `pos, `past, consumers
      ensures Valid() && past == old(past) + Heard(turns) && failed == !eof
      ensures forall i | 0 <= i < |consumers| :: consumers[i].closed
    {
      hide Consumer.Ok, Wrap, Frames;
      for n := 0 to |turns|
        invariant Valid() && past == old(past) + Heard(turns[..n])
      {
        var t := turns[n];
        assert turns[..n + 1][..n] == turns[..n];
        Drain(t.taken);
        Distribute(t.audio.bytes, t.audio.frames, t.captured, t.gates);
      }
      assert turns[..|turns|] == turns;
      CloseConsumers();
      return !eof;
    }

    /** Ends every feed once the capture has ended. */
    method CloseConsumers()
      requires Valid()
      modifies consumers
      ensures Valid() && forall i | 0 <= i < |consumers| :: consumers[i].closed
      ensures forall i | 0 <= i < |consumers| :: consumers[i].queue == old(consumers[i].queue)
    {
      hide Consumer.Ok, Wrap, Frames;
      for i := 0 to |consumers|
        invariant pos == Wrap(Frames(past)) && forall j | 0 <= j < |consumers| :: consumers[j].Ok(past)
        invariant forall j | 0 <= j < i :: consumers[j].closed
        invariant forall j | 0 <= j < |consumers| :: consumers[j].queue == old(consumers[j].queue)
      {
        consumers[i].Close();
      }
    }
  }
}
