/** The handshake between the stages of a restarted device and the run loop. Each stage stores its encoded
    flag and then checks whether it is awaited; the loop asks to be awaited and then reads the flags. Every
    load, store and channel operation is one step, and the stages and the loop interleave freely. */
module Wakeup {
  /** Where a stage is in noting a frame. */
  datatype Stage = Ready | Loaded | Stored | Waking

  /** How far the restart has come in proving its encoders. */
  datatype Mode = Unproven | Settling | Waiting | Proven

  /** Where the loop is: in another event, reading the flags of the streams still to read, or past the read
      of a flag that was not set. */
  datatype Loop = Outside | Reading(left: seq<nat>) | Missed(stream: nat)

  datatype State = State(faulted: seq<nat>, encoded: set<nat>, stages: map<nat, Stage>, awaited: bool, signal: bool,
                         mode: Mode, loop: Loop)
  {
    function At(i: nat): Stage { if i in stages then stages[i] else Ready }

    predicate AllEncoded() { forall i | i in faulted :: i in encoded }

    /** The stage has set its flag and is yet to wake the loop, having found, or about to find, that it is
        awaited. */
    predicate WillWake(i: nat) { (At(i).Stored? && awaited) || At(i).Waking? }
  }

  datatype Move =
    | Load(stream: nat) | Store(stream: nat) | Check(stream: nat) | Wake(stream: nat)
    | Ask | OtherSignal | BeginPass(due: bool) | Read | Decide

  predicate Enabled(s: State, m: Move) {
    match m
    case Load(i) => s.At(i).Ready?
    case Store(i) => s.At(i).Loaded?
    case Check(i) => s.At(i).Stored?
    case Wake(i) => s.At(i).Waking?
    case Ask => s.mode.Unproven? && s.loop.Outside?
    case OtherSignal => true
    case BeginPass(_) => s.loop.Outside? && s.signal
    case Read => s.loop.Reading? && s.loop.left != []
    case Decide => s.loop.Missed? || (s.loop.Reading? && s.loop.left == [])
  }

  /** A pass reads the flags of a restart that waits, and of one that settles only once its window is over; any other
      pass takes the signal and leaves this device alone. */
  predicate Looks(s: State, due: bool) { s.mode.Waiting? || (s.mode.Settling? && due) }

  function Next(s: State, m: Move): State
    requires Enabled(s, m)
  {
    match m
    case Load(i) => if i in s.encoded then s else s.(stages := s.stages[i := Loaded])
    case Store(i) => s.(encoded := s.encoded + {i}, stages := s.stages[i := Stored])
    case Check(i) => s.(stages := s.stages[i := if s.awaited then Waking else Ready])
    case Wake(i) => s.(signal := true, stages := s.stages[i := Ready])
    case Ask => s.(mode := Settling, awaited := true)
    case OtherSignal => s.(signal := true)
    case BeginPass(due) =>
      s.(signal := false, loop := if Looks(s, due) then Reading(s.faulted) else Outside)
    case Read =>
      if s.loop.left[0] in s.encoded then s.(loop := Reading(s.loop.left[1..])) else s.(loop := Missed(s.loop.left[0]))
    case Decide => s.(loop := Outside, mode := if s.loop.Missed? then Waiting else Proven)
  }

  function Start(faulted: seq<nat>): State { State(faulted, {}, map[], false, false, Unproven, Outside) }

  /** The states of an interleaving, from a freshly started runtime. */
  ghost predicate IsRun(faulted: seq<nat>, moves: seq<Move>, states: seq<State>) {
    && |states| == |moves| + 1 && states[0] == Start(faulted)
    && forall k | 0 <= k < |moves| :: Enabled(states[k], moves[k]) && states[k + 1] == Next(states[k], moves[k])
  }

  /** The loop is awaited from before its first read, and a flag it read unset either is still unset or has
      a wakeup on its way. */
  predicate Inv(s: State) {
    && (s.mode.Settling? || s.mode.Waiting? || !s.loop.Outside? ==> s.awaited)
    && (s.mode.Unproven? || s.mode.Proven? ==> s.loop.Outside?)
    && (forall i | i in s.stages && (s.stages[i].Stored? || s.stages[i].Waking?) :: i in s.encoded)
    && (s.loop.Missed? ==> s.loop.stream in s.faulted && Unseen(s, s.loop.stream))
    && (s.loop.Reading? ==> forall i | i in s.faulted :: i in s.loop.left || i in s.encoded)
    && (s.loop.Reading? ==> forall i | i in s.loop.left :: i in s.faulted)
    && (s.mode.Waiting? && s.loop.Outside? ==> exists i | i in s.faulted :: Unseen(s, i))
  }

  predicate Unseen(s: State, i: nat) { i !in s.encoded || s.WillWake(i) || s.signal }

  lemma UnseenStays(s: State, m: Move, i: nat)
    requires Inv(s) && Enabled(s, m) && s.awaited && !m.BeginPass? && Unseen(s, i)
    ensures Unseen(Next(s, m), i)
  {}

  lemma NextKeepsInv(s: State, m: Move)
    requires Inv(s) && Enabled(s, m)
    ensures Inv(Next(s, m))
  {
    var t := Next(s, m);
    if s.mode.Waiting? && s.loop.Outside? && !m.BeginPass? {
      var i :| i in s.faulted && Unseen(s, i);
      UnseenStays(s, m, i);
    }
    if s.loop.Missed? {
      UnseenStays(s, m, s.loop.stream);
      assert Unseen(t, s.loop.stream);
    }
    if m.Read? {
      assert s.loop.left == [s.loop.left[0]] + s.loop.left[1..];
    }
  }

  lemma {:induction false} RunKeepsInv(faulted: seq<nat>, moves: seq<Move>, states: seq<State>, k: nat)
    requires IsRun(faulted, moves, states) && k < |states|
    ensures Inv(states[k]) && states[k].faulted == faulted
  {
    if k > 0 {
      RunKeepsInv(faulted, moves, states, k - 1);
      NextKeepsInv(states[k - 1], moves[k - 1]);
    }
  }

  /** No wakeup is lost. Between the loop's events, if a restart waits for an encode and every faulted stream
      has encoded, the loop has a signal pending or a stage is about to send one. */
  lemma NoLostWakeup(faulted: seq<nat>, moves: seq<Move>, states: seq<State>, k: nat)
    requires IsRun(faulted, moves, states) && k < |states|
    requires states[k].mode.Waiting? && states[k].loop.Outside? && states[k].AllEncoded()
    ensures states[k].signal || exists i | i in faulted :: states[k].WillWake(i)
  {
    RunKeepsInv(faulted, moves, states, k);
    var i :| i in faulted && Unseen(states[k], i);
    assert states[k].signal || states[k].WillWake(i);
  }

  /** Nor in the middle of a pass: a flag the loop read as unset and is about to wait for has been left
      unset, or its wakeup is on its way, so the wait the pass ends in is not missed either. */
  lemma NoLostWakeupInPass(faulted: seq<nat>, moves: seq<Move>, states: seq<State>, k: nat)
    requires IsRun(faulted, moves, states) && k < |states|
    requires states[k].loop.Missed? && states[k].AllEncoded()
    ensures states[k].signal || states[k].WillWake(states[k].loop.stream)
  {
    RunKeepsInv(faulted, moves, states, k);
  }

  predicate MovesStage(m: Move, i: nat) { (m.Load? || m.Store? || m.Check? || m.Wake?) && m.stream == i }

  /** A stage about to wake the loop stays so until its next step, whatever else runs meanwhile. */
  lemma {:induction false} WillWakeStays(faulted: seq<nat>, moves: seq<Move>, states: seq<State>,
                                         k: nat, l: nat, i: nat)
    requires IsRun(faulted, moves, states) && k <= l < |states| && states[k].WillWake(i)
    requires forall j | k <= j < l :: !MovesStage(moves[j], i)
    ensures states[l].WillWake(i) && states[l].At(i) == states[k].At(i)
  {
    if k < l { WillWakeStays(faulted, moves, states, k, l - 1, i); }
  }

  /** And then it does wake it: its next step after point k is the check that finds it is awaited, or the wake that
      leaves the signal pending. */
  lemma WakeArrives(faulted: seq<nat>, moves: seq<Move>, states: seq<State>, k: nat, l: nat, i: nat)
    requires IsRun(faulted, moves, states) && k <= l < |moves| && states[k].WillWake(i)
    requires MovesStage(moves[l], i) && forall j | k <= j < l :: !MovesStage(moves[j], i)
    ensures if states[k].At(i).Stored? then moves[l].Check? && states[l + 1].At(i).Waking?
            else moves[l].Wake? && states[l + 1].signal
  {
    WillWakeStays(faulted, moves, states, k, l, i);
  }

  lemma {:induction false} EncodedGrows(faulted: seq<nat>, moves: seq<Move>, states: seq<State>, j: nat, k: nat)
    requires IsRun(faulted, moves, states) && j <= k < |states|
    ensures states[j].encoded <= states[k].encoded
  {
    if j < k { EncodedGrows(faulted, moves, states, j, k - 1); }
  }

  /** A pass that reads the flags when every faulted stream has encoded never decides to wait: its decision is that
      the encoders are proven. */
  lemma {:induction false} PassProves(faulted: seq<nat>, moves: seq<Move>, states: seq<State>, j: nat, k: nat)
    requires IsRun(faulted, moves, states) && j < k < |moves|
    requires moves[j].BeginPass? && Looks(states[j], moves[j].due) && states[j].AllEncoded() && moves[k].Decide?
    requires forall l | j < l < k :: !moves[l].BeginPass? && !moves[l].Decide?
    ensures states[k + 1].mode.Proven?
  {
    ReadsOn(faulted, moves, states, j, k);
  }

  lemma ReadFinds(s: State, m: Move)
    requires Inv(s) && Enabled(s, m) && s.AllEncoded() && !s.loop.Missed?
    ensures !Next(s, m).loop.Missed?
  {}

  lemma {:induction false} ReadsOn(faulted: seq<nat>, moves: seq<Move>, states: seq<State>, j: nat, k: nat)
    requires IsRun(faulted, moves, states) && j < k < |states|
    requires moves[j].BeginPass? && states[j].AllEncoded()
    requires forall l | j < l < k :: !moves[l].BeginPass? && !moves[l].Decide?
    ensures !states[k].loop.Missed?
  {
    hide Inv, Next;
    if j + 1 < k {
      ReadsOn(faulted, moves, states, j, k - 1);
      EncodedGrows(faulted, moves, states, j, k - 1);
      RunKeepsInv(faulted, moves, states, j);
    }
    RunKeepsInv(faulted, moves, states, k - 1);
    ReadFinds(states[k - 1], moves[k - 1]);
  }

  // ----- what the state is of the moves before it -----

  /** The flags set are those of the streams whose stage stored one, the stages are awaited once the loop asked, and a
      signal is pending if one was sent since the last pass began. */
  lemma {:induction false} StateIsHistory(faulted: seq<nat>, moves: seq<Move>, states: seq<State>, k: nat)
    requires IsRun(faulted, moves, states) && k < |states|
    ensures forall i :: i in states[k].encoded <==> exists j | 0 <= j < k :: moves[j] == Store(i)
    ensures states[k].awaited <==> exists j | 0 <= j < k :: moves[j].Ask?
    ensures states[k].signal <==> exists j | 0 <= j < k :: SignalSince(moves, j, k)
  {
    if k > 0 {
      StateIsHistory(faulted, moves, states, k - 1);
      var m := moves[k - 1];
      assert states[k] == Next(states[k - 1], m);
      if m.Wake? || m.OtherSignal? {
        assert SignalSince(moves, k - 1, k);
      } else if states[k].signal {
        var j :| 0 <= j < k - 1 && SignalSince(moves, j, k - 1);
        assert SignalSince(moves, j, k);
      }
      if j :| 0 <= j < k && SignalSince(moves, j, k) { assert j < k - 1 ==> SignalSince(moves, j, k - 1); }
    }
  }

  /** The signal sent at j is not yet taken at k. */
  predicate SignalSince(moves: seq<Move>, j: nat, k: nat)
    requires j < k <= |moves|
  {
    (moves[j].Wake? || moves[j].OtherSignal?) && forall l | j < l < k :: !moves[l].BeginPass?
  }

  /** Where a stage is after its last move. */
  lemma {:induction false} StageAfter(faulted: seq<nat>, moves: seq<Move>, states: seq<State>, a: nat, b: nat, i: nat)
    requires IsRun(faulted, moves, states) && a < b < |states|
    requires MovesStage(moves[a], i) && forall j | a < j < b :: !MovesStage(moves[j], i)
    ensures states[b].At(i) == states[a + 1].At(i)
  {
    if a + 1 < b { StageAfter(faulted, moves, states, a, b - 1, i); }
  }

  /** A stage sets its flag once, and then checks, and then wakes the loop exactly if the loop had asked by then: of two
      moves of one stage with none between, the first says which the second is. */
  lemma StageFollows(faulted: seq<nat>, moves: seq<Move>, states: seq<State>, a: nat, b: nat, i: nat)
    requires IsRun(faulted, moves, states) && a < b < |moves|
    requires MovesStage(moves[a], i) && MovesStage(moves[b], i) && forall j | a < j < b :: !MovesStage(moves[j], i)
    ensures match moves[a]
            case Load(_) => if exists j | 0 <= j < a :: moves[j] == Store(i) then moves[b].Load? else moves[b].Store?
            case Store(_) => moves[b].Check?
            case Check(_) => if exists j | 0 <= j < a :: moves[j].Ask? then moves[b].Wake? else moves[b].Load?
            case _ => moves[b].Load?
  {
    StateIsHistory(faulted, moves, states, a);
    StageAfter(faulted, moves, states, a, b, i);
  }

  /** Nothing keeps a stage from its next move, nor the loop from asking, from taking a signal, or from finishing a pass
      it began. */
  lemma NothingBlocks(s: State, i: nat, due: bool)
    ensures Enabled(s, Load(i)) || Enabled(s, Store(i)) || Enabled(s, Check(i)) || Enabled(s, Wake(i))
    ensures Enabled(s, OtherSignal) && (s.mode.Unproven? && s.loop.Outside? ==> Enabled(s, Ask))
    ensures s.signal && s.loop.Outside? ==> Enabled(s, BeginPass(due))
    ensures s.loop.Reading? && s.loop.left != [] ==>
              Enabled(s, Read) && var r := Next(s, Read).loop; r.Missed? || (r.Reading? && |r.left| < |s.loop.left|)
    ensures (s.loop.Reading? && s.loop.left == []) || s.loop.Missed? ==>
              Enabled(s, Decide) && Next(s, Decide).loop.Outside?
  {}

  /** What a restart's proof is: the loop asks to be awaited first; a pass that looks at a restart decides that it is
      proven only once every faulted stream has encoded, and that it waits only for a stream whose flag it read unset;
      and nothing else changes how far the restart has come. */
  lemma {:induction false} DecidesExactly(faulted: seq<nat>, moves: seq<Move>, states: seq<State>, k: nat)
    requires IsRun(faulted, moves, states) && k < |moves|
    ensures var s, t := states[k], states[k + 1];
            match moves[k]
            case Ask => s.mode.Unproven? && t.mode.Settling? && t.awaited
            case Decide => if s.loop.Missed? then t.mode.Waiting? else t.mode.Proven? && t.AllEncoded()
            case Read => t.mode == s.mode && (t.loop.Missed? <==> s.loop.left[0] !in s.encoded)
            case BeginPass(due) =>
              t.mode == s.mode && !t.signal
              && t.loop == if s.mode.Waiting? || (s.mode.Settling? && due) then Reading(faulted) else Outside
            case _ => t.mode == s.mode && t.loop == s.loop
  {
    RunKeepsInv(faulted, moves, states, k);
  }
}
