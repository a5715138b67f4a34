/** When the process ends: the run loop's exit decision, interleaved with the supervisor of the management
    API giving up. The supervisor marks the handle and then signals; the loop decides at startup, whenever a
    pump ends, and on that signal. */
module ExitDecision {
  /** Working; past the check that no shutdown began; past the marking; and past the signal. */
  datatype Supervisor = Working | Ending | Marked | Gone

  /** The loop before its startup decision, between turns, and ended: by the exit decision, or by a shutdown. */
  datatype Loop = Startup | Turning | Exited | ShutDown

  /** `serving` counts the devices that serve at startup, `ended` the pumps that ended and whose result the
      loop has yet to take; `apiServes` says an API serves right now. */
  datatype State = State(enabled: bool, alive: nat, ended: nat, gaveUp: bool, lost: bool, apiServes: bool,
                         supervisor: Supervisor, cancelled: bool, loop: Loop)
  {
    predicate KeepsUp() { enabled && !gaveUp }
  }

  datatype Move =
    | Decide | Reconcile(started: nat) | PumpEnds | TakePump | TakeLost | Cancel | TakeCancel
    | ApiUp | ApiDown | GiveUp | Mark | Signal

  predicate Enabled(s: State, m: Move) {
    match m
    case Decide => s.loop.Startup?
    case Reconcile(_) => s.loop.Startup? || s.loop.Turning?
    case PumpEnds => s.ended < s.alive
    case TakePump => s.loop.Turning? && 0 < s.ended <= s.alive
    case TakeLost => s.loop.Turning? && s.lost
    case Cancel => true
    case TakeCancel => s.loop.Turning? && s.cancelled
    case ApiUp => s.enabled && s.supervisor.Working?
    case ApiDown => s.apiServes
    case GiveUp => s.enabled && s.supervisor.Working? && !s.apiServes && !s.cancelled
    case Mark => s.supervisor.Ending?
    case Signal => s.supervisor.Marked?
  }

  function Next(s: State, m: Move): State
    requires Enabled(s, m)
  {
    match m
    case Decide => s.(loop := if StartupExit(s.alive, s.apiServes) then Exited else Turning)
    case Reconcile(started) => s.(alive := s.alive + started)
    case PumpEnds => s.(ended := s.ended + 1)
    case TakePump =>
      s.(alive := s.alive - 1, ended := s.ended - 1,
         loop := if RunExit(s.alive - 1, s.KeepsUp()) then Exited else Turning)
    case TakeLost =>
      s.(lost := false,
         loop := if s.cancelled then ShutDown else if RunExit(s.alive, s.KeepsUp()) then Exited else Turning)
    case Cancel => s.(cancelled := true)
    case TakeCancel => s.(loop := ShutDown)
    case ApiUp => s.(apiServes := true)
    case ApiDown => s.(apiServes := false)
    case GiveUp => s.(supervisor := Ending)
    case Mark => s.(gaveUp := true, supervisor := Marked)
    case Signal => s.(lost := true, supervisor := Gone)
  }

  /** Ends the startup when nothing serves. */
  predicate StartupExit(serving: nat, apiServing: bool) { !(serving > 0 || apiServing) }

  /** Ends the loop when nothing keeps the process up. */
  predicate RunExit(alive: int, apiUp: bool) { !(alive > 0 || apiUp) }

  function Start(enabled: bool): State { State(enabled, 0, 0, false, false, false, Working, false, Startup) }

  ghost predicate IsRun(enabled: bool, moves: seq<Move>, states: seq<State>) {
    && |states| == |moves| + 1 && states[0] == Start(enabled)
    && forall k | 0 <= k < |moves| :: Enabled(states[k], moves[k]) && states[k + 1] == Next(states[k], moves[k])
  }

  predicate Inv(s: State) {
    && s.ended <= s.alive
    && (s.apiServes ==> s.enabled && s.supervisor.Working?)
    && (s.gaveUp <==> s.supervisor.Marked? || s.supervisor.Gone?)
    && (s.lost ==> s.supervisor.Gone?)
    && (!s.supervisor.Working? ==> s.enabled)
    && (s.loop.Turning? ==> s.alive > 0 || s.KeepsUp() || s.lost || s.supervisor.Marked?)
  }

  lemma NextKeepsInv(s: State, m: Move)
    requires Inv(s) && Enabled(s, m)
    ensures Inv(Next(s, m)) && Next(s, m).enabled == s.enabled
  {}

  lemma {:induction false} RunKeepsInv(enabled: bool, moves: seq<Move>, states: seq<State>, k: nat)
    requires IsRun(enabled, moves, states) && k < |states|
    ensures Inv(states[k]) && states[k].enabled == enabled
  {
    if k > 0 {
      RunKeepsInv(enabled, moves, states, k - 1);
      NextKeepsInv(states[k - 1], moves[k - 1]);
    }
  }

  /** The decision is never missed: between turns a pump is alive, the handle keeps the process up, or a
      signal is pending, exactly unless no pump is alive and the supervisor stands between marking the handle
      and signalling; and from there it signals next. */
  lemma NeverSticks(enabled: bool, moves: seq<Move>, states: seq<State>, k: nat)
    requires IsRun(enabled, moves, states) && k < |states| && states[k].loop.Turning?
    ensures var s := states[k]; s.alive > 0 || s.KeepsUp() || s.lost <==> s.alive > 0 || !s.supervisor.Marked?
    ensures states[k].supervisor.Marked? ==> Enabled(states[k], Signal) && Next(states[k], Signal).lost
  {
    RunKeepsInv(enabled, moves, states, k);
  }

  /** A run that stands there. */
  lemma StandsBetween() returns (moves: seq<Move>, states: seq<State>)
    ensures IsRun(true, moves, states)
    ensures var s := states[|moves|]; s.loop.Turning? && s.alive == 0 && !s.KeepsUp() && !s.lost
  {
    moves := [ApiUp, Decide, ApiDown, GiveUp, Mark];
    var s0 := Start(true);
    var s1 := Next(s0, ApiUp);
    var s2 := Next(s1, Decide);
    var s3 := Next(s2, ApiDown);
    var s4 := Next(s3, GiveUp);
    states := [s0, s1, s2, s3, s4, Next(s4, Mark)];
  }

  /** With nothing left to keep the process up and the supervisor's signal sent, the next turn that takes the
      signal ends the loop. */
  lemma LostSignalEnds(enabled: bool, moves: seq<Move>, states: seq<State>, k: nat)
    requires IsRun(enabled, moves, states) && k < |moves| && states[k].loop.Turning?
    requires states[k].alive == 0 && !states[k].KeepsUp() && !states[k].supervisor.Marked?
    ensures states[k].lost
    ensures moves[k].TakeLost? ==> states[k + 1].loop.Exited? || states[k + 1].loop.ShutDown?
  {
    RunKeepsInv(enabled, moves, states, k);
  }

  /** The loop's own decisions, exactly: a startup ends the process if and only if nothing serves, and a turn that takes
      a pump's end or the supervisor's signal if and only if no pump is left and nothing keeps the process up; a
      shutdown under way takes precedence over the signal, and no other step ends the loop. */
  lemma DecidesExactly(enabled: bool, moves: seq<Move>, states: seq<State>, k: nat)
    requires IsRun(enabled, moves, states) && k < |moves|
    ensures var s, t, m := states[k], states[k + 1], moves[k];
            && (m.Decide? ==> t.loop == if s.alive == 0 && !s.apiServes then Exited else Turning)
            && (m.TakePump? ==> t.loop == if s.alive == 1 && (!enabled || s.gaveUp) then Exited else Turning)
            && (m.TakeLost? ==> t.loop == if s.cancelled then ShutDown
                                          else if s.alive == 0 && (!enabled || s.gaveUp) then Exited else Turning)
            && (m.TakeCancel? ==> t.loop == ShutDown)
            && (!m.Decide? && !m.TakePump? && !m.TakeLost? && !m.TakeCancel? ==> t.loop == s.loop)
  {
    RunKeepsInv(enabled, moves, states, k);
  }

  /** The loop never exits early: the exit decision of a turn ends it only with no pump alive and the API
      disabled or given up, and a startup only with nothing serving. */
  lemma NeverExitsEarly(enabled: bool, moves: seq<Move>, states: seq<State>, k: nat)
    requires IsRun(enabled, moves, states) && k < |moves|
    requires !states[k].loop.Exited? && states[k + 1].loop.Exited?
    ensures states[k + 1].alive == 0
    ensures if states[k].loop.Startup? then !states[k].apiServes else !enabled || states[k].gaveUp
  {
    RunKeepsInv(enabled, moves, states, k);
  }

  // ----- what the state is of the moves before it -----

  /** Devices that started to serve, pumps that ended, and results the loop took. */
  function Started(moves: seq<Move>): nat {
    if moves == [] then 0
    else
      var m := moves[|moves| - 1];
      Started(moves[..|moves| - 1]) + if m.Reconcile? then m.started else 0
  }

  function Count(moves: seq<Move>, what: Move): nat {
    if moves == [] then 0
    else Count(moves[..|moves| - 1], what) + if moves[|moves| - 1] == what then 1 else 0
  }

  /** A move of that kind happened, and none that undoes it since. */
  predicate Since(moves: seq<Move>, what: Move, undo: Move) {
    moves != [] &&
    var m := moves[|moves| - 1];
    m == what || (m != undo && Since(moves[..|moves| - 1], what, undo))
  }

  /** Every pump is counted until the loop takes its result, and the flags are those of the last moves that set or
      cleared them. */
  lemma {:induction false} StateIsHistory(enabled: bool, moves: seq<Move>, states: seq<State>, k: nat)
    requires IsRun(enabled, moves, states) && k < |states|
    ensures var s, past := states[k], moves[..k];
            && s.alive == Started(past) - Count(past, TakePump)
            && s.ended == Count(past, PumpEnds) - Count(past, TakePump)
            && (s.cancelled <==> Cancel in past) && (s.gaveUp <==> Mark in past)
            && (s.lost <==> Since(past, Signal, TakeLost)) && (s.apiServes <==> Since(past, ApiUp, ApiDown))
  {
    hide Next, Enabled;
    if k > 0 {
      StateIsHistory(enabled, moves, states, k - 1);
      var m := moves[k - 1];
      Changes(states[k - 1], m);
      assert moves[..k] == moves[..k - 1] + [m] && moves[..k][..k - 1] == moves[..k - 1];
    }
  }

  lemma Changes(s: State, m: Move)
    requires Enabled(s, m)
    ensures var t := Next(s, m);
            && t.alive == s.alive + (if m.Reconcile? then m.started else 0) - (if m == TakePump then 1 else 0)
            && t.ended == s.ended + (if m == PumpEnds then 1 else 0) - (if m == TakePump then 1 else 0)
    ensures var t := Next(s, m);
            && (t.cancelled <==> s.cancelled || m == Cancel) && (t.gaveUp <==> s.gaveUp || m == Mark)
            && (t.lost <==> m == Signal || (m != TakeLost && s.lost))
            && (t.apiServes <==> m == ApiUp || (m != ApiDown && s.apiServes)) && t.enabled == s.enabled
  {
    match m
    case TakePump =>
    case TakeLost =>
    case _ =>
  }

  /** The supervisor gives up only with the API enabled, none serving and no shutdown begun; it then marks the handle
      and signals, once each and in that order. */
  lemma GivesUpInOrder(enabled: bool, moves: seq<Move>, states: seq<State>, k: nat)
    requires IsRun(enabled, moves, states) && k < |moves|
    ensures moves[k] == GiveUp ==> enabled && !states[k].apiServes && !states[k].cancelled && GiveUp !in moves[..k]
    ensures moves[k] == Mark ==> GiveUp in moves[..k] && Mark !in moves[..k]
    ensures moves[k] == Signal ==> Mark in moves[..k] && Signal !in moves[..k]
    ensures moves[k] == ApiUp ==> GiveUp !in moves[..k]
  {
    SupervisorIs(enabled, moves, states, k);
    StateIsHistory(enabled, moves, states, k);
  }

  lemma {:induction false} SupervisorIs(enabled: bool, moves: seq<Move>, states: seq<State>, k: nat)
    requires IsRun(enabled, moves, states) && k < |states|
    ensures states[k].enabled == enabled
    ensures var s, past := states[k].supervisor, moves[..k];
            && (s.Working? <==> GiveUp !in past) && (s.Ending? <==> GiveUp in past && Mark !in past)
            && (s.Marked? <==> Mark in past && Signal !in past) && (s.Gone? <==> Signal in past)
  {
    hide Next, Enabled;
    if k > 0 {
      SupervisorIs(enabled, moves, states, k - 1);
      Supervises(states[k - 1], moves[k - 1]);
      assert moves[..k] == moves[..k - 1] + [moves[k - 1]];
    }
  }

  lemma Supervises(s: State, m: Move)
    requires Enabled(s, m)
    ensures Next(s, m).enabled == s.enabled
    ensures Next(s, m).supervisor == match m
                                     case GiveUp => Ending
                                     case Mark => Marked
                                     case Signal => Gone
                                     case _ => s.supervisor
    ensures m.GiveUp? ==> s.supervisor.Working?
    ensures m.Mark? ==> s.supervisor.Ending?
    ensures m.Signal? ==> s.supervisor.Marked?
  {}

  /** Nothing keeps a shutdown from beginning, a pump from ending, or the supervisor from finishing what it began; a
      loop between turns can take what is there for it, and one that has ended takes nothing more. */
  lemma NothingBlocks(s: State)
    ensures Enabled(s, Cancel) && (s.ended < s.alive <==> Enabled(s, PumpEnds)) && (s.apiServes ==> Enabled(s, ApiDown))
    ensures s.supervisor.Ending? ==> Enabled(s, Mark)
    ensures s.supervisor.Marked? ==> Enabled(s, Signal)
    ensures s.enabled && s.supervisor.Working? ==> Enabled(s, ApiUp)
    ensures s.enabled && s.supervisor.Working? && !s.apiServes && !s.cancelled ==> Enabled(s, GiveUp)
    ensures s.loop.Startup? ==> Enabled(s, Decide)
    ensures forall n: nat :: Enabled(s, Reconcile(n)) <==> s.loop.Startup? || s.loop.Turning?
    ensures s.loop.Turning? && 0 < s.ended <= s.alive <==> Enabled(s, TakePump)
    ensures s.loop.Turning? && s.lost <==> Enabled(s, TakeLost)
    ensures s.loop.Turning? && s.cancelled <==> Enabled(s, TakeCancel)
  {}
}
