/** The management supervisor, the run lock and the token command, as one protocol over the config file.
    A token command reads the lock and acts on it in one step; everything else interleaves freely. */
module TokenRegister {
  import opened Common

  /** A configuration: the access token, and everything else. */
  datatype Cfg = Cfg(token: string, rest: string)

  /** What a config file that does not exist reads as. */
  const DEFAULT: Cfg := Cfg("", "")

  /** What the run lock says: nobody holds it, held with nothing published, held by an appliance with no
      API, and held by one whose API listens. */
  datatype Lock = Free | Starting | NoApi | Live

  /** The appliance: not running; up to its first API start; an API serving, stopped on its own and not yet
      noticed, or drained; none between attempts; an attempt before and after its reload; no API for good. */
  datatype Phase = Off | Booting | Serving | Dead | Draining | Down | Attempting(loaded: bool) | Quiet

  /** One change written to the file: the fields it asked for, and whether whoever asked was told so. */
  datatype Change = Change(token: Option<string>, rest: Option<string>, reported: bool)

  /** A change leaves the fields it does not ask for as they are. */
  function Merge(cfg: Cfg, c: Change): Cfg {
    Cfg(if c.token.Some? then c.token.value else cfg.token, if c.rest.Some? then c.rest.value else cfg.rest)
  }

  /** `log` is the changes asked for and written, oldest first; the first is the file the run starts with. */
  datatype State = State(file: Option<Cfg>, storeCfg: Cfg, store: Cfg, lock: Lock, phase: Phase, published: bool,
                         log: seq<Change>)
  {
    function OnDisk(): Cfg { if file.Some? then file.value else DEFAULT }

    /** An API's handlers can run: it serves, or it stopped and has not drained. */
    predicate HasApi() { phase.Serving? || phase.Dead? || phase.Draining? }
  }

  /** How a reload finds the file: readable, failing to read or parse, or momentarily not there. */
  datatype Read = Content | Unreadable | Vanished

  datatype Outcome = Disabled | Failed | Up

  /** `saved` says the file write succeeded, `replied` that the answer of a live change got through. */
  datatype Move =
    | Token(token: string, saved: bool, replied: bool)
    | Patch(rest: Option<string>, auth: Option<string>, saved: bool, replied: bool)
    | Boot(enabled: bool) | Serve(up: bool) | Publish | Break | Halted | Drained
    | Begin | Reload(read: Read, applied: bool) | Finish(outcome: Outcome) | Exit

  predicate Enabled(s: State, m: Move) {
    match m
    case Token(_, _, _) => true
    case Patch(_, _, _, _) => s.HasApi()
    case Boot(_) => s.phase.Off?
    case Serve(_) => s.phase.Booting?
    case Publish => (s.phase.Serving? || s.phase.Dead?) && !s.published
    case Break => s.phase.Serving?
    case Halted => s.phase.Dead? && s.published
    case Drained => s.phase.Draining?
    case Begin => s.phase.Down?
    case Reload(_, _) => s.phase == Attempting(false)
    case Finish(_) => s.phase == Attempting(true)
    case Exit => !s.phase.Off?
  }

  function Next(s: State, m: Move): State
    requires Enabled(s, m)
  {
    match m
    case Token(token, saved, replied) => ChangeToken(s, token, saved, replied)
    case Patch(rest, auth, saved, replied) => Update(s, Change(auth, rest, replied), saved)
    case Boot(enabled) =>
      if enabled then s.(phase := Booting, lock := Starting, storeCfg := s.OnDisk())
      else s.(phase := Quiet, lock := NoApi, storeCfg := s.OnDisk())
    case Serve(up) => if up then StartApi(s) else s.(phase := Down, lock := NoApi)
    case Publish => s.(lock := Live, published := true)
    case Break => s.(phase := Dead)
    case Halted => s.(phase := Draining, lock := Starting)
    case Drained => s.(phase := Down, lock := NoApi, storeCfg := s.store)
    case Begin => s.(phase := Attempting(false), lock := Starting)
    case Reload(read, applied) => ReloadFile(s, read, applied)
    case Finish(outcome) =>
      if outcome.Up? then StartApi(s) else s.(phase := if outcome.Disabled? then Quiet else Down, lock := NoApi)
    case Exit => s.(phase := Off, lock := Free)
  }

  /** The token command, by what it reads in the run lock. */
  function ChangeToken(s: State, token: string, saved: bool, replied: bool): State {
    match s.lock
    case Free => EditFile(s, token, saved)
    case NoApi => EditFile(s, token, saved)
    case Starting => s
    case Live => if s.HasApi() then Update(s, Change(Some(token), None, replied), saved) else s
  }

  /** Loads the file, sets the token in what it read, and saves that. */
  function EditFile(s: State, token: string, saved: bool): State {
    var c := Change(Some(token), None, true);
    if saved then s.(file := Some(Merge(s.OnDisk(), c)), log := s.log + [c]) else s
  }

  /** Merges a change into the store's configuration, not the file's; persists that, and swaps it in after. */
  function Update(s: State, c: Change, saved: bool): State {
    var next := Merge(s.store, c);
    if saved then s.(file := Some(next), store := next, log := s.log + [c]) else s
  }

  /** An API comes up on a store seeded from storeCfg, before the lock says so. */
  function StartApi(s: State): State { s.(phase := Serving, store := s.storeCfg, published := false) }

  function ReloadFile(s: State, read: Read, applied: bool): State {
    if read.Vanished? || s.file.None? then s.(phase := Attempting(true))
    else if read.Unreadable? then s.(phase := Down, lock := NoApi)
    else if s.file.value == s.storeCfg then s.(phase := Attempting(true))
    else if applied then s.(phase := Attempting(true), storeCfg := s.file.value)
    else s.(phase := Down, lock := NoApi)
  }

  function Start(file: Option<Cfg>, any: Cfg): State {
    var s := State(file, any, any, Free, Off, false, []);
    s.(log := [Change(Some(s.OnDisk().token), Some(s.OnDisk().rest), true)])
  }

  ghost predicate IsRun(file: Option<Cfg>, any: Cfg, moves: seq<Move>, states: seq<State>) {
    && |states| == |moves| + 1 && states[0] == Start(file, any)
    && forall k | 0 <= k < |moves| :: Enabled(states[k], moves[k]) && states[k + 1] == Next(states[k], moves[k])
  }

  /** A reload that finds no file although one with an edit the appliance does not hold is there. */
  predicate Misread(s: State, m: Move) {
    m.Reload? && m.read.Vanished? && s.file.Some? && s.file.value != s.storeCfg
  }

  /** No attempt ends between two moves. */
  ghost predicate OneAttempt(moves: seq<Move>, m: nat, f: nat)
    requires f <= |moves|
  {
    forall j | m < j < f :: !moves[j].Finish? && !moves[j].Exit?
  }

  /** An attempt misreads the file at m and comes up at f. A misread attempt that fails, or that the process
      ends, is not one: the next attempt reads the file again. */
  ghost predicate ServesMisread(moves: seq<Move>, states: seq<State>, m: nat, f: nat)
    requires |states| == |moves| + 1
  {
    m < f < |moves| && Misread(states[m], moves[m]) && OneAttempt(moves, m, f) && moves[f] == Finish(Up)
  }

  /** No attempt before k came up on a misread file. */
  ghost predicate Clean(moves: seq<Move>, states: seq<State>, k: nat)
    requires |states| == |moves| + 1
  {
    forall m: nat, f: nat | m < f < k :: !ServesMisread(moves, states, m, f)
  }

  predicate LockOk(s: State) {
    match s.phase
    case Off => s.lock.Free?
    case Booting => s.lock.Starting?
    case Serving => s.lock == if s.published then Live else Starting
    case Dead => s.lock == if s.published then Live else Starting
    case Draining => s.lock.Starting?
    case Down => s.lock.NoApi?
    case Attempting(_) => s.lock.Starting?
    case Quiet => s.lock.NoApi?
  }

  /** Holds at every point of every run: what the lock says, and what the appliance holds of a file nobody has
      read past. */
  predicate Inv(s: State) {
    && LockOk(s)
    && (s.phase.Booting? ==> s.storeCfg == s.OnDisk())
    && (s.file.None? && !s.phase.Off? ==> s.storeCfg == DEFAULT && (s.HasApi() ==> s.store == DEFAULT))
  }

  /** A store that handlers can save from is the file. */
  predicate Current(s: State) { s.HasApi() ==> s.store == s.OnDisk() }

  /** One move keeps the invariant; and it leaves a store behind the file exactly if it brings an API up on a
      configuration that is not the file's. */
  lemma NextKeepsInv(s: State, m: Move)
    requires Inv(s) && Enabled(s, m)
    ensures Inv(Next(s, m))
    ensures Current(s) ==> (Current(Next(s, m)) <==> !(m == Finish(Up) && s.storeCfg != s.OnDisk()))
  {
    hide Merge;
    match m
    case Token(token, saved, replied) => ChangeKeepsInv(s, token, saved, replied);
    case _ =>
  }

  lemma ChangeKeepsInv(s: State, token: string, saved: bool, replied: bool)
    requires Inv(s)
    ensures Inv(ChangeToken(s, token, saved, replied))
    ensures Current(s) ==> Current(ChangeToken(s, token, saved, replied))
  {
    hide Merge;
  }

  lemma {:induction false} RunKeepsInv(file: Option<Cfg>, any: Cfg, moves: seq<Move>, states: seq<State>, k: nat)
    requires IsRun(file, any, moves, states) && k < |states|
    ensures Inv(states[k])
  {
    hide Next, Enabled, Inv;
    if k == 0 {
      StartIsInv(file, any);
    } else {
      RunKeepsInv(file, any, moves, states, k - 1);
      NextKeepsInv(states[k - 1], moves[k - 1]);
    }
  }

  lemma StartIsInv(file: Option<Cfg>, any: Cfg)
    ensures Inv(Start(file, any)) && Current(Start(file, any))
  {
  }

  /** The lock a token command reads never invites an edit that an API could undo: it reads free or without
      an API only while no handler can save and no attempt has read the file. */
  lemma EditsAreSafe(file: Option<Cfg>, any: Cfg, moves: seq<Move>, states: seq<State>, k: nat)
    requires IsRun(file, any, moves, states) && k < |states|
    requires states[k].lock.Free? || states[k].lock.NoApi?
    ensures states[k].phase.Off? || states[k].phase.Down? || states[k].phase.Quiet?
  {
    hide Next, Enabled;
    RunKeepsInv(file, any, moves, states, k);
  }

  // ----- when a serving API holds the file -----

  /** An attempt past its reload that is about to seed its API with something other than the file. */
  predicate Stale(s: State) { s.phase == Attempting(true) && s.storeCfg != s.OnDisk() }

  /** What makes an attempt stale, and that nothing but its end makes it current again. */
  lemma StaleStep(s: State, m: Move)
    requires Inv(s) && Enabled(s, m)
    ensures Stale(Next(s, m)) <==> Misread(s, m) || (Stale(s) && !m.Finish? && !m.Exit?)
  {
    hide Merge;
  }

  /** A stale attempt goes back to its own misread. */
  lemma {:induction false} StaleSince(file: Option<Cfg>, any: Cfg, moves: seq<Move>, states: seq<State>, k: nat)
    returns (m: nat)
    requires IsRun(file, any, moves, states) && k < |states| && Stale(states[k])
    ensures m < k && Misread(states[m], moves[m]) && OneAttempt(moves, m, k)
  {
    hide Next, Enabled, Inv, Misread, Stale;
    if k == 0 {
      NotStaleAtStart(file, any);
    } else {
      RunKeepsInv(file, any, moves, states, k - 1);
      StaleStep(states[k - 1], moves[k - 1]);
      if Misread(states[k - 1], moves[k - 1]) {
        m := k - 1;
      } else {
        m := StaleSince(file, any, moves, states, k - 1);
      }
    }
  }

  lemma NotStaleAtStart(file: Option<Cfg>, any: Cfg)
    ensures !Stale(Start(file, any))
  {
  }

  /** A misread attempt stays stale until it ends. */
  lemma {:induction false} StaysStale(file: Option<Cfg>, any: Cfg, moves: seq<Move>, states: seq<State>,
                                      m: nat, k: nat)
    requires IsRun(file, any, moves, states) && m < k < |states|
    requires Misread(states[m], moves[m]) && OneAttempt(moves, m, k)
    ensures Stale(states[k])
  {
    hide Next, Enabled, Inv, Misread, Stale;
    RunKeepsInv(file, any, moves, states, k - 1);
    StaleStep(states[k - 1], moves[k - 1]);
    if m < k - 1 { StaysStale(file, any, moves, states, m, k - 1); }
  }

  /** At every point up to k the store of a serving API is the file, exactly when no attempt came up on a
      misread file before k. */
  lemma {:induction false} StoreIsFileExactly(file: Option<Cfg>, any: Cfg, moves: seq<Move>, states: seq<State>,
                                              k: nat)
    requires IsRun(file, any, moves, states) && k < |states|
    ensures (forall j | 0 <= j <= k :: Current(states[j])) <==> Clean(moves, states, k)
  {
    hide Next, Enabled, Inv, Current, Start, Misread;
    if k == 0 {
      StartIsInv(file, any);
    } else {
      StoreIsFileExactly(file, any, moves, states, k - 1);
      RunKeepsInv(file, any, moves, states, k - 1);
      NextKeepsInv(states[k - 1], moves[k - 1]);
      ServesStaleExactly(file, any, moves, states, k - 1);
      if Clean(moves, states, k) {
        assert Clean(moves, states, k - 1) && Current(states[k]);
      } else if Clean(moves, states, k - 1) {
        var m: nat, f: nat :| m < f < k && ServesMisread(moves, states, m, f);
        assert f == k - 1 && Current(states[k - 1]) && !Current(states[k]);
      }
    }
  }

  /** A move brings an API up on something other than the file exactly when its attempt misread the file. */
  lemma ServesStaleExactly(file: Option<Cfg>, any: Cfg, moves: seq<Move>, states: seq<State>, f: nat)
    requires IsRun(file, any, moves, states) && f < |moves|
    ensures (moves[f] == Finish(Up) && states[f].storeCfg != states[f].OnDisk())
       <==> exists m: nat :: ServesMisread(moves, states, m, f)
  {
    hide Next, Misread;
    assert Enabled(states[f], moves[f]);
    if moves[f] == Finish(Up) && states[f].storeCfg != states[f].OnDisk() {
      var m := StaleSince(file, any, moves, states, f);
      assert ServesMisread(moves, states, m, f);
    }
    if m: nat :| ServesMisread(moves, states, m, f) {
      StaysStale(file, any, moves, states, m, f);
    }
  }

  /** A token edit of the file itself, while no API is there to take it. */
  predicate EditsFile(s: State, m: Move) { m.Token? && m.saved && (s.lock.Free? || s.lock.NoApi?) }

  /** Between APIs, and what the next one would be seeded with is not the file. */
  predicate Behind(s: State) { (s.phase.Down? || s.phase.Attempting?) && s.storeCfg != s.OnDisk() }

  lemma BehindStep(s: State, m: Move)
    requires Inv(s) && Enabled(s, m) && Current(s)
    ensures Behind(Next(s, m)) ==> EditsFile(s, m) || (Behind(s) && !m.Boot? && !m.Drained?)
  {
    hide Merge;
  }

  /** An attempt can misread an edit only if one was made since the last API drained, or the process started: what an
      API saved is never misread. */
  lemma {:induction false} MisreadNeedsEdit(file: Option<Cfg>, any: Cfg, moves: seq<Move>, states: seq<State>, k: nat)
    returns (j: nat)
    requires IsRun(file, any, moves, states) && k < |states| && Clean(moves, states, k) && Behind(states[k])
    ensures j < k && EditsFile(states[j], moves[j]) && forall l | j < l < k :: !moves[l].Boot? && !moves[l].Drained?
  {
    hide Next, Enabled, Inv, Current, Behind, EditsFile, Clean;
    if k == 0 {
      NotBehindAtStart(file, any);
    } else {
      RunKeepsInv(file, any, moves, states, k - 1);
      CleanBefore(moves, states, k);
      StoreIsFileExactly(file, any, moves, states, k - 1);
      BehindStep(states[k - 1], moves[k - 1]);
      j := k - 1;
      if !EditsFile(states[k - 1], moves[k - 1]) { j := MisreadNeedsEdit(file, any, moves, states, k - 1); }
    }
  }

  lemma CleanBefore(moves: seq<Move>, states: seq<State>, k: nat)
    requires |states| == |moves| + 1 && k > 0 && Clean(moves, states, k)
    ensures Clean(moves, states, k - 1)
  {}

  lemma NotBehindAtStart(file: Option<Cfg>, any: Cfg)
    ensures !Behind(Start(file, any))
  {}

  // ----- an API and the process -----

  /** An attempt goes on past its reload exactly if it finds no file, or one it holds already, or one that applies; it
      then holds the file it found, and otherwise it fails and leaves everything else as it was. */
  lemma ReloadsExactly(s: State, read: Read, applied: bool)
    requires s.phase == Attempting(false)
    ensures var t, found := Next(s, Reload(read, applied)), s.file.Some? && read.Content?;
            if found && s.file.value != s.storeCfg && applied then
              t == s.(phase := Attempting(true), storeCfg := s.file.value)
            else if found && s.file.value != s.storeCfg then t == s.(phase := Down, lock := NoApi)
            else if read.Unreadable? && s.file.Some? then t == s.(phase := Down, lock := NoApi)
            else t == s.(phase := Attempting(true))
  {}

  /** A change that is not written, or that the lock turns away, leaves everything as it was. */
  lemma UnwrittenChangesNothing(s: State, m: Move)
    requires Enabled(s, m) && (m.Token? || m.Patch?)
    ensures !m.saved || (m.Token? && s.lock.Starting?) ==> Next(s, m) == s
    ensures m.saved && (m.Patch? || s.lock.Free? || s.lock.NoApi? || (s.lock.Live? && s.HasApi())) ==>
              Next(s, m).log == s.log + [Written(s, m)]
  {}

  /** A management API that the configuration disables stays off until the process ends, and the lock says so. */
  lemma {:induction false} QuietUntilExit(file: Option<Cfg>, any: Cfg, moves: seq<Move>, states: seq<State>,
                                          j: nat, k: nat)
    requires IsRun(file, any, moves, states) && j < k < |states|
    requires moves[j] == Boot(false) || moves[j] == Finish(Disabled)
    requires forall l | j < l < k :: !moves[l].Exit?
    ensures states[k].phase.Quiet? && states[k].lock.NoApi?
  {
    hide Merge;
    if j < k - 1 { QuietUntilExit(file, any, moves, states, j, k - 1); }
  }

  /** One that stopped on its own serves no more: the next comes up with an attempt that reloads the file first. */
  lemma {:induction false} DeadUntilReload(file: Option<Cfg>, any: Cfg, moves: seq<Move>, states: seq<State>,
                                           j: nat, k: nat)
    requires IsRun(file, any, moves, states) && j < k < |states| && moves[j].Break?
    requires forall l | j < l < k :: !moves[l].Reload? && !moves[l].Exit?
    ensures states[k].phase.Dead? || states[k].phase.Draining? || states[k].phase.Down?
            || states[k].phase == Attempting(false)
  {
    hide Merge;
    if j < k - 1 { DeadUntilReload(file, any, moves, states, j, k - 1); }
  }

  /** What the supervisor can always do next: a process that is down boots, by its configuration with or without an API;
      one that runs can end, which frees the lock; and an API on its way up, down or through an attempt goes on. */
  lemma NothingBlocks(s: State)
    ensures s.phase.Off? <==> Enabled(s, Boot(true)) && Enabled(s, Boot(false))
    ensures s.phase.Off? ==> Next(s, Boot(true)).phase.Booting? && Next(s, Boot(false)).phase.Quiet?
    ensures !s.phase.Off? <==> Enabled(s, Exit)
    ensures !s.phase.Off? ==> Next(s, Exit).phase.Off? && Next(s, Exit).lock.Free?
    ensures s.phase.Booting? ==> Enabled(s, Serve(true)) && Enabled(s, Serve(false))
    ensures s.phase.Serving? ==> Enabled(s, Break) && Next(s, Break).phase.Dead?
    ensures (s.phase.Serving? || s.phase.Dead?) && !s.published ==> Enabled(s, Publish) && Next(s, Publish).lock.Live?
    ensures s.phase.Dead? && s.published ==> Enabled(s, Halted) && Next(s, Halted).lock.Starting?
    ensures s.phase.Draining? ==> Enabled(s, Drained) && Next(s, Drained).phase.Down?
    ensures s.phase.Down? ==> Enabled(s, Begin) && Next(s, Begin).phase == Attempting(false)
    ensures s.phase == Attempting(false) ==> Enabled(s, Reload(Content, true))
    ensures s.phase == Attempting(true) ==> Enabled(s, Finish(Up)) && Enabled(s, Finish(Failed))
  {}

  // ----- the register -----

  /** Every change written, merged in order. */
  function Merged(log: seq<Change>): Cfg {
    if log == [] then DEFAULT else Merge(Merged(log[..|log| - 1]), log[|log| - 1])
  }

  lemma Appended(log: seq<Change>, c: Change)
    ensures Merged(log + [c]) == Merge(Merged(log), c)
  {
    assert (log + [c])[..|log|] == log;
  }

  /** The change a move writes, if it writes one. */
  function Written(s: State, m: Move): Change {
    match m
    case Token(token, _, replied) => Change(Some(token), None, replied || !s.lock.Live?)
    case Patch(rest, auth, _, replied) => Change(auth, rest, replied)
    case _ => Change(None, None, true)
  }

  lemma OneStepGrows(s: State, m: Move)
    requires Enabled(s, m)
    ensures s.log <= Next(s, m).log <= s.log + [Written(s, m)]
  {
    hide Merge;
  }

  lemma {:induction false} LogGrows(file: Option<Cfg>, any: Cfg, moves: seq<Move>, states: seq<State>, j: nat, k: nat)
    requires IsRun(file, any, moves, states) && j <= k < |states|
    ensures states[j].log <= states[k].log
  {
    hide Next, Enabled;
    if j < k {
      LogGrows(file, any, moves, states, j, k - 1);
      OneStepGrows(states[k - 1], moves[k - 1]);
    }
  }

  /** An API saves a change: merged into its own store, whatever the file holds. */
  predicate SavesStore(s: State, m: Move) {
    (m.Patch? && m.saved) || (m.Token? && m.saved && s.lock.Live? && s.HasApi())
  }

  /** An API saves a change that leaves the token alone while the file has another token than its store. */
  predicate RevertsToken(s: State, m: Move) {
    SavesStore(s, m) && Written(s, m).token.None? && s.store.token != s.OnDisk().token
  }

  /** The same of any field. */
  predicate Reverts(s: State, m: Move) {
    || RevertsToken(s, m)
    || (SavesStore(s, m) && Written(s, m).rest.None? && s.store.rest != s.OnDisk().rest)
  }

  /** One move keeps the file, or its token, the merge of the log, exactly unless it saves a field of its store
      that is not the file's. */
  lemma StepRegisters(s: State, m: Move)
    requires Enabled(s, m)
    ensures s.OnDisk() == Merged(s.log) ==> (Next(s, m).OnDisk() == Merged(Next(s, m).log) <==> !Reverts(s, m))
    ensures s.OnDisk().token == Merged(s.log).token ==>
              (Next(s, m).OnDisk().token == Merged(Next(s, m).log).token <==> !RevertsToken(s, m))
  {
    hide Merged;
    Appended(s.log, Written(s, m));
  }

  lemma StartRegisters(file: Option<Cfg>, any: Cfg)
    ensures var s := Start(file, any); s.OnDisk() == Merged(s.log) && |s.log| == 1 && s.log[0].token.Some?
  {
    var s := Start(file, any);
    assert s.log == [] + [s.log[0]];
    Appended([], s.log[0]);
  }

  /** No change is lost: at every point up to k the file is every change written so far, merged in order,
      exactly when no API saved back a field that the file has otherwise; and no API does unless an attempt
      came up on a misread file. */
  lemma {:induction false} FileIsEveryChange(file: Option<Cfg>, any: Cfg, moves: seq<Move>, states: seq<State>,
                                             k: nat)
    requires IsRun(file, any, moves, states) && k < |states|
    ensures (forall j | 0 <= j <= k :: states[j].OnDisk() == Merged(states[j].log))
       <==> (forall j | 0 <= j < k :: !Reverts(states[j], moves[j]))
    ensures Clean(moves, states, k) ==> forall j | 0 <= j < k :: !Reverts(states[j], moves[j])
  {
    hide Next, Enabled, Merged, Start, Reverts, Clean, Current;
    if k == 0 {
      StartRegisters(file, any);
    } else {
      FileIsEveryChange(file, any, moves, states, k - 1);
      StepRegisters(states[k - 1], moves[k - 1]);
      assert states[k] == Next(states[k - 1], moves[k - 1]);
    }
    if Clean(moves, states, k) {
      StoreIsFileExactly(file, any, moves, states, k);
      forall j | 0 <= j < k ensures !Reverts(states[j], moves[j]) {
        CurrentReverts(states[j], moves[j]);
      }
    }
  }

  lemma CurrentReverts(s: State, m: Move)
    requires Current(s) && Enabled(s, m)
    ensures !Reverts(s, m)
  {
  }

  /** A token change is the last one of a log. */
  ghost predicate IsLastToken(log: seq<Change>, l: nat) {
    l < |log| && log[l].token.Some? && forall j | l < j < |log| :: log[j].token.None?
  }

  lemma {:induction false} LastTokenStands(log: seq<Change>, l: nat)
    requires IsLastToken(log, l)
    ensures log[l].token == Some(Merged(log).token)
  {
    if l < |log| - 1 { LastTokenStands(log[..|log| - 1], l); }
  }

  lemma {:induction false} LastTokenExists(log: seq<Change>) returns (l: nat)
    requires |log| > 0 && log[0].token.Some?
    ensures IsLastToken(log, l)
  {
    if log[|log| - 1].token.Some? {
      l := |log| - 1;
    } else {
      l := LastTokenExists(log[..|log| - 1]);
    }
  }

  /** The token on disk is the last one asked for and written. */
  ghost predicate TokenStands(s: State) {
    forall l: nat | IsLastToken(s.log, l) :: s.log[l].token == Some(s.OnDisk().token)
  }

  lemma StandsIsMerged(s: State)
    requires |s.log| > 0 && s.log[0].token.Some?
    ensures TokenStands(s) <==> s.OnDisk().token == Merged(s.log).token
  {
    hide Merged;
    var l := LastTokenExists(s.log);
    forall l: nat | IsLastToken(s.log, l) ensures s.log[l].token == Some(Merged(s.log).token) {
      LastTokenStands(s.log, l);
    }
  }

  /** The token on disk is the last one asked for and written, at every point up to k, exactly when no API saved
      an earlier one back. */
  lemma {:induction false} TokenIsLastChange(file: Option<Cfg>, any: Cfg, moves: seq<Move>, states: seq<State>,
                                             k: nat)
    requires IsRun(file, any, moves, states) && k < |states|
    ensures (forall j | 0 <= j <= k :: TokenStands(states[j]))
       <==> (forall j | 0 <= j < k :: !RevertsToken(states[j], moves[j]))
  {
    hide Next, Enabled, Merged, Start, RevertsToken, TokenStands;
    StartRegisters(file, any);
    LogGrows(file, any, moves, states, 0, k);
    StandsIsMerged(states[k]);
    if k > 0 {
      TokenIsLastChange(file, any, moves, states, k - 1);
      LogGrows(file, any, moves, states, 0, k - 1);
      StandsIsMerged(states[k - 1]);
      StepRegisters(states[k - 1], moves[k - 1]);
    }
  }

  /** A token change reported successful is on disk until a later token change is written, unless an API saved
      an earlier token back, which none does before k if no attempt came up on a misread file. */
  lemma ReportedChangeSurvives(file: Option<Cfg>, any: Cfg, moves: seq<Move>, states: seq<State>, k: nat, l: nat)
    requires IsRun(file, any, moves, states) && k < |states|
    requires Clean(moves, states, k) || forall j | 0 <= j < k :: !RevertsToken(states[j], moves[j])
    requires l < |states[k].log| && states[k].log[l].token.Some? && states[k].log[l].reported
    ensures || Some(states[k].OnDisk().token) == states[k].log[l].token
            || exists j | l < j < |states[k].log| :: states[k].log[j].token.Some?
  {
    hide Next, Enabled, Clean, Merged, RevertsToken;
    FileIsEveryChange(file, any, moves, states, k);
    TokenIsLastChange(file, any, moves, states, k);
    assert forall j | 0 <= j < k :: !Reverts(states[j], moves[j]) ==> !RevertsToken(states[j], moves[j]);
    assert TokenStands(states[k]);
    if forall j | l < j < |states[k].log| :: states[k].log[j].token.None? {
      assert IsLastToken(states[k].log, l);
    }
  }

  // ----- what the operator was told -----

  /** The last token whose asker was told. */
  function LastReported(log: seq<Change>): string {
    if log == [] then DEFAULT.token
    else
      var c := log[|log| - 1];
      if c.token.Some? && c.reported then c.token.value else LastReported(log[..|log| - 1])
  }

  /** The operator's view is right: the token on disk is the last one reported. */
  predicate Known(s: State) { s.OnDisk().token == LastReported(s.log) }

  /** A live change that is saved, whose answer is lost, and that asks for another token than the one there. */
  predicate LosesAnswer(s: State, m: Move) {
    var c := Written(s, m);
    SavesStore(s, m) && c.token.Some? && !c.reported && c.token.value != s.OnDisk().token
  }

  /** A move that writes a token. */
  predicate WritesToken(s: State, m: Move)
    requires Enabled(s, m)
  {
    |Next(s, m).log| > |s.log| && Next(s, m).log[|s.log|].token.Some?
  }

  lemma ReportedOf(log: seq<Change>, c: Change)
    ensures LastReported(log + [c]) == if c.token.Some? && c.reported then c.token.value else LastReported(log)
  {
    assert (log + [c])[..|log|] == log;
  }

  /** What one move does to the operator's view: it is lost exactly by a lost answer or a token saved back, it
      comes back with any reported token, and nothing but a token write or a token saved back changes it. */
  lemma StepTracks(s: State, m: Move)
    requires Enabled(s, m)
    ensures Known(s) ==> (Known(Next(s, m)) <==> !LosesAnswer(s, m) && !RevertsToken(s, m))
    ensures !WritesToken(s, m) && !RevertsToken(s, m) ==> (Known(Next(s, m)) <==> Known(s))
    ensures WritesToken(s, m) && Written(s, m).reported ==> Known(Next(s, m))
  {
    hide LastReported;
    ReportedOf(s.log, Written(s, m));
  }

  /** The token on disk is the last one reported successful at every point up to k exactly when no answer that
      changed it was lost, and no token saved back, before k. */
  lemma {:induction false} KnownExactly(file: Option<Cfg>, any: Cfg, moves: seq<Move>, states: seq<State>, k: nat)
    requires IsRun(file, any, moves, states) && k < |states|
    ensures (forall j | 0 <= j <= k :: Known(states[j]))
       <==> (forall j | 0 <= j < k :: !LosesAnswer(states[j], moves[j]) && !RevertsToken(states[j], moves[j]))
  {
    hide Next, Known, LosesAnswer, RevertsToken, WritesToken, Enabled, Start;
    if k == 0 {
      KnownAtStart(file, any);
    } else {
      KnownExactly(file, any, moves, states, k - 1);
      StepTracks(states[k - 1], moves[k - 1]);
      assert states[k] == Next(states[k - 1], moves[k - 1]);
    }
  }

  lemma KnownAtStart(file: Option<Cfg>, any: Cfg)
    ensures Known(Start(file, any))
  {
    var s := Start(file, any);
    assert s.log == [] + [s.log[0]];
    ReportedOf([], s.log[0]);
  }

  /** Once lost, the operator's view stays wrong until a token is written again or saved back. */
  lemma {:induction false} LostUntilWritten(file: Option<Cfg>, any: Cfg, moves: seq<Move>, states: seq<State>,
                                            j: nat, k: nat)
    requires IsRun(file, any, moves, states) && j < k < |states|
    requires Known(states[j]) && !Known(states[j + 1])
    requires forall l | j < l < k :: !WritesToken(states[l], moves[l]) && !RevertsToken(states[l], moves[l])
    ensures !Known(states[k])
  {
    hide Next, Known, LosesAnswer, RevertsToken, WritesToken, Enabled;
    if j < k - 1 {
      LostUntilWritten(file, any, moves, states, j, k - 1);
      StepTracks(states[k - 1], moves[k - 1]);
    }
  }

  // ----- runs -----

  lemma Extended(file: Option<Cfg>, any: Cfg, moves: seq<Move>, states: seq<State>, m: Move)
    requires IsRun(file, any, moves, states) && Enabled(states[|moves|], m)
    ensures IsRun(file, any, moves + [m], states + [Next(states[|moves|], m)])
  {
    hide Next, Enabled, Start;
  }

  /** A token edit while no API serves, and the attempt that then finds no file. */
  lemma EditThenMisread() returns (moves: seq<Move>, states: seq<State>)
    ensures IsRun(Some(Cfg("old", "devices")), DEFAULT, moves, states)
    ensures moves == [Boot(true), Serve(false), Token("new", true, true), Begin, Reload(Vanished, true)]
    ensures Misread(states[4], moves[4])
    ensures states[5] == State(Some(Cfg("new", "devices")), Cfg("old", "devices"), DEFAULT, Starting, Attempting(true),
                               false, [Change(Some("old"), Some("devices"), true), Change(Some("new"), None, true)])
  {
    var a, b := Cfg("old", "devices"), Cfg("new", "devices");
    var l0 := [Change(Some("old"), Some("devices"), true)];
    var l1 := l0 + [Change(Some("new"), None, true)];
    moves := [Boot(true), Serve(false), Token("new", true, true), Begin, Reload(Vanished, true)];
    states := [
      State(Some(a), DEFAULT, DEFAULT, Free, Off, false, l0),
      State(Some(a), a, DEFAULT, Starting, Booting, false, l0),
      State(Some(a), a, DEFAULT, NoApi, Down, false, l0),
      State(Some(b), a, DEFAULT, NoApi, Down, false, l1),
      State(Some(b), a, DEFAULT, Starting, Attempting(false), false, l1),
      State(Some(b), a, DEFAULT, Starting, Attempting(true), false, l1)];
  }

  /** A token edit, reported successful, that a misread attempt and the next web UI save of anything else
      revert: the last token asked for and written is not the one on disk. */
  lemma MisreadLosesAnEdit() returns (moves: seq<Move>, states: seq<State>)
    ensures IsRun(Some(Cfg("old", "devices")), DEFAULT, moves, states) && ServesMisread(moves, states, 4, 5)
    ensures var s := states[|moves|];
            IsLastToken(s.log, 1) && s.log[1] == Change(Some("new"), None, true) && s.OnDisk().token == "old"
  {
    var before, through := EditThenMisread();
    var up, save := Finish(Up), Patch(Some("renamed"), None, true, true);
    var serving := Next(through[5], up);
    Extended(Some(Cfg("old", "devices")), DEFAULT, before, through, up);
    Extended(Some(Cfg("old", "devices")), DEFAULT, before + [up], through + [serving], save);
    moves, states := before + [up] + [save], through + [serving] + [Next(serving, save)];
    assert Misread(states[4], moves[4]);
  }

  /** An attempt past its reload that fails, and the next one, which reads the file and comes up. */
  lemma FailThenUp(s: State)
    requires s.phase == Attempting(true) && s.lock.Starting? && s.file.Some? && s.file.value != s.storeCfg
    ensures var down := s.(phase := Down, lock := NoApi);
            var trying := s.(phase := Attempting(false));
            var loaded := s.(storeCfg := s.file.value);
            && Enabled(s, Finish(Failed)) && Next(s, Finish(Failed)) == down
            && Enabled(down, Begin) && Next(down, Begin) == trying
            && Enabled(trying, Reload(Content, true)) && Next(trying, Reload(Content, true)) == loaded
            && Enabled(loaded, Finish(Up)) && Next(loaded, Finish(Up)) == StartApi(loaded)
  {
  }

  /** The same misread in an attempt that then fails costs nothing: the next one reads the edited file. */
  lemma MisreadThatFails() returns (moves: seq<Move>, states: seq<State>)
    ensures IsRun(Some(Cfg("old", "devices")), DEFAULT, moves, states) && |moves| == 9
    ensures Misread(states[4], moves[4]) && Clean(moves, states, |moves|)
    ensures states[9].HasApi() && states[9].store == states[9].OnDisk() == Cfg("new", "devices")
  {
    hide Next, Enabled, Start;
    var before, through := EditThenMisread();
    var s := through[5];
    FailThenUp(s);
    var loaded := s.(storeCfg := s.file.value);
    moves := before + [Finish(Failed), Begin, Reload(Content, true), Finish(Up)];
    states := through + [s.(phase := Down, lock := NoApi), s.(phase := Attempting(false)), loaded, StartApi(loaded)];
    assert forall k | 0 <= k < 5 :: moves[k] == before[k] && states[k] == through[k];
    assert states[5] == s && moves[5] == Finish(Failed);
  }

  /** A live token change that is saved and whose answer is lost: the last token reported is not the one on
      disk, although no read was wrong. */
  lemma LostAnswer() returns (moves: seq<Move>, states: seq<State>)
    ensures IsRun(Some(Cfg("old", "devices")), DEFAULT, moves, states) && Clean(moves, states, |moves|)
    ensures var s := states[|moves|]; s.OnDisk().token == "new" && LastReported(s.log) == "old"
  {
    var a, b := Cfg("old", "devices"), Cfg("new", "devices");
    var l0 := [Change(Some("old"), Some("devices"), true)];
    moves := [Boot(true), Serve(true), Publish, Token("new", true, false)];
    states := [
      State(Some(a), DEFAULT, DEFAULT, Free, Off, false, l0),
      State(Some(a), a, DEFAULT, Starting, Booting, false, l0),
      State(Some(a), a, a, Starting, Serving, false, l0),
      State(Some(a), a, a, Live, Serving, true, l0),
      State(Some(b), a, b, Live, Serving, true, l0 + [Change(Some("new"), None, false)])];
    ReportedOf(l0, Change(Some("new"), None, false));
    ReportedOf([], l0[0]);
  }
}
