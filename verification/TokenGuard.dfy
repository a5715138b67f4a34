/** The access token and its generation, swapped as one pair by any number of concurrent setters. Each load and each
    compare-and-swap is one step. A setter allocates the pair it offers and swaps the guard's pointer to it if the
    pointer is still the one it loaded; a pair, once allocated, never changes and is never freed while it is held. */
module TokenGuard {
  const WORD: int := 0x1_0000_0000_0000_0000

  datatype Pair = Pair(token: string, gen: int)

  /** A setter: idle, about to load, and holding the pointer it loaded. */
  datatype Setter = Idle | Loading(token: string) | Holding(token: string, ptr: nat)

  /** The pairs allocated, by address; address 0 stands for nil, open access at generation 0. `cur` is the guard's
      pointer, and `installed` every pointer it has been, in order. */
  datatype State = State(nodes: seq<Pair>, cur: nat, installed: seq<nat>, setters: map<nat, Setter>)
  {
    function At(id: nat): Setter { if id in setters then setters[id] else Idle }

    /** What a load of the guard sees. */
    function Snapshot(): Pair
      requires cur < |nodes|
    {
      nodes[cur]
    }
  }

  datatype Move = Begin(id: nat, token: string) | Load(id: nat) | Swap(id: nat)

  const START: State := State([Pair("", 0)], 0, [0], map[])

  predicate Enabled(s: State, m: Move) {
    match m
    case Begin(id, _) => s.At(id).Idle?
    case Load(id) => s.At(id).Loading?
    case Swap(id) => s.At(id).Holding? && s.At(id).ptr < |s.nodes|
  }

  /** The pair a setter builds from the one it loaded. */
  function Built(prior: Pair, token: string): Pair {
    Pair(token, if token != prior.token then (prior.gen + 1) % WORD else prior.gen)
  }

  /** The compare finds the pointer it expects. */
  predicate Succeeds(s: State, m: Move)
    requires Enabled(s, m)
  {
    m.Swap? && s.At(m.id).ptr == s.cur
  }

  function Next(s: State, m: Move): State
    requires Enabled(s, m)
  {
    match m
    case Begin(id, token) => s.(setters := s.setters[id := Loading(token)])
    case Load(id) => s.(setters := s.setters[id := Holding(s.At(id).token, s.cur)])
    case Swap(id) =>
      var made := s.(nodes := s.nodes + [Built(s.nodes[s.At(id).ptr], s.At(id).token)]);
      if Succeeds(s, m)
      then made.(cur := |s.nodes|, installed := s.installed + [|s.nodes|], setters := s.setters[id := Idle])
      else made.(setters := s.setters[id := Loading(s.At(id).token)])
  }

  ghost predicate IsRun(moves: seq<Move>, states: seq<State>) {
    && |states| == |moves| + 1 && states[0] == START
    && forall k | 0 <= k < |moves| :: Enabled(states[k], moves[k]) && states[k + 1] == Next(states[k], moves[k])
  }

  /** The pair installed at position i is there, was allocated after every earlier one, and was built from the last. */
  predicate Linked(nodes: seq<Pair>, installed: seq<nat>, i: nat)
    requires i < |installed|
  {
    && installed[i] < |nodes|
    && (if i == 0 then nodes[installed[0]] == Pair("", 0)
        else
          && installed[i - 1] < installed[i]
          && nodes[installed[i]] == Built(nodes[installed[i - 1]], nodes[installed[i]].token))
  }

  predicate Inv(s: State) {
    && s.installed != [] && s.installed[|s.installed| - 1] == s.cur && s.cur < |s.nodes|
    && (forall p | p in s.installed :: p < |s.nodes|)
    && (forall i | 0 <= i < |s.installed| :: Linked(s.nodes, s.installed, i))
    && (forall id | id in s.setters && s.setters[id].Holding? :: s.setters[id].ptr in s.installed)
  }

  lemma StillLinked(nodes: seq<Pair>, p: Pair, installed: seq<nat>, ptr: nat, i: nat)
    requires i < |installed| && Linked(nodes, installed, i) && (i > 0 ==> Linked(nodes, installed, i - 1))
    ensures Linked(nodes + [p], installed, i) && Linked(nodes + [p], installed + [ptr], i)
  {}

  lemma NextKeepsInv(s: State, m: Move)
    requires Inv(s) && Enabled(s, m)
    ensures Inv(Next(s, m)) && s.installed <= Next(s, m).installed && s.nodes <= Next(s, m).nodes
  {
    hide Linked, Built;
    if m.Swap? {
      var p := Built(s.nodes[s.At(m.id).ptr], s.At(m.id).token);
      forall i | 0 <= i < |s.installed|
        ensures Linked(s.nodes + [p], s.installed, i) && Linked(s.nodes + [p], s.installed + [|s.nodes|], i)
      {
        StillLinked(s.nodes, p, s.installed, |s.nodes|, i);
      }
      LastLinked(s, s.At(m.id).token);
    }
  }

  lemma LastLinked(s: State, token: string)
    requires Inv(s)
    ensures s.cur < |s.nodes|
    ensures Linked(s.nodes + [Built(s.nodes[s.cur], token)], s.installed + [|s.nodes|], |s.installed|)
  {
    assert Linked(s.nodes, s.installed, |s.installed| - 1);
  }

  lemma {:induction false} Ascending(s: State, i: nat, j: nat)
    requires Inv(s) && i < j < |s.installed|
    ensures s.installed[i] < s.installed[j]
  {
    assert Linked(s.nodes, s.installed, j);
    if i < j - 1 { Ascending(s, i, j - 1); }
  }

  lemma {:induction false} RunKeepsInv(moves: seq<Move>, states: seq<State>, k: nat)
    requires IsRun(moves, states) && k < |states|
    ensures Inv(states[k])
  {
    hide Next, Enabled, Inv;
    if k == 0 {
      StartIsInv();
    } else {
      RunKeepsInv(moves, states, k - 1);
      NextKeepsInv(states[k - 1], moves[k - 1]);
    }
  }

  lemma StartIsInv()
    ensures Inv(START)
  {}

  lemma {:induction false} RunGrows(moves: seq<Move>, states: seq<State>, j: nat, k: nat)
    requires IsRun(moves, states) && j <= k < |states|
    ensures states[j].installed <= states[k].installed && states[j].nodes <= states[k].nodes
  {
    hide Next, Enabled, Inv;
    if j < k {
      RunGrows(moves, states, j, k - 1);
      RunKeepsInv(moves, states, k - 1);
      NextKeepsInv(states[k - 1], moves[k - 1]);
    }
  }

  // ----- generations -----

  /** The pairs the guard has held, in the order they were installed. */
  function History(s: State): seq<Pair>
    requires Inv(s)
  {
    assert forall i | 0 <= i < |s.installed| :: s.installed[i] in s.installed && s.installed[i] < |s.nodes|;
    seq(|s.installed|, i requires 0 <= i < |s.installed| => s.nodes[s.installed[i]])
  }

  /** Each installed pair was built from the one before it. */
  ghost predicate Chained(history: seq<Pair>) {
    && history != [] && history[0] == Pair("", 0)
    && forall i | 0 < i < |history| :: history[i] == Built(history[i - 1], history[i].token)
  }

  lemma HistoryIsChained(s: State)
    requires Inv(s)
    ensures s.cur < |s.nodes| && Chained(History(s)) && History(s)[|History(s)| - 1] == s.Snapshot()
  {
    assert Linked(s.nodes, s.installed, |s.installed| - 1) && Linked(s.nodes, s.installed, 0);
    forall i | 0 < i < |History(s)| ensures History(s)[i] == Built(History(s)[i - 1], History(s)[i].token) {
      assert Linked(s.nodes, s.installed, i);
    }
  }

  /** How many of the swaps after position i, up to j, changed the token. */
  function Changes(history: seq<Pair>, i: nat, j: nat): nat
    requires i <= j < |history|
  {
    if i == j then 0
    else Changes(history, i, j - 1) + if history[j].token != history[j - 1].token then 1 else 0
  }

  /** The generation advances exactly once per change of the token, in the order of the swaps. */
  lemma {:induction false} GenerationCountsChanges(history: seq<Pair>, i: nat, j: nat)
    requires Chained(history) && i <= j < |history|
    ensures history[j].gen == (history[i].gen + Changes(history, i, j)) % WORD
    ensures 0 <= history[i].gen < WORD
  {
    InRange(history, i);
    if i < j {
      GenerationCountsChanges(history, i, j - 1);
      OneMore(history[i].gen + Changes(history, i, j - 1));
    }
  }

  lemma {:induction false} InRange(history: seq<Pair>, i: nat)
    requires Chained(history) && i < |history|
    ensures 0 <= history[i].gen < WORD
  {
    if i > 0 { InRange(history, i - 1); }
  }

  lemma OneMore(n: int)
    ensures (n % WORD + 1) % WORD == (n + 1) % WORD
  {}

  lemma {:induction false} NoChangeSameToken(history: seq<Pair>, i: nat, j: nat)
    requires i <= j < |history| && Changes(history, i, j) == 0
    ensures history[i].token == history[j].token
  {
    if i < j { NoChangeSameToken(history, i, j - 1); }
  }

  /** Two snapshots of equal generation saw the same token, with no change in between, even a change away and
      back: exactly unless the 64-bit counter wrapped all the way round between them. */
  lemma EqualGenerationsMeanNoChange(moves: seq<Move>, states: seq<State>, j: nat, k: nat)
    requires IsRun(moves, states) && j <= k < |states|
    ensures Inv(states[j]) && Inv(states[k])
    ensures var before, after := states[j].Snapshot(), states[k].Snapshot();
            var history, a, b := History(states[k]), |states[j].installed| - 1, |states[k].installed| - 1;
            && 0 <= a <= b < |history| && history[a] == before && history[b] == after
            && (before.gen == after.gen <==> Changes(history, a, b) % WORD == 0)
            && (before.gen == after.gen && Changes(history, a, b) < WORD ==>
                  Changes(history, a, b) == 0 && before.token == after.token)
  {
    RunKeepsInv(moves, states, j);
    RunKeepsInv(moves, states, k);
    RunGrows(moves, states, j, k);
    HistoryIsChained(states[k]);
    var history, a, b := History(states[k]), |states[j].installed| - 1, |states[k].installed| - 1;
    assert states[k].installed[a] == states[j].cur && history[a] == states[j].Snapshot();
    GenerationCountsChanges(history, a, b);
    Wraps(history[a].gen, Changes(history, a, b));
    if Changes(history, a, b) == 0 { NoChangeSameToken(history, a, b); }
  }

  lemma Wraps(gen: int, changes: nat)
    requires 0 <= gen < WORD
    ensures (gen + changes) % WORD == gen <==> changes % WORD == 0
  {
    var q, r := changes / WORD, changes % WORD;
    assert gen + changes == (gen + r) + q * WORD;
    Shifts(gen + r, q);
  }

  lemma Shifts(x: int, q: int)
    ensures (x + q * WORD) % WORD == x % WORD
  {}

  // ----- swaps -----

  /** What a setter holds is a pair the guard once held, and that pair is as it was then. */
  lemma HeldIsReal(moves: seq<Move>, states: seq<State>, j: nat, k: nat, id: nat)
    requires IsRun(moves, states) && j < k <= |moves| && moves[j] == Load(id)
    requires forall i | j < i < k :: moves[i].id != id
    ensures Inv(states[j]) && states[k].At(id).Holding? && states[k].At(id).ptr in states[k].installed
    ensures states[k].At(id).ptr < |states[k].nodes| && states[k].nodes[states[k].At(id).ptr] == states[j].Snapshot()
  {
    RunKeepsInv(moves, states, j);
    RunKeepsInv(moves, states, k);
    StillHolds(moves, states, j, k, id);
    RunGrows(moves, states, j, k);
  }

  lemma {:induction false} StillHolds(moves: seq<Move>, states: seq<State>, j: nat, k: nat, id: nat)
    requires IsRun(moves, states) && j < k <= |moves| && moves[j] == Load(id)
    requires forall i | j < i < k :: moves[i].id != id
    ensures states[k].At(id).Holding? && states[k].At(id).ptr == states[j].cur
  {
    if j + 1 < k { StillHolds(moves, states, j, k - 1, id); }
  }

  /** A swap succeeds exactly when nothing was installed since its load: a pointer that went away does not come back,
      even if its token does. */
  lemma SucceedsExactly(moves: seq<Move>, states: seq<State>, j: nat, k: nat, id: nat)
    requires IsRun(moves, states) && j < k < |moves| && moves[j] == Load(id) && moves[k] == Swap(id)
    requires forall i | j < i < k :: moves[i].id != id
    ensures Succeeds(states[k], moves[k]) <==> states[k].installed == states[j].installed
  {
    RunKeepsInv(moves, states, j);
    RunKeepsInv(moves, states, k);
    StillHolds(moves, states, j, k, id);
    RunGrows(moves, states, j, k);
    var a := |states[j].installed| - 1;
    assert states[k].installed[a] == states[j].cur;
    if a < |states[k].installed| - 1 { Ascending(states[k], a, |states[k].installed| - 1); }
    if a == |states[k].installed| - 1 {
      assert states[k].installed == states[j].installed;
    }
  }

  /** A failed swap lost to another setter: between its load and the swap, another Set installed a pair. */
  lemma {:induction false} FailureMeansProgress(moves: seq<Move>, states: seq<State>, j: nat, k: nat, id: nat)
    returns (l: nat)
    requires IsRun(moves, states) && j < k < |moves| && moves[j] == Load(id) && moves[k] == Swap(id)
    requires forall i | j < i < k :: moves[i].id != id
    requires !Succeeds(states[k], moves[k])
    ensures j < l < k && moves[l].Swap? && moves[l].id != id && Succeeds(states[l], moves[l])
  {
    SucceedsExactly(moves, states, j, k, id);
    l := j + 1;
    while !(moves[l].Swap? && Succeeds(states[l], moves[l]))
      invariant j < l < k && states[l].installed == states[j].installed
      decreases k - l
    {
      l := l + 1;
    }
  }

  // ----- what a Set installs -----

  /** What one step does to what readers see: a successful swap installs its setter's token, at the next generation
      exactly if that is another token than the one held; nothing else changes it. */
  lemma SwapInstalls(moves: seq<Move>, states: seq<State>, k: nat)
    requires IsRun(moves, states) && k < |moves|
    ensures Inv(states[k]) && Inv(states[k + 1])
    ensures var before, after := states[k].Snapshot(), states[k + 1].Snapshot();
            if Succeeds(states[k], moves[k]) then
              && states[k].At(moves[k].id).Holding? && after.token == states[k].At(moves[k].id).token
              && after.gen == if after.token != before.token then (before.gen + 1) % WORD else before.gen
            else after == before
  {
    RunKeepsInv(moves, states, k);
    RunKeepsInv(moves, states, k + 1);
  }

  /** The Set under way by id at point k was begun at b with that token. */
  ghost predicate BegunAt(moves: seq<Move>, b: nat, k: nat, id: nat, token: string)
    requires k <= |moves|
  {
    b < k && moves[b] == Begin(id, token) && forall j | b < j < k :: !(moves[j].Begin? && moves[j].id == id)
  }

  /** A Set keeps the token it was called with, however often its swap fails. */
  lemma {:induction false} SetterKeepsToken(moves: seq<Move>, states: seq<State>, k: nat, id: nat) returns (b: nat)
    requires IsRun(moves, states) && k < |states| && !states[k].At(id).Idle?
    ensures BegunAt(moves, b, k, id, states[k].At(id).token)
  {
    hide Built;
    if moves[k - 1] == Begin(id, states[k].At(id).token) {
      b := k - 1;
    } else {
      b := SetterKeepsToken(moves, states, k - 1, id);
    }
  }

  /** A Set goes from its call to a load, from a load to its swap, and from a swap that lost back to a load; only a swap
      that wins ends it, and no other Set's moves touch it. */
  lemma SetRetries(moves: seq<Move>, states: seq<State>, k: nat, id: nat)
    requires IsRun(moves, states) && k < |moves|
    ensures var was, now := states[k].At(id), states[k + 1].At(id);
            if moves[k].id != id then now == was
            else match moves[k]
              case Begin(_, token) => was.Idle? && now == Loading(token)
              case Load(_) => was.Loading? && now == Holding(was.token, states[k].cur)
              case Swap(_) => was.Holding? && now == if was.ptr == states[k].cur then Idle else Loading(was.token)
  {}

  /** The last successful swap before point k is the one at l. */
  ghost predicate LastInstall(moves: seq<Move>, states: seq<State>, l: nat, k: nat)
    requires IsRun(moves, states) && k < |states|
  {
    && l < k && Succeeds(states[l], moves[l])
    && forall j | l < j < k :: !Succeeds(states[j], moves[j])
  }

  /** At every point the token readers see is the one the last successful Set was called with. */
  lemma {:induction false} TokenIsLastSet(moves: seq<Move>, states: seq<State>, l: nat, k: nat) returns (b: nat)
    requires IsRun(moves, states) && k < |states| && LastInstall(moves, states, l, k)
    ensures Inv(states[k]) && BegunAt(moves, b, l, moves[l].id, states[k].Snapshot().token)
  {
    hide Next;
    SwapInstalls(moves, states, k - 1);
    if l == k - 1 {
      b := SetterKeepsToken(moves, states, l, moves[l].id);
    } else {
      b := TokenIsLastSet(moves, states, l, k - 1);
    }
  }

  /** And before the first it is none: open access. */
  lemma {:induction false} OpenUntilSet(moves: seq<Move>, states: seq<State>, k: nat)
    requires IsRun(moves, states) && k < |states|
    requires forall j | 0 <= j < k :: !Succeeds(states[j], moves[j])
    ensures Inv(states[k]) && states[k].Snapshot() == Pair("", 0)
  {
    hide Next;
    if k > 0 {
      OpenUntilSet(moves, states, k - 1);
      SwapInstalls(moves, states, k - 1);
    } else {
      StartIsInv();
    }
  }
}
