/** The value layer of the finite-automaton engine: the configuration record a
    client supplies, the form in which the engine stores it, the errors it can
    raise, and the transition semantics as functions. The class in module
    Engine is proved against these definitions. */
module Automaton {

  /** States and symbols are plain text labels. */
  type State = string
  type Symbol = string

  /** A transition table: a row per source state, each row a partial map from
      symbols to target states. Rows may be missing, and a row may be empty. */
  type TransitionTable = map<State, map<Symbol, State>>

  datatype Result<+T, +E> = Ok(value: T) | Err(error: E)

  datatype Outcome<+E> = Pass | Fail(error: E)

  /** The configuration record as a client writes it: lists of labels (which
      may repeat) and a nested transition table. */
  datatype Config = Config(
    states: seq<State>,
    alphabet: seq<Symbol>,
    initialState: State,
    finalStates: seq<State>,
    transition: TransitionTable)

  /** The configuration as the engine keeps it: the lists turned into sets. */
  datatype Dfa = Dfa(
    states: set<State>,
    alphabet: set<Symbol>,
    initialState: State,
    finalStates: set<State>,
    transition: TransitionTable)

  /** Construction failures, each carrying the offending label. */
  datatype ConfigError =
    | InvalidInitialState(state: State)
    | InvalidFinalState(state: State)
    | TransitionToInvalidState(state: State)
    | InvalidSymbolInTransition(symbol: Symbol)

  /** Failures of a single transition step. The first three are raised by
      consume; InvalidSymbol is the alphabet check of processBit, which carries
      a message of its own. */
  datatype StepError =
    | SymbolNotInAlphabet(symbol: Symbol)
    | NoTransitionsForState(state: State)
    | NoTransitionForSymbol(symbol: Symbol, state: State)
    | InvalidSymbol(symbol: Symbol)

  /** The copy the engine's constructor makes: the same labels as sets, the
      same initial state and the same transition table. */
  function FromConfig(c: Config): (d: Dfa)
    ensures forall s :: s in d.states <==> s in c.states
    ensures forall a :: a in d.alphabet <==> a in c.alphabet
    ensures forall s :: s in d.finalStates <==> s in c.finalStates
    ensures d.initialState == c.initialState && d.transition == c.transition
  {
    Dfa((set s | s in c.states), (set a | a in c.alphabet), c.initialState,
        (set s | s in c.finalStates), c.transition)
  }

  // The four checks construction performs. The source states of the table
  // (its row keys) are deliberately absent: construction never looks at them.

  predicate InitialKnown(d: Dfa) {
    d.initialState in d.states
  }

  predicate FinalsKnown(d: Dfa) {
    d.finalStates <= d.states
  }

  predicate TargetsKnown(d: Dfa) {
    forall q, a :: q in d.transition && a in d.transition[q] ==> d.transition[q][a] in d.states
  }

  predicate SymbolsKnown(d: Dfa) {
    forall q, a :: q in d.transition && a in d.transition[q] ==> a in d.alphabet
  }

  /** A configuration that construction accepts. */
  predicate Validated(d: Dfa) {
    InitialKnown(d) && FinalsKnown(d) && TargetsKnown(d) && SymbolsKnown(d)
  }

  /** `e` is an error construction may report for `d`: the value it names
      really violates the check it names, and every check that construction
      performs before that one passes. Within one table entry the target is
      checked before the symbol. */
  ghost predicate Violation(d: Dfa, e: ConfigError) {
    match e
    case InvalidInitialState(s) =>
      s == d.initialState && s !in d.states
    case InvalidFinalState(s) =>
      InitialKnown(d) && s in d.finalStates && s !in d.states
    case TransitionToInvalidState(t) =>
      InitialKnown(d) && FinalsKnown(d) && t !in d.states &&
      exists q, a :: q in d.transition && a in d.transition[q] && d.transition[q][a] == t
    case InvalidSymbolInTransition(a) =>
      InitialKnown(d) && FinalsKnown(d) && a !in d.alphabet &&
      exists q :: q in d.transition && a in d.transition[q] && d.transition[q][a] in d.states
  }

  /** One step of consume from state `q` on symbol `a`, with its three
      distinct failures: a symbol outside the alphabet, a state without a row
      in the table, and a row without an entry for the symbol. */
  function Step(d: Dfa, q: State, a: Symbol): (r: Result<State, StepError>)
    ensures r == Err(SymbolNotInAlphabet(a)) <==> a !in d.alphabet
    ensures r == Err(NoTransitionsForState(q)) <==> a in d.alphabet && q !in d.transition
    ensures r == Err(NoTransitionForSymbol(a, q)) <==>
              a in d.alphabet && q in d.transition && a !in d.transition[q]
    ensures r.Ok? <==> a in d.alphabet && q in d.transition && a in d.transition[q]
    ensures r.Ok? ==> r.value == d.transition[q][a]
    ensures r.Ok? && TargetsKnown(d) ==> r.value in d.states
  {
    if a !in d.alphabet then Err(SymbolNotInAlphabet(a))
    else if q !in d.transition then Err(NoTransitionsForState(q))
    else if a !in d.transition[q] then Err(NoTransitionForSymbol(a, q))
    else Ok(d.transition[q][a])
  }

  /** Feeding `xs` to the automaton from state `q`, left to right, stopping
      with the first step that fails. */
  function RunFrom(d: Dfa, q: State, xs: seq<Symbol>): (r: Result<State, StepError>)
    ensures xs == [] ==> r == Ok(q)
    ensures r.Ok? && TargetsKnown(d) && q in d.states ==> r.value in d.states
    decreases |xs|
  {
    if xs == [] then Ok(q)
    else match Step(d, q, xs[0])
      case Err(e) => Err(e)
      case Ok(p) => RunFrom(d, p, xs[1..])
  }

  /** Running `xs + ys` is running `xs`, then `ys` from wherever `xs` ended;
      a failure in `xs` is the failure of the whole. */
  lemma {:induction false} RunFromAppend(d: Dfa, q: State, xs: seq<Symbol>, ys: seq<Symbol>)
    ensures RunFrom(d, q, xs + ys) ==
              match RunFrom(d, q, xs)
              case Ok(p) => RunFrom(d, p, ys)
              case Err(e) => Err(e)
    decreases |xs|
  {
    if xs == [] {
      assert xs + ys == ys;
    } else {
      assert (xs + ys)[0] == xs[0];
      assert (xs + ys)[1..] == xs[1..] + ys;
      match Step(d, q, xs[0])
      case Err(e) =>
      case Ok(p) => RunFromAppend(d, p, xs[1..], ys);
    }
  }

  /** Bulk equals incremental: running `xs + [a]` is running `xs` and then
      taking one step on `a`. */
  lemma RunFromSnoc(d: Dfa, q: State, xs: seq<Symbol>, a: Symbol)
    ensures RunFrom(d, q, xs + [a]) ==
              match RunFrom(d, q, xs)
              case Ok(p) => Step(d, p, a)
              case Err(e) => Err(e)
  {
    RunFromAppend(d, q, xs, [a]);
    match RunFrom(d, q, xs)
    case Err(e) =>
    case Ok(p) => assert [a][1..] == [];
  }

  /** A failing run fails at some position `k`: the prefix before `k` runs
      without error and the step on `xs[k]` raises exactly the run's error. */
  lemma {:induction false} RunFromStopsAtFirstFailure(d: Dfa, q: State, xs: seq<Symbol>)
    requires RunFrom(d, q, xs).Err?
    ensures exists k :: 0 <= k < |xs| && RunFrom(d, q, xs[..k]).Ok? &&
              Step(d, RunFrom(d, q, xs[..k]).value, xs[k]) == Err(RunFrom(d, q, xs).error)
    decreases |xs|
  {
    match Step(d, q, xs[0])
    case Err(e) =>
      assert xs[..0] == [];
      assert RunFrom(d, q, xs[..0]) == Ok(q);
    case Ok(p) =>
      RunFromStopsAtFirstFailure(d, p, xs[1..]);
      var k :| 0 <= k < |xs[1..]| && RunFrom(d, p, xs[1..][..k]).Ok? &&
                Step(d, RunFrom(d, p, xs[1..][..k]).value, xs[1..][k]) == Err(RunFrom(d, p, xs[1..]).error);
      var pre := xs[..k + 1];
      assert pre[0] == xs[0] && pre[1..] == xs[1..][..k];
      assert RunFrom(d, q, pre) == RunFrom(d, p, xs[1..][..k]);
      assert xs[k + 1] == xs[1..][k];
  }

  /** Symbols after the first failure are never looked at. */
  lemma RunFromIgnoresRest(d: Dfa, q: State, xs: seq<Symbol>, ys: seq<Symbol>)
    requires RunFrom(d, q, xs).Err?
    ensures RunFrom(d, q, xs + ys) == RunFrom(d, q, xs)
  {
    RunFromAppend(d, q, xs, ys);
  }

  /** A run succeeds only on symbols of the alphabet: every symbol of a
      successful run passed the alphabet check. */
  lemma {:induction false} RunOkOnlyOnAlphabet(d: Dfa, q: State, xs: seq<Symbol>)
    requires RunFrom(d, q, xs).Ok?
    ensures forall i :: 0 <= i < |xs| ==> xs[i] in d.alphabet
    decreases |xs|
  {
    if xs != [] {
      var p := Step(d, q, xs[0]).value;
      RunOkOnlyOnAlphabet(d, p, xs[1..]);
      forall i | 1 <= i < |xs| ensures xs[i] in d.alphabet {
        assert xs[i] == xs[1..][i - 1];
      }
    }
  }

  /** Every state of the table has an entry for every symbol of the alphabet. */
  predicate Total(d: Dfa) {
    forall q, a :: q in d.states && a in d.alphabet ==> q in d.transition && a in d.transition[q]
  }

  /** On a total table whose targets are known, a run from a known state over
      symbols of the alphabet never fails. */
  lemma {:induction false} TotalRunNeverFails(d: Dfa, q: State, xs: seq<Symbol>)
    requires Total(d) && TargetsKnown(d) && q in d.states
    requires forall i :: 0 <= i < |xs| ==> xs[i] in d.alphabet
    ensures RunFrom(d, q, xs).Ok?
    decreases |xs|
  {
    if xs != [] {
      var p := Step(d, q, xs[0]).value;
      TotalRunNeverFails(d, p, xs[1..]);
    }
  }

  /** Construction never looks at row keys: adding a row under any label,
      known state or not, keeps a validated configuration validated as long as
      the row's own symbols and targets are known. */
  lemma ValidationIgnoresSourceStates(d: Dfa, q: State, row: map<Symbol, State>)
    requires Validated(d)
    requires forall a :: a in row ==> a in d.alphabet && row[a] in d.states
    ensures Validated(d.(transition := d.transition[q := row]))
  {
  }

  /** A row that exists but is empty is reported as a missing entry for the
      symbol, not as a state without transitions: only the row's presence is
      tested. */
  lemma EmptyRowReportsMissingSymbol(d: Dfa, q: State, a: Symbol)
    requires a in d.alphabet && q in d.transition && d.transition[q] == map[]
    ensures Step(d, q, a) == Err(NoTransitionForSymbol(a, q))
  {
  }
}
