/** The automaton engine: an object that keeps a validated configuration and a
    single mutable cursor, `currentState`. */
module Engine {
  import opened Automaton

  class FiniteStateMachine {
    // The configuration is never reassigned after construction, so it is
    // kept in constant fields; the cursor is the only field that changes.
    const states: set<State>
    const alphabet: set<Symbol>
    const initialState: State
    const finalStates: set<State>
    const transition: TransitionTable
    var currentState: State

    /** The stored configuration as a value. */
    function Definition(): (d: Dfa) {
      Dfa(states, alphabet, initialState, finalStates, transition)
    }

    /** The object invariant of every machine a client can hold: the
        configuration passed validation and the cursor is a known state. */
    ghost predicate Valid()
      reads this
    {
      Validated(Definition()) && currentState in states
    }

    /** Copies the configuration and puts the cursor on the initial state.
        Only a configuration that passes validation can be copied: Create
        validates first, so no unvalidated machine ever exists. */
    constructor (config: Config)
      requires Validated(FromConfig(config))
      ensures Valid()
      ensures Definition() == FromConfig(config)
      ensures currentState == config.initialState
    {
      states := set s | s in config.states;
      alphabet := set a | a in config.alphabet;
      initialState := config.initialState;
      finalStates := set s | s in config.finalStates;
      transition := config.transition;
      currentState := config.initialState;
    }

    /** Construction: the configuration is validated, and a machine is built
        only if validation passes. */
    static method Create(config: Config) returns (r: Result<FiniteStateMachine, ConfigError>)
      ensures r.Ok? <==> Validated(FromConfig(config))
      ensures r.Ok? ==> fresh(r.value) && r.value.Valid() &&
                        r.value.Definition() == FromConfig(config) &&
                        r.value.currentState == config.initialState
      ensures r.Err? ==> Violation(FromConfig(config), r.error)
    {
      var v := ValidateConfig(FromConfig(config));
      match v
      case Pass =>
        var m := new FiniteStateMachine(config);
        r := Ok(m);
      case Fail(e) =>
        r := Err(e);
    }

    /** Checks the initial state, then every final state, then every entry of
        the transition table (target first, then symbol), stopping at the
        first failure. Rows are visited in an unspecified order, so which
        violation is reported among several is not fixed. */
    static method ValidateConfig(d: Dfa) returns (r: Outcome<ConfigError>)
      ensures r.Pass? <==> Validated(d)
      ensures r.Fail? ==> Violation(d, r.error)
    {
      if d.initialState !in d.states {
        return Fail(InvalidInitialState(d.initialState));
      }
      var finals := d.finalStates;
      while finals != {}
        invariant finals <= d.finalStates
        invariant forall s :: s in d.finalStates && s !in finals ==> s in d.states
        decreases finals
      {
        var s :| s in finals;
        if s !in d.states {
          return Fail(InvalidFinalState(s));
        }
        finals := finals - {s};
      }
      var sources := d.transition.Keys;
      while sources != {}
        invariant sources <= d.transition.Keys
        invariant forall q :: q in d.transition && q !in sources ==> RowKnown(d, d.transition[q])
        decreases sources
      {
        var q :| q in sources;
        var row := d.transition[q];
        var symbols := row.Keys;
        while symbols != {}
          invariant symbols <= row.Keys
          invariant forall a :: a in row && a !in symbols ==> row[a] in d.states && a in d.alphabet
          decreases symbols
        {
          var a :| a in symbols;
          var next := row[a];
          if next !in d.states {
            return Fail(TransitionToInvalidState(next));
          }
          if a !in d.alphabet {
            return Fail(InvalidSymbolInTransition(a));
          }
          symbols := symbols - {a};
        }
        sources := sources - {q};
      }
      assert TargetsKnown(d) && SymbolsKnown(d);
      return Pass;
    }

    /** Every entry of `row` has a known target and a symbol of the alphabet. */
    static predicate RowKnown(d: Dfa, row: map<Symbol, State>) {
      forall a :: a in row ==> row[a] in d.states && a in d.alphabet
    }

    /** Puts the cursor back on the initial state, whatever it was. */
    method Reset()
      requires Valid()
      modifies this
      ensures Valid()
      ensures currentState == initialState
    {
      currentState := initialState;
    }

    /** Advances the cursor by one symbol; on failure the cursor stays put. */
    method Consume(symbol: Symbol) returns (r: Outcome<StepError>)
      requires Valid()
      modifies this
      ensures match Step(Definition(), old(currentState), symbol)
              case Ok(next) => r == Pass && currentState == next
              case Err(e) => r == Fail(e) && currentState == old(currentState)
      ensures Valid()
    {
      if symbol !in alphabet {
        return Fail(SymbolNotInAlphabet(symbol));
      }
      if currentState !in transition {
        return Fail(NoTransitionsForState(currentState));
      }
      var row := transition[currentState];
      if symbol !in row {
        return Fail(NoTransitionForSymbol(symbol, currentState));
      }
      currentState := row[symbol];
      return Pass;
    }

    /** Resets, then consumes the input left to right, stopping at the first
        failure. The result depends only on the configuration and the input.
        On failure the cursor rests where the failing step was attempted. */
    method Run(input: seq<Symbol>) returns (r: Result<State, StepError>)
      requires Valid()
      modifies this
      ensures r == RunFrom(Definition(), initialState, input)
      ensures r.Ok? ==> currentState == r.value
      ensures r.Err? ==> (exists k :: 0 <= k < |input| &&
                           RunFrom(Definition(), initialState, input[..k]) == Ok(currentState) &&
                           Step(Definition(), currentState, input[k]) == Err(r.error))
      ensures Valid()
    {
      Reset();
      var i := 0;
      while i < |input|
        invariant 0 <= i <= |input|
        invariant RunFrom(Definition(), initialState, input[..i]) == Ok(currentState)
        invariant Valid()
      {
        var o := Consume(input[i]);
        RunFromSnoc(Definition(), initialState, input[..i], input[i]);
        assert input[..i + 1] == input[..i] + [input[i]];
        if o.Fail? {
          RunFromAppend(Definition(), initialState, input[..i + 1], input[i + 1..]);
          assert input[..i + 1] + input[i + 1..] == input;
          return Err(o.error);
        }
        i := i + 1;
      }
      assert input[..i] == input;
      return Ok(currentState);
    }

    /** The lighter step: only the alphabet is checked. The entry for the
        cursor and the symbol must exist when the symbol is in the alphabet;
        then the effect is that of Consume. */
    method ProcessBit(symbol: Symbol) returns (r: Outcome<StepError>)
      requires Valid()
      requires symbol in alphabet ==> currentState in transition && symbol in transition[currentState]
      modifies this
      ensures symbol !in alphabet ==> r == Fail(InvalidSymbol(symbol)) && currentState == old(currentState)
      ensures symbol in alphabet ==> r == Pass && Step(Definition(), old(currentState), symbol) == Ok(currentState)
      ensures Valid()
    {
      if symbol !in alphabet {
        return Fail(InvalidSymbol(symbol));
      }
      currentState := transition[currentState][symbol];
      return Pass;
    }

    /** Whether the cursor is on an accepting state. */
    function IsAccepted(): (accepted: bool)
      reads this
      ensures accepted <==> currentState in finalStates
    {
      currentState in finalStates
    }

    /** The cursor; on a valid machine always a known state. */
    function GetCurrentState(): (s: State)
      reads this
      ensures s == currentState
      ensures Valid() ==> s in states
    {
      currentState
    }
  }
}
