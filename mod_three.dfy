/** The modulo-three classifier: a fixed three-state automaton over the
    symbols "0" and "1" whose state after reading a binary numeral, most
    significant bit first, is the numeral's value modulo three. */
module ModThree {
  import opened Automaton
  import opened Engine

  /** The hard-coded configuration: state Si stands for remainder i, every
      state accepts, and reading bit b from Si leads to S((2i + b) mod 3). */
  const ModThreeConfig: Config := Config(
    ["S0", "S1", "S2"],
    ["0", "1"],
    "S0",
    ["S0", "S1", "S2"],
    map[
      "S0" := map["0" := "S0", "1" := "S1"],
      "S1" := map["0" := "S2", "1" := "S0"],
      "S2" := map["0" := "S1", "1" := "S2"]
    ])

  /** The remainder each state stands for. */
  const StateToRemainder: map<State, int> := map["S0" := 0, "S1" := 1, "S2" := 2]

  /** The configuration as the engine stores it. */
  const ModThreeDfa: Dfa := FromConfig(ModThreeConfig)

  datatype ModThreeError = NotBinaryString

  /** The input check: every character is '0' or '1' (the empty string passes). */
  predicate IsBinary(s: string) {
    forall i :: 0 <= i < |s| ==> s[i] == '0' || s[i] == '1'
  }

  function Bit(c: char): (b: nat) {
    if c == '1' then 1 else 0
  }

  /** The value of a binary numeral, most significant bit first; "" is 0. */
  function Value(s: string): (v: nat) {
    if s == [] then 0 else 2 * Value(s[..|s| - 1]) + Bit(s[|s| - 1])
  }

  /** Splitting a string into its one-character strings. */
  function Split(s: string): (xs: seq<Symbol>)
    ensures |xs| == |s| && forall i :: 0 <= i < |xs| ==> |xs[i]| == 1
  {
    seq(|s|, i requires 0 <= i < |s| => [s[i]])
  }

  /** Gluing strings back together, left to right. */
  function Join(xs: seq<Symbol>): (s: string)
    decreases |xs|
  {
    if xs == [] then [] else xs[0] + Join(xs[1..])
  }

  /** Splitting loses nothing: joining the pieces gives back the input. */
  lemma {:induction false} SplitJoin(s: string)
    ensures Join(Split(s)) == s
    decreases |s|
  {
    if s != [] {
      assert Split(s)[0] == [s[0]];
      assert Split(s)[1..] == Split(s[1..]);
      SplitJoin(s[1..]);
      assert [s[0]] + s[1..] == s;
    }
  }

  /** The hard-coded configuration passes the engine's validation. */
  lemma ConfigPassesValidation()
    ensures Validated(ModThreeDfa)
  {
  }

  /** Every state has an entry for every symbol: no binary input can make a
      run fail, however long. */
  lemma TableIsTotal()
    ensures Total(ModThreeDfa)
  {
  }

  /** Reading character c from state q of remainder i leads to the state of
      remainder (2i + b) mod 3, where b is the bit c stands for. */
  ghost predicate StepDoublesAndAdds(d: Dfa, q: State, c: char)
    requires q in StateToRemainder
  {
    var r := Step(d, q, [c]);
    r.Ok? && r.value in StateToRemainder &&
    StateToRemainder[r.value] == (2 * StateToRemainder[q] + Bit(c)) % 3
  }

  /** Every transition from a remainder state on a bit doubles and adds. */
  ghost predicate DoublesAndAdds(d: Dfa) {
    forall q, c :: q in StateToRemainder && (c == '0' || c == '1') ==> StepDoublesAndAdds(d, q, c)
  }

  /** Each transition Si -b-> Sj of the fixed table satisfies j == (2i + b) mod 3. */
  lemma TransitionDoublesAndAdds()
    ensures DoublesAndAdds(ModThreeDfa)
  {
    forall q, c | q in StateToRemainder && (c == '0' || c == '1')
      ensures StepDoublesAndAdds(ModThreeDfa, q, c)
    {
      assert "0" in ModThreeDfa.alphabet && "1" in ModThreeDfa.alphabet;
    }
  }

  /** Appending bit b to a numeral of value v gives 2v + b, so the new
      remainder depends only on the old remainder and b. */
  lemma RemainderOfAppend(v: nat, b: nat)
    ensures (2 * v + b) % 3 == (2 * (v % 3) + b) % 3
  {
  }

  lemma SplitSnoc(s: string)
    requires s != []
    ensures Split(s) == Split(s[..|s| - 1]) + [[s[|s| - 1]]]
  {
  }

  /** On any table that doubles and adds, reading a binary string from S0
      succeeds and ends in the state whose remainder is the string's value
      modulo three. */
  lemma {:induction false} RunTracksRemainder(d: Dfa, s: string)
    requires DoublesAndAdds(d) && IsBinary(s)
    ensures RunFrom(d, "S0", Split(s)).Ok?
    ensures var q := RunFrom(d, "S0", Split(s)).value;
              q in StateToRemainder && StateToRemainder[q] == Value(s) % 3
    decreases |s|
  {
    if s == [] {
      assert StateToRemainder["S0"] == 0;
    } else {
      var n := |s| - 1;
      var init := s[..n];
      assert IsBinary(init) by {
        forall i | 0 <= i < |init| ensures init[i] == '0' || init[i] == '1' {
          assert init[i] == s[i];
        }
      }
      RunTracksRemainder(d, init);
      SplitSnoc(s);
      RunFromSnoc(d, "S0", Split(init), [s[n]]);
      var q := RunFrom(d, "S0", Split(init)).value;
      assert s[n] == '0' || s[n] == '1';
      assert StepDoublesAndAdds(d, q, s[n]);
      RemainderOfAppend(Value(init), Bit(s[n]));
    }
  }

  /** Reading a binary string with the fixed table from S0 always succeeds
      and ends in the state whose remainder is the string's value modulo three. */
  lemma RunComputesRemainder(s: string)
    requires IsBinary(s)
    ensures RunFrom(ModThreeDfa, "S0", Split(s)).Ok?
    ensures var q := RunFrom(ModThreeDfa, "S0", Split(s)).value;
              q in StateToRemainder && StateToRemainder[q] == Value(s) % 3
  {
    TransitionDoublesAndAdds();
    RunTracksRemainder(ModThreeDfa, s);
  }

  /** The input check and the engine agree: a string is binary exactly when
      the engine can run its characters from S0 to the end without error. So
      the check rejects precisely the inputs the engine would reject. */
  lemma BinaryIffRunSucceeds(s: string)
    ensures IsBinary(s) <==> RunFrom(ModThreeDfa, "S0", Split(s)).Ok?
  {
    if IsBinary(s) {
      RunComputesRemainder(s);
    } else {
      var i :| 0 <= i < |s| && s[i] != '0' && s[i] != '1';
      var xs := Split(s);
      assert xs[i] == [s[i]];
      assert xs[i] !in ModThreeDfa.alphabet by {
        assert xs[i] != "0" && xs[i] != "1" by {
          assert xs[i][0] == s[i];
        }
      }
      if RunFrom(ModThreeDfa, "S0", xs).Ok? {
        RunOkOnlyOnAlphabet(ModThreeDfa, "S0", xs);
      }
    }
  }

  /** The classifier: owns one engine built from the fixed configuration. */
  class ModThreeFSM {
    const fsm: FiniteStateMachine

    ghost predicate Valid()
      reads this, fsm
    {
      fsm.Valid() && fsm.Definition() == ModThreeDfa
    }

    constructor ()
      ensures Valid() && fresh(fsm)
    {
      var built := FiniteStateMachine.Create(ModThreeConfig);
      ConfigPassesValidation();
      fsm := built.value;
    }

    /** Rejects any input with a character other than '0' or '1'; otherwise
        runs the engine on the characters of the input and reports the
        remainder of the final state. Each call resets the engine, so the
        result does not depend on earlier calls. */
    method ModThree(input: string) returns (r: Result<int, ModThreeError>)
      requires Valid()
      modifies fsm
      ensures Valid()
      ensures r == if IsBinary(input) then Ok(Value(input) % 3) else Err(NotBinaryString)
      ensures r.Ok? ==> 0 <= r.value <= 2
      ensures IsBinary(input) ==> fsm.currentState in StateToRemainder && StateToRemainder[fsm.currentState] == r.value
      ensures !IsBinary(input) ==> fsm.currentState == old(fsm.currentState)
    {
      if !IsBinary(input) {
        return Err(NotBinaryString);
      }
      var finalState := fsm.Run(Split(input));
      RunComputesRemainder(input);
      return Ok(StateToRemainder[finalState.value]);
    }
  }

  /** The values of the numerals used in the examples below. */
  lemma ExampleValues()
    ensures Value("1101") == 13 && Value("1110") == 14 && Value("1111") == 15
    ensures Value("1010") == 10 && Value("1001") == 9 && Value("111") == 7
    ensures Value("10") == 2 && Value("1") == 1 && Value("0") == 0 && Value("") == 0
  {
    assert "1101"[..3] == "110" && "110"[..2] == "11" && "11"[..1] == "1";
    assert "1110"[..3] == "111" && "111"[..2] == "11";
    assert "1111"[..3] == "111";
    assert "1010"[..3] == "101" && "101"[..2] == "10" && "10"[..1] == "1";
    assert "1001"[..3] == "100" && "100"[..2] == "10";
    assert "1"[..0] == "" && "0"[..0] == "";
  }

  /** The classifier's documented results for binary numerals, all on one
      instance. */
  method BasicExamples() returns (results: seq<Result<int, ModThreeError>>)
    ensures results == [Ok(1), Ok(2), Ok(0), Ok(0), Ok(1), Ok(2), Ok(1), Ok(0)]
  {
    ExampleValues();
    var m := new ModThreeFSM();
    var r1 := m.ModThree("1101");
    var r2 := m.ModThree("1110");
    var r3 := m.ModThree("1111");
    var r4 := m.ModThree("0");
    var r5 := m.ModThree("1");
    var r6 := m.ModThree("10");
    var r7 := m.ModThree("1010");
    var r8 := m.ModThree("1001");
    results := [r1, r2, r3, r4, r5, r6, r7, r8];
  }

  /** The edge cases on one instance: a non-binary input is rejected, the
      empty input gives 0, and two calls in a row ("111" then "1") each start
      afresh and both give 1. */
  method EdgeExamples() returns (invalid: Result<int, ModThreeError>, empty: Result<int, ModThreeError>,
                                 first: Result<int, ModThreeError>, second: Result<int, ModThreeError>)
    ensures invalid == Err(NotBinaryString) && empty == Ok(0)
    ensures first == Ok(1) && second == Ok(1)
  {
    ExampleValues();
    assert "10a1"[2] == 'a';
    var m := new ModThreeFSM();
    invalid := m.ModThree("10a1");
    empty := m.ModThree("");
    first := m.ModThree("111");
    second := m.ModThree("1");
  }

  /** A thousand ones are accepted without error. */
  method LongInput() returns (r: Result<int, ModThreeError>)
    ensures r.Ok?
  {
    var m := new ModThreeFSM();
    var ones := seq(1000, _ => '1');
    r := m.ModThree(ones);
  }

  /** The engine inside a fresh classifier, reset and driven bit by bit
      with processBit on "1", "1", "0": it starts on S0 and visits S1, S0, S0. */
  method ProcessBitExample() returns (trace: seq<State>)
    ensures trace == ["S0", "S1", "S0", "S0"]
  {
    TableIsTotal();
    var m := new ModThreeFSM();
    var e := m.fsm;
    e.Reset();
    var s0 := e.GetCurrentState();
    var _ := e.ProcessBit("1");
    var s1 := e.GetCurrentState();
    var _ := e.ProcessBit("1");
    var s2 := e.GetCurrentState();
    var _ := e.ProcessBit("0");
    var s3 := e.GetCurrentState();
    trace := [s0, s1, s2, s3];
  }

  /** On another fresh engine, processBit on "1", "0" visits S1, S2. */
  method ProcessBitExample2() returns (trace: seq<State>)
    ensures trace == ["S1", "S2"]
  {
    TableIsTotal();
    var m := new ModThreeFSM();
    var e := m.fsm;
    e.Reset();
    var _ := e.ProcessBit("1");
    var t1 := e.GetCurrentState();
    var _ := e.ProcessBit("0");
    var t2 := e.GetCurrentState();
    trace := [t1, t2];
  }

  /** Run on "1", "0", "1" ends in S2. */
  method RunExample() returns (ran: Result<State, StepError>)
    ensures ran == Ok("S2")
  {
    var m := new ModThreeFSM();
    ran := m.fsm.Run(["1", "0", "1"]);
  }
}
