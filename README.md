# A verified model of a finite-automaton engine and its modulo-three classifier

This project models two pieces. The first is a generic deterministic finite
automaton engine (`FiniteStateMachine`). The engine is built from a
configuration record: states, alphabet, initial state, final states and a
nested transition table. It validates that configuration eagerly. After that,
it keeps one mutable cursor, `currentState`, which `reset`, `consume`,
`processBit` and `run` move.

The second piece is the classifier built on the engine (`ModThreeFSM`). It
hard-codes a three-state automaton over the symbols "0" and "1" and a
state-to-remainder table. It rejects strings that are not binary. For the
rest it runs the engine and returns the remainder of the final state.

Files:

- `automaton.dfy` (module `Automaton`): the value layer.
  - The configuration record `Config`, and `Dfa`, the form the engine stores
    (lists turned into sets).
  - The construction errors and step errors as datatypes.
  - The validity predicates.
  - `Step`, one step of `consume` with its three distinct failures.
  - `RunFrom`, the left-to-right fold of `Step`.
  - Lemmas about these functions.
- `engine.dfy` (module `Engine`): the class `FiniteStateMachine`.
  - The five configuration fields are `const`, since they are never
    reassigned after construction. `currentState` is the one `var`.
  - `Consume`, `ProcessBit` and `Run` are proved against `Step` and
    `RunFrom`. `ValidateConfig` and `Create` are proved against `Validated`
    and `Violation`.
  - `Valid()` is the object invariant: the configuration passed validation
    and the cursor is a known state.
- `mod_three.dfy` (module `ModThree`): the fixed configuration, the remainder
  table, the binary-string check and the class `ModThreeFSM`, which owns an
  engine. The main theorem is that the classifier returns the binary value
  of its input modulo three.

Construction is split into three members, because a Dafny constructor cannot
fail:

- `ValidateConfig` runs the nested validation loops over the stored form of
  a record.
- The constructor copies a record that passes validation. It establishes
  `Valid()`, which every other method requires and preserves.
- `Create` validates first and calls the constructor only on success, so it
  returns either a valid machine or the first construction error. No
  unvalidated machine ever exists.

The message at `src/fsm/FiniteStateMachine.ts:61` says "No transitions defined
for state", but the test at line 59 only checks that the row exists. An empty
row `{}` is truthy, so it reaches the missing-symbol error at lines 67-70. The
model follows the code: see `Automaton.EmptyRowReportsMissingSymbol`.

## Model

| member | source | states |
|---|---|---|
| `Automaton.FromConfig` | src/fsm/FiniteStateMachine.ts:15-20 | The stored configuration has exactly the labels of the record's lists (as sets), the same initial state and the same transition table. |
| `Automaton.Step` | src/fsm/FiniteStateMachine.ts:52-73 | A step fails with the unknown-symbol error iff the symbol is not in the alphabet. It fails with the no-transitions error iff the symbol is known and the state has no row. It fails with the missing-symbol error iff the row exists but has no entry for the symbol. Otherwise it succeeds with the entry's target, which is a known state whenever all targets are known. |
| `Automaton.RunFrom` | src/fsm/FiniteStateMachine.ts:76-82 | Running the empty input leaves the state as it is. A successful run from a known state, on a table whose targets are all known, ends in a known state. |
| `Automaton.RunFromAppend` | src/fsm/FiniteStateMachine.ts:78-80 | Running `xs + ys` is running `xs`, then `ys` from where `xs` ended. A failure inside `xs` is the failure of the whole run. |
| `Automaton.RunFromSnoc` | src/fsm/FiniteStateMachine.ts:77-80 | Bulk equals incremental: running `xs + [a]` is running `xs`, then one `consume` step on `a`. |
| `Automaton.RunFromStopsAtFirstFailure` | src/fsm/FiniteStateMachine.ts:78-80 | A failing run has a position `k` where the prefix before `k` runs cleanly and the step on `xs[k]` raises exactly the run's error. |
| `Automaton.RunFromIgnoresRest` | src/fsm/FiniteStateMachine.ts:78-80 | Symbols after the first failure are never processed: appending more input to a failing run does not change its result. |
| `Automaton.RunOkOnlyOnAlphabet` | src/fsm/FiniteStateMachine.ts:52-55 | Every symbol of a successful run is in the alphabet: no run gets past a symbol outside it. |
| `Automaton.TotalRunNeverFails` | src/fsm/FiniteStateMachine.ts:52-82 | On a table that is total over states × alphabet and whose targets are known, a run from a known state over alphabet symbols never fails. |
| `Automaton.ValidationIgnoresSourceStates` | src/fsm/FiniteStateMachine.ts:35-45 | Validation never checks row keys. Adding a row under any label, known state or not, keeps a valid configuration valid, provided the row's own symbols and targets are known. |
| `Automaton.EmptyRowReportsMissingSymbol` | src/fsm/FiniteStateMachine.ts:57-71 | A state whose row exists but is empty fails with the missing-symbol error, not the no-transitions error. |
| `Engine.FiniteStateMachine.constructor` | src/fsm/FiniteStateMachine.ts:15-21 | Given a record that passes validation, the new machine stores the record's configuration, its cursor is the initial state, and it is valid. |
| `Engine.FiniteStateMachine.Create` | src/fsm/FiniteStateMachine.ts:15-24 | Construction succeeds iff the configuration is valid. On success the machine is fresh and valid and its cursor is the initial state. On failure the error is a genuine violation, reported with priority initial state > final states > transition entries. |
| `Engine.FiniteStateMachine.ValidateConfig` | src/fsm/FiniteStateMachine.ts:26-46 | For any stored configuration, validation passes iff the initial state is known, every final state is known, every transition target is known and every transition symbol is in the alphabet. When it fails, the reported label really violates the check named, every earlier check passed, and within one entry the target is checked before the symbol. |
| `Engine.FiniteStateMachine.Reset` | src/fsm/FiniteStateMachine.ts:48-50 | The cursor becomes the initial state whatever it was, so repeated resets change nothing further. Nothing else changes, and the machine stays valid. |
| `Engine.FiniteStateMachine.Consume` | src/fsm/FiniteStateMachine.ts:52-74 | When `Step` succeeds, the cursor moves to the target and the result is `Pass`. When `Step` fails, that error is returned and the cursor is unchanged. The machine stays valid, so the cursor stays a known state. |
| `Engine.FiniteStateMachine.Run` | src/fsm/FiniteStateMachine.ts:76-82 | The result is `RunFrom` from the initial state over the input, whatever the earlier cursor was. On success the cursor is the result. On failure the cursor rests on the state where the failing step was tried, after a cleanly run prefix. The loop is reset followed by `Consume` on each symbol, and the machine stays valid. |
| `Engine.FiniteStateMachine.ProcessBit` | src/fsm/FiniteStateMachine.ts:83-88 | A symbol outside the alphabet fails with the invalid-symbol error and the cursor is unchanged. Otherwise the cursor moves exactly as a successful `Consume` would. The machine stays valid. |
| `Engine.FiniteStateMachine.IsAccepted` | src/fsm/FiniteStateMachine.ts:90-92 | True iff the cursor is a final state. It reads the machine and changes nothing. |
| `Engine.FiniteStateMachine.GetCurrentState` | src/fsm/FiniteStateMachine.ts:94-96 | Returns the cursor, which on a valid machine is a known state. |
| `ModThree.ConfigPassesValidation` | src/fsm/ModThreeFSM.ts.ts:4-14 | The hard-coded configuration passes the engine's validation. |
| `ModThree.TableIsTotal` | src/fsm/ModThreeFSM.ts.ts:9-13 | Every one of S0, S1, S2 has an entry for both "0" and "1". |
| `ModThree.TransitionDoublesAndAdds` | src/fsm/ModThreeFSM.ts.ts:10-12 | Every transition Si -b→ Sj satisfies j = (2i + b) mod 3, with i and j read through the state-to-remainder table. |
| `ModThree.RunTracksRemainder` | src/fsm/ModThreeFSM.ts.ts:16-20 | On any table that doubles and adds, a run from S0 over a binary string succeeds and ends in the state whose remainder is the string's value mod 3. |
| `ModThree.RunComputesRemainder` | src/fsm/ModThreeFSM.ts.ts:29-36 | With the fixed table, a run from S0 over any binary string succeeds and ends in the state whose remainder is the string's binary value mod 3. |
| `ModThree.Split` | src/fsm/ModThreeFSM.ts.ts:34 | The input becomes as many pieces as it has characters, each piece one character long. |
| `ModThree.SplitJoin` | src/fsm/ModThreeFSM.ts.ts:34 | Splitting loses nothing: joining the pieces gives back the input. |
| `ModThree.BinaryIffRunSucceeds` | src/fsm/ModThreeFSM.ts.ts:30-34 | The binary-string check accepts a string exactly when the engine can run its characters from S0 without error, so the check rejects precisely the inputs the engine would reject. |
| `ModThree.ModThreeFSM.constructor` | src/fsm/ModThreeFSM.ts.ts:25-27 | The classifier owns a fresh, valid engine built from the fixed configuration. |
| `ModThree.ModThreeFSM.ModThree` | src/fsm/ModThreeFSM.ts.ts:29-36 | A non-binary input fails with the binary-string error. Any other input, the empty one included, returns its binary value mod 3, which lies in {0, 1, 2}. The result does not depend on earlier calls, and the engine stays valid. On a binary input the engine's cursor ends on the state standing for the returned remainder; on a rejected input the cursor is untouched. |
| `ModThree.BasicExamples` | tests/ModThreeFSM.test.ts:6-36 | "1101"→1, "1110"→2, "1111"→0, "0"→0, "1"→1, "10"→2, "1010"→1 and "1001"→0. |
| `ModThree.EdgeExamples` | tests/ModThreeFSM.test.ts:42-53 | "10a1" is rejected and "" gives 0. On one instance, "111" and then "1" both give 1. |
| `ModThree.LongInput` | tests/ModThreeFSM.test.ts:55-58 | A string of a thousand ones is accepted without error. |
| `ModThree.ProcessBitExample` | tests/ModThreeFSM.test.ts:72-83 | A reset engine starts on S0, and `processBit` on "1","1","0" visits S1, S0, S0. |
| `ModThree.ProcessBitExample2` | tests/ModThreeFSM.test.ts:85-91 | On a fresh engine, `processBit` on "1","0" visits S1, S2. |
| `ModThree.RunExample` | tests/ModThreeFSM.test.ts:93-96 | `run` on "1","0","1" ends in S2. |

## Left out

- Error messages and JavaScript `Error` objects are not modelled. Each thrown error is a distinct variant of `ConfigError`, `StepError` or `ModThreeError`, carrying the offending label.
- Enumeration order is not modelled. `for...in` over the table and iteration over a `Set` built from an array are replaced by an arbitrary choice. Which error is reported when several checks fail in the same group is therefore unspecified. The model proves that validation fails iff a check fails, and that the reported error is a genuine violation.
- `Engine.FiniteStateMachine.ProcessBit` requires the entry for the cursor and the symbol to exist whenever the symbol is in the alphabet. Without that entry, the source throws a `TypeError` (missing row) or stores `undefined` in the cursor (missing entry); neither is modelled.
- The source stores the caller's transition object itself (`src/fsm/FiniteStateMachine.ts:20`), so a caller that mutates it after construction changes the machine's transitions without validation. The model stores the table as a value, so this aliasing is not captured.
- JavaScript property lookup on plain objects is not modelled: inherited keys such as `toString`, and entries whose value is `undefined`. The transition table is a finite map of finite maps.
- `/^[01]*$/` is modelled as a per-character predicate, not as a regular-expression engine.
- `input.split("")` is modelled as splitting into one-character strings. UTF-16 code units versus code points is not modelled.
- The classifier's remainder is an unbounded integer. JavaScript `number` is not modelled.
- The test harness (`describe`, `test`, `expect`, `beforeEach`) is not modelled. Its scenarios appear as the example methods above.
- Module imports are not modelled. The file name `ModThreeFSM.ts.ts` is irrelevant to behaviour.
- Concurrency is not modelled. The engine is single-threaded and has no suspension points.
