# MockJS call-interception engine in Dafny

This project models the engine behind the MockJS mocking framework
(`src/Mock.js`). In MockJS, a test replaces a function or the function
members of an object with mocks. The first call to a mock with new arguments
*registers* them as a pattern. `when(...).thenReturn(v)` programs the return
for that pattern. Later calls that match the pattern give back `v` and are
counted. `verify(Acts.times(n), f(args))` then checks the count: reading
`Acts.times(n)` switches to verification mode, the call `f(args)` reports the
stored count instead of counting, and `verify` applies the predicate to it.

The engine's mutable module globals become one immutable record, `Mocking.Engine`:

- `expectations` is the current expectation set.
- `verifying` is the verification flag.
- `pending` is the pair `tempMockData`/`tempMockIndex`.
- `whenTarget` is `WhenWhat.prop`/`returnIndex`.
- `slots` holds one `mockPropData` per mocked callable.
- `saved` is the `andSave` registry.

Every operation is a pure step that returns the next engine together with a
result or the error the source throws. The source never rolls back, so the
engine of a failed step keeps every change made before the throw. An example
is a pattern registered just before the consistency check rejects the call.

Modules:

- `Protocol`: the action codes, the expectation table and the consistency
  check.
- `Values`: the JavaScript values the engine sees. There are the five `Match`
  predicates and one marker object, which the source exports as both
  `Match.everything` and `Match.anyContext`. A `Host` supplies what user code
  would compute.
- `Ledgers`: a `mockPropData` slot has receivers and index-aligned ledgers. A
  ledger has argument patterns, returns, counters and the zero-argument index.
  This module also covers receiver resolution and pattern registration.
- `Matcher`: `checkCallArgs` and a declarative reading of its inner loop.
- `Cardinalities`: the `Acts` predicates `never`, `once`, `times`, `atLeast`
  and `atMost`.
- `Mocking`: the engine record, the replacement function
  (`methodReplacement`), `when`, `thenReturn`/`thenThrow`, `Acts` and
  `verify`.
- `EngineLemmas`: what one intercepted call and the API around it do to the
  counters, returns and protocol state.
- `Factory`: `Mock(obj)`, `Mock.new`, `andSave` and `teardown`.
- `Scenarios`: whole usage sequences from a fresh engine.

The engine invariant is `Mocking.Valid`:

- Every slot has as many ledgers as receivers.
- No receiver appears twice in a slot.
- A ledger's arrays are index-aligned.
- Both pattern pointers are valid.
- The verification flag is set exactly in `AfterActs`.
- In `AfterSetCall`, the pending pattern has just been counted once.

Every step that the model exposes keeps the invariant.

Two consequences of the code that the model keeps:

- The counter of the registering call is taken back by `when()` itself
  (src/Mock.js:212-213), not by `thenReturn`/`thenThrow`.
- A registering call that is not followed by `when()` stays counted as one
  call (src/Mock.js:381).

## Model

| member | source | states |
|---|---|---|
| Protocol.PermitsByColumn | src/Mock.js:46-58 | An action passes the consistency check exactly in the expectation sets whose list contains it: GET_CALL, SET_CALL and ACTS in NORMAL, AFTER_SET_CALL and AFTER_GET_CALL; WHEN only in AFTER_SET_CALL; RETURN only in AFTER_WHEN; CHECK_CALLS only in AFTER_ACTS; VERIFY only in AFTER_CHECK_CALLS |
| Protocol.CyclesAreDeterministic | src/Mock.js:49-51 | In AFTER_WHEN, AFTER_ACTS and AFTER_CHECK_CALLS exactly one action is legal: the single entry of that state's list |
| Protocol.WhenOnlyAfterRegistration | src/Mock.js:47-52 | `when` is legal in AFTER_SET_CALL and in no other expectation set |
| Cardinalities.SatisfiedIffWithin | src/Mock.js:248-291 | Each `Acts` predicate returns normally exactly when the count lies in its interval (never: 0..0, once: 1..1, times(n): n..n, atLeast(n): n.., atMost(n): ..n) and raises otherwise |
| Ledgers.IndexOf | src/Mock.js:321-323 | `indexOf` gives the first position holding the receiver, and nothing exactly when the receiver is absent |
| Ledgers.Locate | src/Mock.js:320-340 | The exact receiver's ledger is used if present, else the any-context ledger, else a new receiver with an empty ledger is appended; the slot stays index-aligned with distinct receivers |
| Ledgers.Register | src/Mock.js:364-389 | An unmatched call appends its arguments, an `undefined` return and its first counter, keeping the arrays aligned; the zero-argument index moves to the new pattern exactly when the call is empty or starts with the marker |
| Matcher.MatchFromIffCovers | src/Mock.js:417-439 | The inner matching loop from position k succeeds exactly when every entry not preceded by a marker has a live argument that it accepts (a predicate entry by calling it, any other by loose equality) |
| Matcher.MatchesIffCovers | src/Mock.js:414-441 | A pattern matches a call exactly when it is non-empty and every entry before the first marker accepts the argument at its position |
| Matcher.ExtraArgumentsIgnored | src/Mock.js:419-439 | Appending live arguments never turns a match into a non-match |
| Matcher.FirstMatch | src/Mock.js:414-442 | The scan returns the lowest-index matching pattern, and nothing only when no pattern matches |
| Matcher.CheckCallArgs | src/Mock.js:406-446 | A zero-argument call is answered by the zero-argument index alone; any other call by the lowest-index matching pattern, or no match when none matches |
| Matcher.EarlierPatternWins | src/Mock.js:414-442 | For a call with at least one argument, of two matching patterns the later one is never chosen (a zero-argument call is answered by the zero-argument index instead, which points at the latest empty or marker-first pattern) |
| Matcher.SelfMatch | src/Mock.js:419-439 | A pattern without predicate entries before its first marker is covered by the very arguments it was made from |
| Matcher.RepeatHitsRegistered | src/Mock.js:364-374 | After an unmatched call registered its arguments, repeating the same call matches exactly the new pattern, provided no function argument comes before the first marker (a function argument is stored as a predicate entry and need not accept itself) |
| Values.Accepts | src/Mock.js:236-240 | No built-in `Match` predicate accepts `null` or `undefined`, and of the built-ins only `Match.anything` accepts an object |
| Mocking.Reply | src/Mock.js:360-362 | A matched call raises exactly when its return was declared with `thenThrow` or is still the placeholder of an unfinished `when()`; a non-function return is given back as it is |
| Mocking.Replay | src/Mock.js:349-363 | A matched call in recording mode: a rejected GET_CALL changes no counter and no state; an accepted one adds exactly one to the matched counter and to no other, enters AFTER_GET_CALL, makes the matched pattern pending and gives back the programmed return (a function's result for a function); no pattern, zero-argument index, programmed return or return target changes |
| Mocking.Report | src/Mock.js:391-401 | A call in verification mode clears the flag and the pending pattern, enters AFTER_CHECK_CALLS and gives back the pending pattern's stored count |
| Mocking.Registered | src/Mock.js:364-389 | Registration appends the pattern with counter 1 (recording) or 0 (verification), makes it pending, keeps the invariant and changes no existing counter |
| Mocking.Enroll | src/Mock.js:364-401 | An unmatched call is registered before the SET_CALL check; if the check passes the state is AFTER_SET_CALL and the call gives back `undefined`, if it fails the state is unchanged and the pattern stays; in verification mode the call reports 0; in every case the new pattern becomes pending (or, in verification mode, the pending pointer is cleared); the return target and saved references are untouched, and the verification flag is kept in recording mode and cleared in verification mode |
| Mocking.Enter | src/Mock.js:320-345 | Resolving the receiver keeps the invariant, only appends, and moves no counter |
| Mocking.Intercept | src/Mock.js:304-403 | Every intercepted call keeps the engine invariant, only ever appends patterns, never touches another mocked callable's slot and leaves the saved references alone |
| Mocking.When | src/Mock.js:205-222 | `when()` succeeds exactly in AFTER_SET_CALL; it then lowers the pending pattern's counter by exactly one, touches no other counter or return, installs the throwing placeholder, makes that pattern the return target, clears the pending pointer and enters AFTER_WHEN; when rejected it changes nothing |
| Mocking.Declare | src/Mock.js:71-80 | `thenReturn`/`thenThrow` succeed exactly in AFTER_WHEN; they overwrite only the return of the `when()` target, change no counter and go back to NORMAL; when rejected they change nothing |
| Mocking.Acts | src/Mock.js:195-200 | Reading an `Acts` predicate succeeds exactly in NORMAL, AFTER_SET_CALL and AFTER_GET_CALL and then sets the verification flag together with AFTER_ACTS; when rejected it changes nothing |
| Mocking.Verify | src/Mock.js:224-231 | `verify` is legal only in AFTER_CHECK_CALLS; the state is back to NORMAL whether or not the predicate raises, and it raises exactly when the cardinality rejects the count |
| EngineLemmas.Target | src/Mock.js:320-348 | The pattern a call matches always belongs to the receiver's ledger and existed before the call |
| EngineLemmas.MatchedRecordingCall | src/Mock.js:349-363 | A matched call in recording mode moves exactly its own counter by one and returns the programmed reply when GET_CALL is legal, and keeps every pattern, programmed return and the return target; when GET_CALL is illegal the engine changes only in its pending pointer |
| EngineLemmas.UnmatchedCall | src/Mock.js:364-389 | An unmatched call appends its pattern to the resolved ledger with counter 1 (recording) or 0 (verification) and changes no existing counter; in recording mode it either enters AFTER_SET_CALL returning `undefined` or raises with the state unchanged, keeping the return target of a pending `when()` in both cases (the verification-mode outcome is stated by `EngineLemmas.VerificationCallUnmatched`) |
| EngineLemmas.VerificationCall | src/Mock.js:391-401 | A call in verification mode reports the matched pattern's stored count (0 for a new one), changes no counter and leaves the flag cleared in AFTER_CHECK_CALLS |
| EngineLemmas.VerificationCallMatched | src/Mock.js:349-353 | A matched call in verification mode reports the stored count and changes only the protocol fields |
| EngineLemmas.VerificationCallUnmatched | src/Mock.js:387-401 | An unmatched call in verification mode appends its pattern with counter 0 to the resolved ledger, changes no counter and reports 0 |
| EngineLemmas.VerificationCycle | src/Mock.js:224-231 | `Acts`, the call to check and `verify` together report the stored count, change no counter and end in NORMAL with the flag cleared; `verify` passes exactly when the cardinality holds of the count |
| EngineLemmas.WhenUncountsRegistration | src/Mock.js:212-213 | After `when()` the registering call is no longer counted: its counter is 0 and no other counter moved |
| EngineLemmas.SecondDeclareRaises | src/Mock.js:71-80 | A second `thenReturn`/`thenThrow` without a new `when()` always raises |
| EngineLemmas.WhenThenDeclare | src/Mock.js:205-222 | `when()` followed by `thenReturn`/`thenThrow` programs the pattern the registering call created, leaves its counter at 0 and returns to NORMAL |
| Factory.MockMembers | src/Mock.js:103-122 | An object's mock has exactly its function members, each with its own fresh slot, distinct members never sharing a slot; existing slots are untouched |
| Factory.Mock | src/Mock.js:95-126 | A function gets one fresh slot; an object (including the marker, which has no own properties) gets one fresh slot per function member; anything else raises and changes nothing; the engine invariant is kept |
| Factory.MockNew | src/Mock.js:171-177 | `Mock.new(names)` gives a mock with exactly one fresh slot per distinct name; the engine invariant is kept |
| Factory.AndSave | src/Mock.js:180-184 | The object is recorded under the name before mocking, so the record is made even when mocking raises; the handle and the new slots are exactly those `Mock(obj)` creates, the protocol state is untouched and the engine invariant is kept |
| Factory.Teardown | src/Mock.js:188-192 | `teardown` gives back the reference saved under the name, or `undefined`, and forgets it |
| Factory.TeardownIsOneShot | src/Mock.js:180-192 | Saving then tearing down gives back the saved reference, and a second teardown gives back `undefined` |
| Factory.FreshSlotsKeepValid | src/Mock.js:85-89 | Adding empty slots keeps the engine invariant and every counter |
| Scenarios.FirstCallRegisters | src/Mock.js:364-386 | The first call on a fresh mock gives back `undefined`, registers its arguments counted once and enters AFTER_SET_CALL |
| Scenarios.ProgramReturn | src/Mock.js:205-222 | `when().thenReturn(v)` right after it programs `v` and takes the registering call out of the count |
| Scenarios.RepeatCall | src/Mock.js:349-363 | A call matching a programmed pattern gives back its value and counts once more |
| Scenarios.MissRegisters | src/Mock.js:364-386 | A call matching no pattern becomes a second pattern and gives back `undefined` |
| Scenarios.CheckCount | src/Mock.js:391-401 | `Acts`, the verification call and `verify` report the stored count |
| Scenarios.RegisterThenProgram | src/Mock.js:205-222 | Registering, then `when().thenReturn(v)`, leaves a programmed, uncounted pattern in NORMAL |
| Scenarios.CallThenVerify | src/Mock.js:224-231 | One matching call followed by `Acts.once` and its verification reports 1 and passes |
| Scenarios.ProgramThenVerify | src/Mock.js:304-403 | The basic usage sequence: the registering call gives `undefined`, a later matching call gives the programmed value, and `verify(Acts.once, f(args))` passes because the registration is not counted |
| Scenarios.AnyIntPattern | src/Mock.js:428-435 | A `Match.anyInt` entry accepts any number, and a plain entry needs a loosely equal argument |
| Scenarios.HitThenMiss | src/Mock.js:406-446 | Against `(Match.anyInt, x)`, `(n, x)` gets the programmed value and `(n, y)` becomes a second pattern |
| Scenarios.NeverCalledMember | src/Mock.js:99-122 | A member of a mocked object that was never called verifies as `Acts.never` |
| Scenarios.PredicatePattern | src/Mock.js:406-446 | The pattern `(Match.anyInt, x)` is hit by `(n, x)` for every number `n`, and `(n, y)` with `y` not loosely equal to `x` registers a second pattern |
| Scenarios.MisuseIsRejected | src/Mock.js:60-64 | `when()` and `verify` on a fresh engine raise the protocol error |

`ThenReturn` and `ThenThrow` are `Declare` with a value return and a
throwing return, so their contracts are those of `Mocking.Declare`.

## Left out

- `Mock.hookTo` and `exportTo` (src/Mock.js:143-168, 203-301) and the automatic hook at src/Mock.js:93 and 453: they install the API as properties of `window` or of a test framework's globals. The model treats the API closures as plain operations.
- `isStrict` and the `this == window` test (src/Mock.js:12, 314-318): a call without a receiver is the single key `NoContext`.
- `Mock.isMock` (src/Mock.js:131-133): it depends on the prototype chain of the objects `Object.create` builds, which the model does not represent.
- Loose equality is modelled as structural equality plus `null == undefined`. JavaScript's other coercions, such as `1 == "1"`, are left out.
- Numbers are integers of magnitude below 2^53, so `Match.anyInt` and `Match.anyNumber` accept the same values. The `parseInt` test is left out: it rejects fractional numbers and also integers of magnitude 1e21 or more.
- User predicates and user return callbacks are results supplied by `Host`. That they may throw, or change engine state by calling mocks, is left out.
- `verify` takes an `Acts` cardinality and a count. A hand-written verification callback in place of an `Acts` predicate is left out.
- Error messages are left out. An error records which action and expectation set were involved, or which value was thrown.
- The throwing placeholder that `when()` installs is the return `Unassigned`, not a closure.
- Object reflection (`Object.getOwnPropertyNames`, `typeof obj[el]`) is `Host.ownProps`, a map from each own property name to whether it is a function. Inherited properties are not mocked in the source either.
- Factory.AndSave: the `savedObjs` registry is a plain map. The inherited keys of a JavaScript object are left out, as are keys that collide with them.
- Factory.Teardown: for a name that is an inherited key of a JavaScript object, such as `toString`, the source gives back the inherited value rather than `undefined`. The plain map leaves this out.
- Factory.MockNew: the name `__proto__` sets the prototype of the object literal instead of adding an own property, so the source creates no member for it. The model gives every distinct name a member.
- Mocking.Report: its CHECK_CALLS rejection branch is modelled but cannot occur under the engine invariant, so its contract covers only the accepted branch.
- The `el` argument of `methodReplacement` (a member name or the original function) is not used by the replacement function, so it is left out.
- `simple-test-suite/TestSuite.js` is not part of this model. It is a timer-driven test runner with logging.
