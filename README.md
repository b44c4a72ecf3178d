# Warning registry and profile form, modelled in Dafny

This project models the two stateful pieces of a collection of UI-testing
examples.

**The per-test warning registry** (`posts/preventing_warnings_in_tests/src/testUtils.js`).
A module-level table `testRegisters` maps a test id to the ordered list of
the messages passed to `registerWarning` while that id was current. The environment variable
`TEST_ID` names the test that is running now. `registerTest` gives a fresh
uuid an empty log and makes it current. `registerWarning` appends a message
to the current log when `TEST_ID` is set, non-empty and has an entry.
`cleanUpTest` throws when the current log is non-empty.
`wrappers.dfy` holds the `Option` and `Outcome` datatypes.
`test_utils.dfy` holds two modules:
- `TestRegisters` states the operations on a `Registry` value and proves the
  harness properties: isolation between tests, and a table that only grows.
- `TestUtils.WarningRegistry` is the stateful object, a class with a `map`
  field. Each of its methods is proved equal to the matching function.

**The edit/save toggle of the profile form** (`posts/javascript_testing/src/components/UserProfile.jsx`).
The component holds `isEditing` and a draft `newUser`, seeded once from the
`user` prop. The two input handlers edit one field of the draft. The button
handler flips the mode. It calls `onSaveUser(newUser)` only when the mode
*before* the click was editing, because a React state update is not visible
until the next render. `user_profile.dfy` models the handlers as methods of
the class `UserProfileForm.UserProfile`. A ghost field `saved` records the
callback's arguments. The render is the pure function `Render(user, isEditing)`.
The draft is not one of its inputs.

Modelling choices:
- `uuid()` is an oracle. `RegisterTest` receives its result as an argument,
  and its precondition says what the generator guarantees: the id is a
  well-formed uuid that is not yet a key (`IsFreshId`).
- `TEST_ID` is an `Option<string>`. The constructor takes whatever value the
  environment already holds.
- JavaScript truthiness is written out. An unset or empty `TEST_ID` is
  falsy. A log entry is an array, so it is always truthy.
- `cleanUpTest` reads `testRegisters[TEST_ID].length` without checking that
  the entry exists. With `TEST_ID` unset, the lookup uses the property name
  `"undefined"`. A missing entry is the `TypeError` path, modelled as
  `Fail(MissingRegister)`. The thrown "disallowed output" error is
  `Fail(DisallowedOutput)`.
- `onSaveUser` is an out-parameter of `HandleButtonClick`: `Some(draft)` when
  it was called, `None` otherwise.

## Model

| member | source | states |
|---|---|---|
| `TestRegisters.RegisterTest` | posts/preventing_warnings_in_tests/src/testUtils.js:6-12 | for a fresh uuid: it becomes the current id and is registered, its log is empty, the key set grows by exactly that id, every earlier log is unchanged, and all keys stay uuids |
| `TestRegisters.RegisterWarning` | posts/preventing_warnings_in_tests/src/testUtils.js:15-21 | with a registered current id, that id's log becomes the old log followed by the message; every other log, the key set and the current id are unchanged; with no registered current id, nothing changes |
| `TestRegisters.CleanUpTest` | posts/preventing_warnings_in_tests/src/testUtils.js:23-28 | when all keys are uuids, the missing-entry error occurs exactly when the current id is not registered; for a registered id it fails with disallowed output exactly when the log is non-empty, and passes exactly when the log is empty |
| `TestRegisters.RegisterWarnings` | posts/preventing_warnings_in_tests/src/testUtils.js:15-21 | a sequence of warnings never changes the current id or the set of keys, and it keeps every key a uuid |
| `TestRegisters.RegisterWarningsAppends` | posts/preventing_warnings_in_tests/src/testUtils.js:16-19 | with a registered current id, a sequence of warnings appends them all, in order, to that id's log and touches nothing else |
| `TestRegisters.RegisterWarningsUnregistered` | posts/preventing_warnings_in_tests/src/testUtils.js:18 | with no registered current id, any sequence of warnings leaves the registry unchanged |
| `TestRegisters.Isolation` | posts/preventing_warnings_in_tests/src/testUtils.js:9-10 | for any registry and a fresh id: after registerTest and any warnings, the new current log is exactly those warnings and holds nothing logged before; cleanUpTest passes exactly when there were none and otherwise fails with disallowed output; earlier logs are untouched |
| `TestRegisters.RunTest` | posts/preventing_warnings_in_tests/src/testUtils.js:6-21 | one test (register, then log) adds exactly its own id to the keys, makes it current, leaves its log equal to exactly the messages it logged, keeps every earlier log, and keeps every key a uuid |
| `TestRegisters.RunTestsKeepsOldLogs` | posts/preventing_warnings_in_tests/src/testUtils.js:9 | a run of sequential tests with fresh, distinct ids leaves every log that existed before unchanged |
| `TestRegisters.RunTestsLogs` | posts/preventing_warnings_in_tests/src/testUtils.js:9-19 | after a run of sequential tests, each test's log holds exactly the messages logged during that test |
| `TestRegisters.RunTestsCurrentId` | posts/preventing_warnings_in_tests/src/testUtils.js:10 | after a non-empty run of sequential tests, the current id is the last test's |
| `TestRegisters.RunOnlyGrows` | posts/preventing_warnings_in_tests/src/testUtils.js:9 | under any interleaving of registrations with fresh ids and warnings, no id loses its entry and every old log stays a prefix of the new one |
| `TestUtils.WarningRegistry.constructor` | posts/preventing_warnings_in_tests/src/testUtils.js:4 | the table starts empty and `TEST_ID` is whatever the environment holds |
| `TestUtils.WarningRegistry.RegisterTest` | posts/preventing_warnings_in_tests/src/testUtils.js:6-12 | updates the table and `TEST_ID` in place, exactly as `TestRegisters.RegisterTest`, and keeps every key a uuid |
| `TestUtils.WarningRegistry.RegisterWarning` | posts/preventing_warnings_in_tests/src/testUtils.js:15-21 | updates the table in place, exactly as `TestRegisters.RegisterWarning` |
| `TestUtils.WarningRegistry.CleanUpTest` | posts/preventing_warnings_in_tests/src/testUtils.js:23-28 | returns the outcome `TestRegisters.CleanUpTest` gives for the current state, and changes neither the table nor `TEST_ID` |
| `UserProfileForm.ChangeName` | posts/javascript_testing/src/components/UserProfile.jsx:21-26 | the draft's name becomes the typed value; the draft's email and the mode are unchanged |
| `UserProfileForm.ChangeEmail` | posts/javascript_testing/src/components/UserProfile.jsx:28-33 | the draft's email becomes the typed value; the draft's name and the mode are unchanged |
| `UserProfileForm.ClickButton` | posts/javascript_testing/src/components/UserProfile.jsx:35-40 | the mode is negated and the draft is kept; `onSaveUser` is called exactly when the mode before the click was editing, and then with the current draft |
| `UserProfileForm.Render` | posts/javascript_testing/src/components/UserProfile.jsx:42-66 | in both modes the cells show the prop's name and email, never the draft; the cells are text boxes "Name" and "Contact Email" exactly in edit mode; the label is "Save Changes" exactly when editing and "Edit" exactly when not |
| `UserProfileForm.RunClicks` | posts/javascript_testing/src/components/UserProfile.jsx:35-39 | after any interactions with c clicks, the mode has flipped c times, and `onSaveUser` was called (c + 1) / 2 times from edit mode or c / 2 times from view mode |
| `UserProfileForm.ClicksResaveDraft` | posts/javascript_testing/src/components/UserProfile.jsx:35-39 | the draft is not reset by a save: clicks without typing keep the draft, and every save they cause sends that same draft |
| `UserProfileForm.UserProfile.constructor` | posts/javascript_testing/src/components/UserProfile.jsx:7-9 | on mount the form is not editing, the draft equals the `user` prop, and nothing has been saved |
| `UserProfileForm.UserProfile.ReceiveProps` | posts/javascript_testing/src/components/UserProfile.jsx:4-9 | a new `user` prop replaces the old one; the mode and the draft are unchanged, because the draft is seeded only on mount |
| `UserProfileForm.UserProfile.HandleUserNameChange` | posts/javascript_testing/src/components/UserProfile.jsx:21-26 | changes only the draft, exactly as `ChangeName` |
| `UserProfileForm.UserProfile.HandleUserEmailChange` | posts/javascript_testing/src/components/UserProfile.jsx:28-33 | changes only the draft, exactly as `ChangeEmail` |
| `UserProfileForm.UserProfile.HandleButtonClick` | posts/javascript_testing/src/components/UserProfile.jsx:35-40 | changes the mode exactly as `ClickButton` and returns the callback argument it gives; `saved` grows by that argument if there is one |
| `UserProfileForm.SaveScenario` | posts/javascript_testing/src/components/UserProfile.test.js:10-70 | mounting with Bob shows "Bob", "bob@foo.com" and "Edit"; after a click, text boxes seeded with Bob's values and "Save Changes"; after clearing the name, typing "Robert" key by key and clicking again, the saves are exactly [Robert, bob@foo.com] |

## Left out

- The uuid generator itself: `RegisterTest` takes the generated id as an
  argument, and `IsFreshId` states the generator's guarantee as a precondition.
- JavaScript object semantics beyond a plain map: with `TEST_ID` set to the
  name of an inherited property (such as `constructor`), the real lookup
  finds a non-array value. The model treats the table as a map with no
  inherited properties.
- Console output that never reaches `registerWarning`: the `console.warn`
  wrapper passes all its arguments, but `registerWarning` records only the
  first; the `console.error` wrapper does not call `registerWarning` at all,
  so error output is never recorded in any log. A warning logged after one
  test's cleanup and before the next registration goes into the previous
  test's log, because `TEST_ID` still names that test (`RunOnlyGrows` covers
  such interleavings).
- `setupTests.js`, which wraps `console.warn`/`console.error` and installs the
  `beforeEach`/`afterEach` hooks. It is test-runner and console I/O. The
  sequences of calls it makes are modelled by `RunTests` and `Run`.
- The handlers run in any mode. In the real DOM, the inputs that fire
  `handleUserNameChange`/`handleUserEmailChange` exist only in edit mode.
- React's render cycle and the DOM: the form is plain state plus handlers,
  and the render is a pure function. The text a user types into an
  uncontrolled input is not modelled; only the `onChange` values are.
- `userEvent.type` is modelled as one `onChange` per keystroke, each carrying
  the input's whole value so far.
- All TodoList variants, the fetch service and providers, `App.js` and the
  tests. They are network I/O and framework wiring; the tests serve only as
  evidence for the `SaveScenario` behaviour.
