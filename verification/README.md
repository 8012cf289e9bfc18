# Curly action model and error-behavior policy in Dafny

Curly runs an ordered batch of HTTP "actions" against a server. This project models two parts of it.

1. **The `Action` bean** of the model package (`CurlyModel.Action`). It has a name, a description, a command template and a result type that defaults to HTML. Its `getVariableNames` lists the `${name}` placeholders of the command. The list follows Java's regex `\$\{(.*?)\}` under `Matcher.find`, in order of appearance, with repetitions.
   - `VariablePattern` specifies the matcher as pure functions. `MatchAt` says where the pattern can match. `LazyMatchAt` adds that the reluctant `.*?` picks the nearest `}`. `Find` is the leftmost match from a resume position. `Spans` and `Names` give the whole sequence of matches and group texts.
   - `Action.GetVariableNames` is the source's `while (matches.find())` loop. It is proved equal to `Names`.
2. **The error-behavior run policy** of an action group run (`ErrorBehaviorPolicy`). An action carries an optional override (IGNORE, HALT or SKIP_IF_SUCCESSFUL). The group has a global default (IGNORE or HALT). The outcome of each request is abstracted to a boolean.
   - `Run` folds the actions left to right. It records each outcome and tracks whether any action has succeeded so far. It clears `running` after a failure whose effective behavior is HALT, or SKIP_IF_SUCCESSFUL after an earlier success.
   - `ActionGroupRunnerModel.ActionGroupRunner.Run` is the imperative runner loop over the application state and a runner result. It is proved equal to the fold.
   - `ErrorBehaviorTest` restates the six scenarios of the test suite as methods over these classes.

A Java `null` reference (for a String or an enum value) is modelled as `None` of `Option`. Strings are sequences of `char`, one per Unicode code point, so the scan steps per code point as Java's `.` does. A Java String holding an unpaired surrogate cannot be represented. Java's `.` refuses five line terminators: `\n`, `\r`, U+0085, U+2028 and U+2029.

The runner's own source is not part of this model. Its behavior is taken from the scenarios of `ErrorBehaviorTest.java`. `testHalt` asserts that the application's `running` flag is false after a halt (`ErrorBehaviorTest.java:161`). The model follows the test: a halt verdict clears `ApplicationState.running`, and that flag is the loop guard.

## Model

| member | source | states |
|---|---|---|
| VariablePattern.ClosingBrace | src/main/java/com/adobe/ags/curly/model/Action.java:95 | The reluctant `(.*?)\}` after `${` at position k ends at the first `}` at or after k, provided no line terminator comes first. It fails when a terminator comes before every `}`, or when there is no `}`. |
| VariablePattern.Find | src/main/java/com/adobe/ags/curly/model/Action.java:95-100 | One `find` from a resume position returns a lazy match (`$`, `{`, terminator-free text, nearest `}`) at or after that position. No match starts between the position and the one returned. It returns None exactly when no match starts at or after the position. |
| VariablePattern.Spans | src/main/java/com/adobe/ags/curly/model/Action.java:99-102 | The matches the loop visits are lazy matches in strictly increasing order. Each starts after the previous closing `}`, so they never overlap. There are at most a third as many as there are characters left. |
| VariablePattern.NamesAreGroups | src/main/java/com/adobe/ags/curly/model/Action.java:100-101 | There is one name per visited match, in the same order. Each name is exactly the text between that match's `${` and its `}`. |
| VariablePattern.SpansCoverEveryMatch | src/main/java/com/adobe/ags/curly/model/Action.java:99-102 | No placeholder is missed. Every position where the pattern can match lies inside a visited match. A `${` can go unreported only when an earlier match swallowed it. |
| VariablePattern.NamesAreBraceFree | src/main/java/com/adobe/ags/curly/model/Action.java:95-101 | No returned name contains `}` or a line terminator. |
| VariablePattern.NestedOpeningIsPartOfName | src/main/java/com/adobe/ags/curly/model/Action.java:95-102 | `${a${b}` yields the single name `a${b`. The first `}` closes the match begun at the first `${`. |
| VariablePattern.EmptyPlaceholderNamesEmptyVariable | src/main/java/com/adobe/ags/curly/model/Action.java:95 | `${}` yields the empty name, since `.*?` may match nothing. |
| VariablePattern.RepeatedPlaceholderIsKept | src/main/java/com/adobe/ags/curly/model/Action.java:100-102 | `${a}x${a}` yields `a` twice, in order. Repeated placeholders are not de-duplicated. |
| VariablePattern.LineBreakVoidsMatch | src/main/java/com/adobe/ags/curly/model/Action.java:95 | In `${a`, newline, `}${b}`, the line break voids the first placeholder. Only `b` is returned. |
| VariablePattern.ScanRetriesAfterVoidedMatch | src/main/java/com/adobe/ags/curly/model/Action.java:99-100 | After a voided match the scan retries one character later. In `${a`, newline, `${b}` it still finds `b`. |
| CurlyModel.Action.constructor | src/main/java/com/adobe/ags/curly/model/Action.java:40-46 | A new action has a null name, description and command. Its result type is `html`. |
| CurlyModel.Action.SetResultType | src/main/java/com/adobe/ags/curly/model/Action.java:29-38 | After `setResultType(v)`, `getResultType()` returns `v`. The other fields are unchanged. |
| CurlyModel.Action.SetName | src/main/java/com/adobe/ags/curly/model/Action.java:51-60 | After `setName(v)`, `getName()` returns `v`, and so does `toString()` (lines 90-93). The other fields are unchanged. |
| CurlyModel.Action.SetDescription | src/main/java/com/adobe/ags/curly/model/Action.java:65-74 | After `setDescription(v)`, `getDescription()` returns `v`. The other fields are unchanged. |
| CurlyModel.Action.SetCommand | src/main/java/com/adobe/ags/curly/model/Action.java:79-88 | After `setCommand(v)`, `getCommand()` returns `v`. The other fields are unchanged. |
| CurlyModel.Action.GetVariableNames | src/main/java/com/adobe/ags/curly/model/Action.java:96-105 | The result is empty for a null or empty command. Otherwise it is the names of every match the matcher finds from the start, in order, with repetitions. The method has no modifies clause, so no field of the action changes. |
| ErrorBehaviorPolicy.Run | src/test/java/com/adobe/ags/curly/test/ErrorBehaviorTest.java:96-161 | The recorded outcomes are the outcomes of a prefix of the actions, in order. The success flag says whether a recorded outcome succeeded. A run still going has recorded every action. A halted run ends with a failure. |
| ErrorBehaviorPolicy.HaltedByLastRecorded | src/test/java/com/adobe/ags/curly/test/ErrorBehaviorTest.java:139-161 | A halted run ends with the action whose verdict halted it: the last recorded action failed, and its effective behavior is HALT, or SKIP_IF_SUCCESSFUL after an earlier success. |
| ErrorBehaviorPolicy.HaltIsFinal | src/test/java/com/adobe/ags/curly/test/ErrorBehaviorTest.java:152-161 | Once a run halts, no later action changes its state. |
| ErrorBehaviorPolicy.CompletedIff | src/test/java/com/adobe/ags/curly/test/ErrorBehaviorTest.java:104-161 | `completed` holds if and only if no action draws a halt verdict. A verdict takes the override if present, else the global default. It also takes whether an earlier action succeeded. |
| ErrorBehaviorPolicy.CompletelySuccessfulIff | src/test/java/com/adobe/ags/curly/test/ErrorBehaviorTest.java:96-161 | `completelySuccessful` holds if and only if every action succeeds. Any failing action makes it false, whatever its behavior. |
| ErrorBehaviorPolicy.AllSucceedCompletes | src/test/java/com/adobe/ags/curly/test/ErrorBehaviorTest.java:96-102 | When every action succeeds, the run is both completed and completely successful, under any behaviors. |
| ErrorBehaviorPolicy.IgnoredFailuresComplete | src/test/java/com/adobe/ags/curly/test/ErrorBehaviorTest.java:104-124 | Failures whose effective behavior is IGNORE, by global default or by override, never halt the run. |
| ErrorBehaviorPolicy.SkippedFailuresCompleteWithoutSuccess | src/test/java/com/adobe/ags/curly/test/ErrorBehaviorTest.java:126-137 | A run with no success and no HALT among its effective behaviors completes. SKIP_IF_SUCCESSFUL forgives a failure while nothing has succeeded. |
| ErrorBehaviorPolicy.SkippedFailureAfterSuccessHalts | src/test/java/com/adobe/ags/curly/test/ErrorBehaviorTest.java:139-150 | A SKIP_IF_SUCCESSFUL failure after an earlier success means the run does not complete. |
| ActionGroupRunnerModel.ApplicationState.constructor | src/test/java/com/adobe/ags/curly/test/ErrorBehaviorTest.java:79-81 | The application state starts with `running` set and with the given global error behavior. |
| ActionGroupRunnerModel.RunnerResult.constructor | src/test/java/com/adobe/ags/curly/test/ErrorBehaviorTest.java:99-100 | A runner result starts with no recorded outcome and not completed. |
| ActionGroupRunnerModel.RunnerResult.Record | src/test/java/com/adobe/ags/curly/test/ErrorBehaviorTest.java:100 | Recording appends one outcome and leaves `completed` alone. |
| ActionGroupRunnerModel.ActionGroupRunner.constructor | src/test/java/com/adobe/ags/curly/test/ErrorBehaviorTest.java:99 | The runner keeps its name, its actions and the application state. |
| ActionGroupRunnerModel.ActionGroupRunner.Run | src/test/java/com/adobe/ags/curly/test/ErrorBehaviorTest.java:100-161 | The loop leaves a fresh result equal to the policy fold over the actions, under the global behavior read at the start: the same outcomes and the same `completed`. The application's `running` flag ends equal to `completed`, and the global behavior is unchanged. |
| ErrorBehaviorTest.TestHappyPath | src/test/java/com/adobe/ags/curly/test/ErrorBehaviorTest.java:96-102 | Five successful actions give completelySuccessful = true and completed = true. |
| ErrorBehaviorTest.TestGlobalIgnore | src/test/java/com/adobe/ags/curly/test/ErrorBehaviorTest.java:104-111 | Three failures under a global IGNORE give completelySuccessful = false and completed = true. |
| ErrorBehaviorTest.TestActionIgnore | src/test/java/com/adobe/ags/curly/test/ErrorBehaviorTest.java:113-124 | Under a global HALT, two failures overridden to IGNORE give completelySuccessful = false and completed = true. |
| ErrorBehaviorTest.TestActionRequireFailure | src/test/java/com/adobe/ags/curly/test/ErrorBehaviorTest.java:126-137 | Under a global HALT, two SKIP_IF_SUCCESSFUL failures give completelySuccessful = false and completed = true. |
| ErrorBehaviorTest.TestActionRequireFailure2 | src/test/java/com/adobe/ags/curly/test/ErrorBehaviorTest.java:139-150 | Under a global HALT, a success followed by a failure, both SKIP_IF_SUCCESSFUL, gives completelySuccessful = false and completed = false. |
| ErrorBehaviorTest.TestHalt | src/test/java/com/adobe/ags/curly/test/ErrorBehaviorTest.java:152-162 | Under a global HALT, two plain failures give completelySuccessful = false and completed = false, and the application's `running` flag ends false. |

## Left out

- HTTP dispatch, authentication and the test web server. Each action's outcome is an input boolean: `/success` succeeds and `/failure` fails.
- JavaFX observable properties and bindings, `Platform.runLater`, the semaphore sync, and the swallowed `NullPointerException` in `assertResults`. `completed` and `completelySuccessful` are plain booleans read after the run.
- `ActionGroupRunner.Run` requires `running` to be set and the global behavior to be IGNORE or HALT at the start, as the suite's set-up and scenarios arrange. A run that starts with `running` cleared, and cancellation during a run, are not modelled, because no visible code pins them.
- Variable substitution into the command, missing-variable errors, redaction of secure variables, and response summaries or timestamps of action results. None of their code is part of this model. An outcome is recorded as its success flag only.
- The number of recorded outcomes after a halt is not stated as a property of the runner: the suite never asserts it. In the model it follows from `ErrorBehaviorPolicy.Run`.
- `Serializable`, and the counter the suite uses to name its actions.
- The non-policy fields of the actions the suite runs (name, command, result type). They do not affect the verdicts.
- The result-type enum of the action-file package. The suite sets it to `PLAIN`; the model-package enum `ResultType` is modelled instead.
- A Java String holding an unpaired surrogate: a Dafny `char` is a Unicode scalar value, so such a String has no counterpart. For every other String the model steps per code point, as Java's `.` does.
