/**
 * The error-behavior scenarios of the runner's test suite, each written as
 * a method that sets up the application state and the actions, runs an
 * ActionGroupRunner and returns what the suite's `assertResults` inspects.
 * The endpoints the actions call are replaced by the outcome they answer
 * with: `/success` succeeds, `/failure` fails.
 */
module ErrorBehaviorTest {
  import opened Wrappers
  import opened ErrorBehaviorPolicy
  import opened ActionGroupRunnerModel

  /** An action whose request succeeds, with no override. */
  function SuccessAction(): RunAction {
    RunAction(None, true)
  }

  /** An action whose request fails, with no override. */
  function FailureAction(): RunAction {
    RunAction(None, false)
  }

  /** `setErrorBehavior` on a test action. */
  function WithErrorBehavior(a: RunAction, b: ErrorBehavior): RunAction {
    a.(errorBehavior := Some(b))
  }

  /** The check `assertResults` makes on a finished run. */
  predicate AssertResults(result: RunnerResult, completelySuccessful: bool, completed: bool)
    reads result
  {
    result.CompletelySuccessful() == completelySuccessful && result.completed == completed
  }

  /** Five successful actions; the global behavior is whatever an earlier test left behind. */
  method TestHappyPath(global: ErrorBehavior) returns (completelySuccessful: bool, completed: bool)
    requires IsGlobalBehavior(global)
    ensures completelySuccessful && completed
  {
    var app := new ApplicationState(global);
    var actions := [SuccessAction(), SuccessAction(), SuccessAction(), SuccessAction(), SuccessAction()];
    var runner := new ActionGroupRunner("Happy Test", actions, app);
    runner.Run();
    AllSucceedCompletes(actions, global);
    assert AssertResults(runner.result, true, true);
    completelySuccessful, completed := runner.result.CompletelySuccessful(), runner.result.completed;
  }

  /** Three failing actions under a global IGNORE. */
  method TestGlobalIgnore() returns (completelySuccessful: bool, completed: bool)
    ensures !completelySuccessful && completed
  {
    var app := new ApplicationState(Ignore);
    var actions := [FailureAction(), FailureAction(), FailureAction()];
    var runner := new ActionGroupRunner("Global Ignore Test", actions, app);
    runner.Run();
    IgnoredFailuresComplete(actions, Ignore);
    CompletelySuccessfulIff(actions, Ignore);
    assert !actions[0].succeeds;
    assert AssertResults(runner.result, false, true);
    completelySuccessful, completed := runner.result.CompletelySuccessful(), runner.result.completed;
  }

  /** Two failing actions overridden to IGNORE under a global HALT: the overrides win. */
  method TestActionIgnore() returns (completelySuccessful: bool, completed: bool)
    ensures !completelySuccessful && completed
  {
    var app := new ApplicationState(Halt);
    var fail1 := WithErrorBehavior(FailureAction(), Ignore);
    var fail2 := WithErrorBehavior(FailureAction(), Ignore);
    var actions := [fail1, fail2];
    var runner := new ActionGroupRunner("Action Ignore Test", actions, app);
    runner.Run();
    IgnoredFailuresComplete(actions, Halt);
    CompletelySuccessfulIff(actions, Halt);
    assert !actions[0].succeeds;
    assert AssertResults(runner.result, false, true);
    completelySuccessful, completed := runner.result.CompletelySuccessful(), runner.result.completed;
  }

  /** Two failing SKIP_IF_SUCCESSFUL actions under a global HALT: nothing succeeded, so both are forgiven. */
  method TestActionRequireFailure() returns (completelySuccessful: bool, completed: bool)
    ensures !completelySuccessful && completed
  {
    var app := new ApplicationState(Halt);
    var fail1 := WithErrorBehavior(FailureAction(), SkipIfSuccessful);
    var fail2 := WithErrorBehavior(FailureAction(), SkipIfSuccessful);
    var actions := [fail1, fail2];
    var runner := new ActionGroupRunner("Action Require Failure Test", actions, app);
    runner.Run();
    SkippedFailuresCompleteWithoutSuccess(actions, Halt);
    CompletelySuccessfulIff(actions, Halt);
    assert !actions[0].succeeds;
    assert AssertResults(runner.result, false, true);
    completelySuccessful, completed := runner.result.CompletelySuccessful(), runner.result.completed;
  }

  /** A success then a failure, both SKIP_IF_SUCCESSFUL, under a global HALT: the failure halts. */
  method TestActionRequireFailure2() returns (completelySuccessful: bool, completed: bool)
    ensures !completelySuccessful && !completed
  {
    var app := new ApplicationState(Halt);
    var fail1 := WithErrorBehavior(SuccessAction(), SkipIfSuccessful);
    var fail2 := WithErrorBehavior(FailureAction(), SkipIfSuccessful);
    var actions := [fail1, fail2];
    var runner := new ActionGroupRunner("Action Require Failure Test", actions, app);
    runner.Run();
    SkippedFailureAfterSuccessHalts(actions, Halt, 0, 1);
    CompletelySuccessfulIff(actions, Halt);
    assert !actions[1].succeeds;
    assert AssertResults(runner.result, false, false);
    completelySuccessful, completed := runner.result.CompletelySuccessful(), runner.result.completed;
  }

  /** Two failing actions under a global HALT: the run halts and clears the application's running flag. */
  method TestHalt() returns (completelySuccessful: bool, completed: bool, running: bool)
    ensures !completelySuccessful && !completed && !running
  {
    var app := new ApplicationState(Halt);
    var actions := [FailureAction(), FailureAction()];
    var runner := new ActionGroupRunner("Action Halt Test", actions, app);
    runner.Run();
    CompletedIff(actions, Halt);
    assert HaltsAt(actions, 0, Halt);
    CompletelySuccessfulIff(actions, Halt);
    assert !actions[0].succeeds;
    assert AssertResults(runner.result, false, false);
    completelySuccessful, completed := runner.result.CompletelySuccessful(), runner.result.completed;
    running := app.running;
  }
}
