/**
 * The error-behavior policy of an action group run, as a pure state machine.
 *
 * Each action carries an optional error-behavior override; the group has a
 * global default (IGNORE or HALT). The outcome of each action's request is
 * abstracted to a boolean. A run visits the actions left to right, records
 * each outcome, remembers whether any action has succeeded so far, and stops
 * (clears `running`) after a failure that its effective behavior treats as
 * fatal.
 */
module ErrorBehaviorPolicy {
  import opened Wrappers

  datatype ErrorBehavior = Ignore | Halt | SkipIfSuccessful

  /** The global default of a group is one of IGNORE and HALT. */
  predicate IsGlobalBehavior(b: ErrorBehavior) {
    b == Ignore || b == Halt
  }

  /** An action as the policy sees it: its override and the outcome its request will have. */
  datatype RunAction = RunAction(errorBehavior: Option<ErrorBehavior>, succeeds: bool)

  /** The behavior applied to an action: its override when set, the global default otherwise. */
  function Effective(errorBehavior: Option<ErrorBehavior>, global: ErrorBehavior): ErrorBehavior {
    match errorBehavior
    case Some(b) => b
    case None => global
  }

  /**
   * The verdict after one outcome: a success never stops the run; a failure
   * stops it under HALT, and under SKIP_IF_SUCCESSFUL only when an earlier
   * action has succeeded.
   */
  function Halts(behavior: ErrorBehavior, succeeded: bool, anySuccessBefore: bool): bool {
    !succeeded && match behavior
      case Ignore => false
      case Halt => true
      case SkipIfSuccessful => anySuccessBefore
  }

  /**
   * What a run has built so far: the recorded outcomes, whether one of them
   * succeeded, and whether the run is still going.
   */
  datatype RunState = RunState(outcomes: seq<bool>, anySuccess: bool, running: bool)

  const Start := RunState([], false, true)

  /** Attempting one more action: record its outcome, then apply the verdict. */
  function Step(st: RunState, a: RunAction, global: ErrorBehavior): RunState {
    RunState(
      st.outcomes + [a.succeeds],
      st.anySuccess || a.succeeds,
      !Halts(Effective(a.errorBehavior, global), a.succeeds, st.anySuccess))
  }

  /** The state after visiting `actions` left to right, stopping at the first halt. */
  function Run(actions: seq<RunAction>, global: ErrorBehavior): (st: RunState)
    decreases |actions|
    ensures |st.outcomes| <= |actions|
    ensures forall k :: 0 <= k < |st.outcomes| ==> st.outcomes[k] == actions[k].succeeds
    ensures st.anySuccess <==> exists k :: 0 <= k < |st.outcomes| && st.outcomes[k]
    ensures st.running ==> |st.outcomes| == |actions|
    ensures !st.running ==> |st.outcomes| > 0 && !st.outcomes[|st.outcomes| - 1]
  {
    if actions == [] then Start
    else
      var prev := Run(actions[..|actions| - 1], global);
      if prev.running then Step(prev, actions[|actions| - 1], global) else prev
  }

  /** `completed`: the loop reached the end of the list without a halt verdict. */
  predicate Completed(st: RunState) {
    st.running
  }

  /** Every outcome of `outcomes` is a success. */
  predicate AllSucceeded(outcomes: seq<bool>) {
    forall k :: 0 <= k < |outcomes| ==> outcomes[k]
  }

  /** `completelySuccessful`: every recorded outcome is a success. */
  predicate CompletelySuccessful(st: RunState) {
    AllSucceeded(st.outcomes)
  }

  /** Some action in `actions` succeeds. */
  predicate AnySucceeds(actions: seq<RunAction>) {
    exists k :: 0 <= k < |actions| && actions[k].succeeds
  }

  /** The verdict on the k-th action, judged by whether an action before it succeeds. */
  predicate HaltsAt(actions: seq<RunAction>, k: nat, global: ErrorBehavior)
    requires k < |actions|
  {
    Halts(Effective(actions[k].errorBehavior, global), actions[k].succeeds, AnySucceeds(actions[..k]))
  }

  /** Some action of `actions` draws a halt verdict. */
  predicate SomeHaltVerdict(actions: seq<RunAction>, global: ErrorBehavior) {
    exists k :: 0 <= k < |actions| && HaltsAt(actions, k, global)
  }

  /** Once a run has halted, later actions are not attempted. */
  lemma {:induction false} HaltIsFinal(actions: seq<RunAction>, i: nat, global: ErrorBehavior)
    requires i <= |actions|
    requires !Run(actions[..i], global).running
    decreases |actions| - i
    ensures Run(actions, global) == Run(actions[..i], global)
  {
    if i < |actions| {
      assert actions[..i + 1][..i] == actions[..i];
      assert Run(actions[..i + 1], global) == Run(actions[..i], global);
      HaltIsFinal(actions, i + 1, global);
    } else {
      assert actions[..i] == actions;
    }
  }

  /** Verdicts on earlier actions do not depend on the actions that follow. */
  lemma HaltsAtPrefix(actions: seq<RunAction>, n: nat, k: nat, global: ErrorBehavior)
    requires k < n <= |actions|
    ensures HaltsAt(actions[..n], k, global) == HaltsAt(actions, k, global)
  {
    assert actions[..n][..k] == actions[..k];
  }

  /** Some verdict halts exactly when one on the earlier actions does or the last one does. */
  lemma SomeHaltVerdictSnoc(actions: seq<RunAction>, global: ErrorBehavior)
    requires actions != []
    ensures SomeHaltVerdict(actions, global) <==>
      SomeHaltVerdict(actions[..|actions| - 1], global) || HaltsAt(actions, |actions| - 1, global)
  {
    var n := |actions| - 1;
    if SomeHaltVerdict(actions, global) {
      var k :| 0 <= k < |actions| && HaltsAt(actions, k, global);
      if k < n {
        HaltsAtPrefix(actions, n, k, global);
      }
    }
    if SomeHaltVerdict(actions[..n], global) {
      var k :| 0 <= k < n && HaltsAt(actions[..n], k, global);
      HaltsAtPrefix(actions, n, k, global);
    }
  }

  /** While a run is going, its success flag says whether any action so far succeeded. */
  lemma AnySuccessWhileRunning(actions: seq<RunAction>, global: ErrorBehavior)
    requires Run(actions, global).running
    ensures Run(actions, global).anySuccess <==> AnySucceeds(actions)
  {
    var st := Run(actions, global);
    if AnySucceeds(actions) {
      var k :| 0 <= k < |actions| && actions[k].succeeds;
      assert st.outcomes[k];
    }
  }

  /** A halted run ends with the action whose verdict halted it. */
  lemma {:induction false} HaltedByLastRecorded(actions: seq<RunAction>, global: ErrorBehavior)
    decreases |actions|
    ensures var st := Run(actions, global);
      !st.running ==> |st.outcomes| > 0 && HaltsAt(actions, |st.outcomes| - 1, global)
  {
    if actions != [] {
      var n := |actions| - 1;
      var init := actions[..n];
      var prev := Run(init, global);
      if prev.running {
        AnySuccessWhileRunning(init, global);
      } else {
        HaltedByLastRecorded(init, global);
        HaltsAtPrefix(actions, n, |prev.outcomes| - 1, global);
      }
    }
  }

  /**
   * A run completes exactly when no action draws a halt verdict, where each
   * verdict sees whether any earlier action succeeded.
   */
  lemma {:induction false} CompletedIff(actions: seq<RunAction>, global: ErrorBehavior)
    decreases |actions|
    ensures Completed(Run(actions, global)) <==> !SomeHaltVerdict(actions, global)
  {
    if actions != [] {
      var n := |actions| - 1;
      var init := actions[..n];
      CompletedIff(init, global);
      SomeHaltVerdictSnoc(actions, global);
      if Run(init, global).running {
        AnySuccessWhileRunning(init, global);
      }
    }
  }

  /**
   * A run is completely successful exactly when every action succeeds: the
   * first failure is always attempted and recorded, whatever its behavior.
   */
  lemma CompletelySuccessfulIff(actions: seq<RunAction>, global: ErrorBehavior)
    ensures CompletelySuccessful(Run(actions, global)) <==> forall k :: 0 <= k < |actions| ==> actions[k].succeeds
  {
  }

  /** When every action succeeds, the run is completed and completely successful, whatever the behaviors. */
  lemma {:induction false} AllSucceedCompletes(actions: seq<RunAction>, global: ErrorBehavior)
    requires forall k :: 0 <= k < |actions| ==> actions[k].succeeds
    ensures Completed(Run(actions, global)) && CompletelySuccessful(Run(actions, global))
  {
    CompletedIff(actions, global);
  }

  /** Failures whose effective behavior is IGNORE never halt a run. */
  lemma {:induction false} IgnoredFailuresComplete(actions: seq<RunAction>, global: ErrorBehavior)
    requires forall k :: 0 <= k < |actions| ==> actions[k].succeeds || Effective(actions[k].errorBehavior, global) == Ignore
    ensures Completed(Run(actions, global))
  {
    CompletedIff(actions, global);
  }

  /**
   * SKIP_IF_SUCCESSFUL forgives failures while nothing has succeeded: a run
   * in which no action succeeds and none falls under HALT completes.
   */
  lemma {:induction false} SkippedFailuresCompleteWithoutSuccess(actions: seq<RunAction>, global: ErrorBehavior)
    requires forall k :: 0 <= k < |actions| ==> !actions[k].succeeds && Effective(actions[k].errorBehavior, global) != Halt
    ensures Completed(Run(actions, global))
  {
    CompletedIff(actions, global);
  }

  /** A failure under SKIP_IF_SUCCESSFUL that follows a success halts the run. */
  lemma {:induction false} SkippedFailureAfterSuccessHalts(actions: seq<RunAction>, global: ErrorBehavior, i: nat, k: nat)
    requires i < k < |actions|
    requires actions[i].succeeds
    requires !actions[k].succeeds && Effective(actions[k].errorBehavior, global) == SkipIfSuccessful
    ensures !Completed(Run(actions, global))
  {
    CompletedIff(actions, global);
    assert actions[..k][i].succeeds;
    assert HaltsAt(actions, k, global);
  }
}
