/**
 * The objects an action group run works on: the application-wide state
 * (its `running` flag and global error behavior), the runner result that
 * collects one outcome per attempted action, and the runner whose `Run`
 * drives them, step by step, as the policy in ErrorBehaviorPolicy says.
 */
module ActionGroupRunnerModel {
  import opened ErrorBehaviorPolicy

  /** The application-wide state a run reads its default behavior from and reports a halt to. */
  class ApplicationState {
    var running: bool
    var errorBehavior: ErrorBehavior

    constructor (errorBehavior: ErrorBehavior)
      ensures running && this.errorBehavior == errorBehavior
    {
      running := true;
      this.errorBehavior := errorBehavior;
    }
  }

  /** The outcomes recorded so far, in order, and whether the run completed. */
  class RunnerResult {
    const name: string
    var outcomes: seq<bool>
    var completed: bool

    constructor (name: string)
      ensures this.name == name && outcomes == [] && !completed
    {
      this.name := name;
      outcomes := [];
      completed := false;
    }

    /** Every recorded outcome is a success. */
    predicate CompletelySuccessful()
      reads this
    {
      AllSucceeded(outcomes)
    }

    method Record(succeeded: bool)
      modifies this
      ensures outcomes == old(outcomes) + [succeeded] && completed == old(completed)
    {
      outcomes := outcomes + [succeeded];
    }
  }

  class ActionGroupRunner {
    const name: string
    const actions: seq<RunAction>
    const appState: ApplicationState
    var result: RunnerResult

    constructor (name: string, actions: seq<RunAction>, appState: ApplicationState)
      ensures this.name == name && this.actions == actions && this.appState == appState
      ensures fresh(result) && result.outcomes == [] && !result.completed
    {
      this.name := name;
      this.actions := actions;
      this.appState := appState;
      result := new RunnerResult(name);
    }

    /**
     * Attempts the actions in order with a fresh result, recording each
     * outcome; a halt verdict clears the application's `running` flag, which
     * ends the loop. The result is completed when the loop ran out of actions
     * with the flag still set.
     */
    method Run()
      requires appState.running && IsGlobalBehavior(appState.errorBehavior)
      modifies this, appState
      ensures fresh(result)
      ensures appState.errorBehavior == old(appState.errorBehavior)
      ensures var st := ErrorBehaviorPolicy.Run(actions, old(appState.errorBehavior));
        && result.outcomes == st.outcomes
        && result.completed == Completed(st)
        && appState.running == st.running
    {
      var global := appState.errorBehavior;
      var r := new RunnerResult(name);
      result := r;
      var anySuccess := false;
      var i := 0;
      while i < |actions| && appState.running
        invariant i <= |actions|
        invariant result == r && fresh(r) && !r.completed
        invariant appState.errorBehavior == global
        invariant RunState(r.outcomes, anySuccess, appState.running) == ErrorBehaviorPolicy.Run(actions[..i], global)
        decreases |actions| - i
      {
        var a := actions[i];
        r.Record(a.succeeds);
        if Halts(Effective(a.errorBehavior, global), a.succeeds, anySuccess) {
          appState.running := false;
        }
        anySuccess := anySuccess || a.succeeds;
        assert actions[..i + 1][..i] == actions[..i];
        i := i + 1;
      }
      if i < |actions| {
        HaltIsFinal(actions, i, global);
      } else {
        assert actions[..i] == actions;
      }
      r.completed := appState.running;
    }
  }
}
