/**
 * The main loop of `start` in src/core/agent_core.ts as a function of the
 * world: while the task is not complete, take the current step, adjust the
 * window, execute the step, complete it, and pause. A step that throws is
 * completed as failed and ends the loop; a throw from the window
 * adjustment escapes to the outer catch and ends `start` with the task as
 * it was.
 */
module Orchestration {
  import opened Wrappers
  import opened Json
  import opened UiConstants
  import opened Collaborators
  import opened TaskTypes
  import opened TaskStore
  import opened StepDispatch

  /** How `start` leaves its loop. */
  datatype Exit =
    | Finished               // `isTaskComplete()` held at the head of the loop
    | NoCurrentStep          // `if (!step) break`
    | StepFailed             // a step threw: it is completed as failed and the loop breaks
    | Aborted(error: Error)  // `adjustWindow` threw: the outer catch ends `start`
    | OutOfFuel              // the bound this model puts on the number of rounds was reached

  /** Where a run ends: the calls made, the task, the identifier counter, and the exit taken. */
  datatype Ending = Ending(trace: seq<Event>, task: Task, nextId: nat, exit: Exit)

  /** One round of the loop either carries on from a new state or ends the run. */
  datatype Turn = Continue(trace: seq<Event>, task: Task, nextId: nat) | Stop(ending: Ending)

  /** The plan every task starts with: one analyze step carrying the instruction. */
  function InitialSteps(instruction: string): (r: seq<StepDraft>)
    ensures |r| == 1 && r[0].kind == Str("analyze")
    ensures r[0].params == Obj(map["instruction" := Str(instruction)])
  {
    [StepDraft(Str("analyze"), Str("分析当前状态并开始任务: " + instruction), Obj(map["instruction" := Str(instruction)]))]
  }

  /** The store after a handler's request: steps are inserted only when the handler produced some. */
  function AfterInsert(task: Task, nextId: nat, inserted: seq<StepDraft>): Task {
    if inserted == [] then task else Insert(task, inserted, nextId)
  }

  /** What runs one step: the trace so far and the step give the calls made and the steps to insert. */
  type StepRunner = (seq<Event>, TaskStep) -> Dispatched

  /** The handlers of `executeStep`, in the given world. */
  function Dispatcher(w: World): StepRunner {
    (t, step) => Handle(w, t, step)
  }

  /** The body of the loop after its completion test, running steps with `run`. */
  function Round(w: World, run: StepRunner, t: seq<Event>, task: Task, nextId: nat): Turn {
    match CurrentStep(task)
    case None => Stop(Ending(t, task, nextId, NoCurrentStep))
    case Some(step) =>
      var t1 := t + [AdjustWindow];
      if w.fails(t1) then Stop(Ending(t1, task, nextId, Aborted(Thrown(AdjustWindow))))
      else
        var d := run(t1, step);
        var t2 := t1 + d.effect.events;
        var task2 := AfterInsert(task, nextId, d.inserted);
        var id2 := nextId + |d.inserted|;
        if d.effect.outcome.Threw? then
          Stop(Ending(t2, Complete(task2, false, Some(d.effect.outcome.error)), id2, StepFailed))
        else
          Continue(t2 + [Pause(DelayStep)], Complete(task2, true, None), id2)
  }

  /** The loop, for at most `fuel` rounds. */
  function Run(w: World, run: StepRunner, t: seq<Event>, task: Task, nextId: nat, fuel: nat): Ending
    decreases fuel
  {
    if IsComplete(Some(task)) then Ending(t, task, nextId, Finished)
    else if fuel == 0 then Ending(t, task, nextId, OutOfFuel)
    else
      match Round(w, run, t, task, nextId)
      case Stop(e) => e
      case Continue(t', task', id') => Run(w, run, t', task', id', fuel - 1)
  }

  /** The ways the loop ends before it dispatches a step: a finished task, no fuel, no current step, or a throwing window check. */
  lemma RunStopsEarly(w: World, run: StepRunner, t: seq<Event>, task: Task, nextId: nat, fuel: nat)
    ensures IsComplete(Some(task)) ==> Run(w, run, t, task, nextId, fuel) == Ending(t, task, nextId, Finished)
    ensures !IsComplete(Some(task)) && fuel == 0 ==> Run(w, run, t, task, nextId, fuel) == Ending(t, task, nextId, OutOfFuel)
    ensures !IsComplete(Some(task)) && fuel > 0 && CurrentStep(task).None? ==>
              Run(w, run, t, task, nextId, fuel) == Ending(t, task, nextId, NoCurrentStep)
    ensures !IsComplete(Some(task)) && fuel > 0 && CurrentStep(task).Some? && w.fails(t + [AdjustWindow]) ==>
              Run(w, run, t, task, nextId, fuel) == Ending(t + [AdjustWindow], task, nextId, Aborted(Thrown(AdjustWindow)))
  {
  }

  /** Before the fuel runs out, an unfinished loop whose first round goes on is that round followed by the rest of the loop. */
  lemma RunContinues(w: World, run: StepRunner, t: seq<Event>, task: Task, nextId: nat, fuel: nat,
                     t': seq<Event>, task': Task, nextId': nat, fuel': nat)
    requires !IsComplete(Some(task)) && fuel > 0 && fuel' == fuel - 1
    requires Round(w, run, t, task, nextId) == Continue(t', task', nextId')
    ensures Run(w, run, t, task, nextId, fuel) == Run(w, run, t', task', nextId', fuel')
  {
  }

  /** Before the fuel runs out, an unfinished loop whose first round stops ends there. */
  lemma RunStops(w: World, run: StepRunner, t: seq<Event>, task: Task, nextId: nat, fuel: nat, e: Ending)
    requires !IsComplete(Some(task)) && fuel > 0
    requires Round(w, run, t, task, nextId) == Stop(e)
    ensures Run(w, run, t, task, nextId, fuel) == e
  {
  }

  /**
   * A round that dispatches its step: the step's failure ends the loop with
   * the step marked failed, and its success completes it, pauses and goes
   * on.
   */
  lemma RoundDispatches(w: World, run: StepRunner, t: seq<Event>, task: Task, nextId: nat, step: TaskStep, d: Dispatched)
    requires CurrentStep(task) == Some(step)
    requires !w.fails(t + [AdjustWindow])
    requires d == run(t + [AdjustWindow], step)
    ensures var t2 := t + [AdjustWindow] + d.effect.events;
            var task2 := AfterInsert(task, nextId, d.inserted);
            var id2 := nextId + |d.inserted|;
            Round(w, run, t, task, nextId)
              == if d.effect.outcome.Threw? then Stop(Ending(t2, Complete(task2, false, Some(d.effect.outcome.error)), id2, StepFailed))
                 else Continue(t2 + [Pause(DelayStep)], Complete(task2, true, None), id2)
  {
  }

  // ----- the shape of the plan at the head of the loop -----

  /**
   * The plan at the head of the loop: everything before the cursor is
   * completed, everything from it on is pending, the task is completed
   * exactly when the cursor has reached the end, it is pending only before
   * the first step completes, and it is never failed.
   */
  predicate Settled(t: Task) {
    && t.cursor <= |t.steps|
    && (forall i :: 0 <= i < t.cursor ==> t.steps[i].status == Completed)
    && (forall i :: t.cursor <= i < |t.steps| ==> t.steps[i].status == Pending)
    && (t.status == Completed <==> t.cursor == |t.steps|)
    && (t.status == Pending ==> t.cursor == 0)
    && t.status != Failed
  }

  /** The plan after a failed step: the history up to the failed step, which holds its error, and pending steps after it. */
  predicate FailedAtCursor(t: Task) {
    && t.cursor < |t.steps|
    && (forall i :: 0 <= i < t.cursor ==> t.steps[i].status == Completed)
    && t.steps[t.cursor].status == Failed && t.steps[t.cursor].result.Some?
    && (forall i :: t.cursor < i < |t.steps| ==> t.steps[i].status == Pending)
    && t.status == Failed
  }

  /** Every task `start` creates is settled, and its first step is the analyze step. */
  lemma InitialTaskSettled(instruction: string, firstId: nat)
    ensures var t := Create(instruction, InitialSteps(instruction), firstId);
            && Settled(t) && !IsComplete(Some(t))
            && CurrentStep(t).Some? && CurrentStep(t).value.kind == Str("analyze")
            && TaskInv(t, firstId + 2)
  {
    CreateSpec(instruction, InitialSteps(instruction), firstId);
  }

  /**
   * The first oracle call carries the user's instruction; only an empty
   * instruction, which is falsy, falls back to the step's description.
   */
  lemma FirstAnalyzeUsesInstruction(instruction: string, firstId: nat)
    ensures var step := Create(instruction, InitialSteps(instruction), firstId).steps[0];
            AnalyzeInstruction(step) == if instruction != "" then Str(instruction) else step.description
  {
  }

  /** A settled task that is not complete has a current step. */
  lemma SettledHasCurrentStep(t: Task)
    requires Settled(t) && !IsComplete(Some(t))
    ensures CurrentStep(t).Some? && t.cursor < |t.steps|
  {
  }

  /** Inserting at the cursor of an unfinished settled plan keeps it settled. */
  lemma {:induction false} InsertKeepsSettled(t: Task, drafts: seq<StepDraft>, firstId: nat)
    requires Settled(t) && t.cursor < |t.steps|
    ensures var t' := AfterInsert(t, firstId, drafts);
            Settled(t') && t'.cursor < |t'.steps| && t'.status == t.status
  {
    if drafts != [] {
      var t' := Insert(t, drafts, firstId);
      var c, k := t.cursor, |drafts|;
      InsertAtCursor(t, drafts, firstId);
      var ns := Fresh(drafts, firstId);
      forall i | 0 <= i < c ensures t'.steps[i].status == Completed {
        assert t'.steps[i] == t'.steps[..c][i];
      }
      forall i | c <= i < |t'.steps| ensures t'.steps[i].status == Pending {
        if i < c + k {
          assert t'.steps[i] == t'.steps[c..c + k][i - c] == ns[i - c];
        } else {
          assert t'.steps[i] == t'.steps[c + k..][i - c - k] == t.steps[c..][i - c - k];
        }
      }
    }
  }

  /** Completing the current step successfully keeps a settled plan settled. */
  lemma CompleteKeepsSettled(t: Task)
    requires Settled(t) && t.cursor < |t.steps|
    ensures Settled(Complete(t, true, None))
  {
    CompleteSuccess(t, None);
  }

  /** Completing the current step as failed leaves a plan failed at its cursor. */
  lemma FailKeepsHistory(t: Task, error: Error)
    requires Settled(t) && t.cursor < |t.steps|
    ensures FailedAtCursor(Complete(t, false, Some(error)))
  {
    CompleteFailure(t, Some(error));
  }

  /**
   * One round from an unfinished settled plan: it never meets a missing
   * step; it goes on from a settled plan, or stops either with the window
   * adjustment's error and the plan untouched, or with the plan failed at
   * its cursor. The trace only grows, and identifiers stay unique.
   */
  lemma RoundKeepsSettled(w: World, run: StepRunner, t: seq<Event>, task: Task, nextId: nat)
    requires Settled(task) && !IsComplete(Some(task)) && TaskInv(task, nextId)
    ensures match Round(w, run, t, task, nextId)
            case Continue(t', task', id') =>
              Settled(task') && TaskInv(task', id') && |t'| > |t| && t'[..|t|] == t
            case Stop(e) =>
              && e.exit != NoCurrentStep
              && (e.exit.Aborted? ==> e.task == task && e.trace == t + [AdjustWindow])
              && (!e.exit.Aborted? ==> e.exit == StepFailed && FailedAtCursor(e.task))
              && TaskInv(e.task, e.nextId) && |e.trace| > |t| && e.trace[..|t|] == t
  {
    SettledHasCurrentStep(task);
    var step := CurrentStep(task).value;
    var t1 := t + [AdjustWindow];
    if !w.fails(t1) {
      var d := run(t1, step);
      RoundDispatches(w, run, t, task, nextId, step, d);
      StepKeepsSettled(task, nextId, d);
      assert (t1 + d.effect.events)[..|t|] == t;
      assert (t1 + d.effect.events + [Pause(DelayStep)])[..|t|] == t;
    }
  }

  /** The plan after a dispatched step: failed at its cursor if the step threw, settled otherwise, and identifiers still unique. */
  lemma StepKeepsSettled(task: Task, nextId: nat, d: Dispatched)
    requires Settled(task) && task.cursor < |task.steps| && TaskInv(task, nextId)
    ensures var task2 := AfterInsert(task, nextId, d.inserted);
            var id2 := nextId + |d.inserted|;
            if d.effect.outcome.Threw? then
              var failed := Complete(task2, false, Some(d.effect.outcome.error));
              FailedAtCursor(failed) && TaskInv(failed, id2)
            else
              var done := Complete(task2, true, None);
              Settled(done) && TaskInv(done, id2)
  {
    var task2 := AfterInsert(task, nextId, d.inserted);
    InsertKeepsSettled(task, d.inserted, nextId);
    if d.inserted != [] {
      InsertPreservesInv(task, d.inserted, nextId);
    }
    var error := if d.effect.outcome.Threw? then Some(d.effect.outcome.error) else None;
    CompletePreservesInv(task2, nextId + |d.inserted|, d.effect.outcome.Done?, error);
    if d.effect.outcome.Threw? {
      FailKeepsHistory(task2, d.effect.outcome.error);
    } else {
      CompleteKeepsSettled(task2);
    }
  }

  /**
   * What a run from a settled plan can end with: the `if (!step) break` is
   * never taken; a normal exit sees a completed task whose every step is
   * completed (a failure never reaches the completion test, because the
   * catch breaks first); a failed step ends the run with the plan failed at
   * the cursor; an aborted or exhausted run leaves a settled, unfinished
   * plan. The trace only grows and identifiers stay unique.
   */
  predicate EndsWell(e: Ending, t: seq<Event>) {
    && e.exit != NoCurrentStep
    && (e.exit == Finished ==>
          e.task.status == Completed && forall i :: 0 <= i < |e.task.steps| ==> e.task.steps[i].status == Completed)
    && (e.exit == StepFailed ==> FailedAtCursor(e.task))
    && (e.exit.Aborted? || e.exit == OutOfFuel ==> Settled(e.task) && !IsComplete(Some(e.task)))
    && TaskInv(e.task, e.nextId)
    && |e.trace| >= |t| && e.trace[..|t|] == t
  }

  lemma {:induction false} RunEnds(w: World, run: StepRunner, t: seq<Event>, task: Task, nextId: nat, fuel: nat)
    requires Settled(task) && TaskInv(task, nextId)
    ensures EndsWell(Run(w, run, t, task, nextId, fuel), t)
    decreases fuel
  {
    if IsComplete(Some(task)) || fuel == 0 {
      RunEndsEarly(w, run, t, task, nextId, fuel);
    } else {
      var r := Round(w, run, t, task, nextId);
      RoundKeepsSettled(w, run, t, task, nextId);
      if r.Stop? {
        RunStops(w, run, t, task, nextId, fuel, r.ending);
      } else {
        RunEnds(w, run, r.trace, r.task, r.nextId, fuel - 1);
        RunEndsLater(w, run, t, task, nextId, fuel, r.trace, r.task, r.nextId);
      }
    }
  }

  /** A run that stops before its first round ends well. */
  lemma RunEndsEarly(w: World, run: StepRunner, t: seq<Event>, task: Task, nextId: nat, fuel: nat)
    requires Settled(task) && TaskInv(task, nextId)
    requires IsComplete(Some(task)) || fuel == 0
    ensures EndsWell(Run(w, run, t, task, nextId, fuel), t)
  {
    RunStopsEarly(w, run, t, task, nextId, fuel);
    if IsComplete(Some(task)) {
      FinishedEndsWell(t, task, nextId);
    }
  }

  /** A run whose first round goes on ends as well as the rest of it does. */
  lemma RunEndsLater(w: World, run: StepRunner, t: seq<Event>, task: Task, nextId: nat, fuel: nat,
                     t': seq<Event>, task': Task, nextId': nat)
    requires !IsComplete(Some(task)) && fuel > 0
    requires Round(w, run, t, task, nextId) == Continue(t', task', nextId')
    requires |t'| > |t| && t'[..|t|] == t
    requires EndsWell(Run(w, run, t', task', nextId', fuel - 1), t')
    ensures EndsWell(Run(w, run, t, task, nextId, fuel), t)
  {
    RunContinues(w, run, t, task, nextId, fuel, t', task', nextId', fuel - 1);
    EndsWellLater(t, t', Run(w, run, t', task', nextId', fuel - 1));
  }

  /** A settled plan that is complete has every step completed. */
  lemma FinishedEndsWell(t: seq<Event>, task: Task, nextId: nat)
    requires Settled(task) && IsComplete(Some(task)) && TaskInv(task, nextId)
    ensures EndsWell(Ending(t, task, nextId, Finished), t)
  {
  }

  /** An ending reached after a round that extended the trace extends the trace from before that round too. */
  lemma EndsWellLater(t: seq<Event>, t': seq<Event>, e: Ending)
    requires EndsWell(e, t') && |t'| > |t| && t'[..|t|] == t
    ensures EndsWell(e, t)
  {
    assert e.trace[..|t|] == e.trace[..|t'|][..|t|];
  }

  /** The whole of `start`: create the task with its one analyze step, then run the loop. */
  function Start(w: World, t: seq<Event>, instruction: string, nextId: nat, fuel: nat): Ending {
    Run(w, Dispatcher(w), t, Create(instruction, InitialSteps(instruction), nextId), nextId + 2, fuel)
  }

  /**
   * How `start` can end, whatever the collaborators do: never for want of a
   * current step; finished only with every step completed; after a failed
   * step with the plan failed at its cursor; after an abort or with the
   * fuel exhausted with the plan settled and unfinished. Identifiers stay
   * unique, and the trace only grows.
   */
  lemma StartEnds(w: World, t: seq<Event>, instruction: string, nextId: nat, fuel: nat)
    ensures var e := Start(w, t, instruction, nextId, fuel);
            && e.exit != NoCurrentStep
            && (e.exit == Finished ==>
                  e.task.status == Completed && forall i :: 0 <= i < |e.task.steps| ==> e.task.steps[i].status == Completed)
            && (e.exit == StepFailed ==> FailedAtCursor(e.task))
            && (e.exit.Aborted? || e.exit == OutOfFuel ==> Settled(e.task) && !IsComplete(Some(e.task)))
            && TaskInv(e.task, e.nextId)
            && |e.trace| >= |t| && e.trace[..|t|] == t
  {
    InitialTaskSettled(instruction, nextId);
    RunEnds(w, Dispatcher(w), t, Create(instruction, InitialSteps(instruction), nextId), nextId + 2, fuel);
  }

  /** `start` is the loop run on the task it has just created, with the identifiers after the task's and its step's. */
  lemma StartRuns(w: World, t: seq<Event>, instruction: string, nextId: nat, fuel: nat, task: Task, id: nat)
    requires task == Create(instruction, InitialSteps(instruction), nextId)
    requires id == nextId + 2
    ensures Start(w, t, instruction, nextId, fuel) == Run(w, Dispatcher(w), t, task, id, fuel)
  {
    assert Start(w, t, instruction, nextId, fuel) == Run(w, Dispatcher(w), t, Create(instruction, InitialSteps(instruction), nextId), nextId + 2, fuel);
  }

  /**
   * The loop-level view of the insertion quirk: when the current step is an
   * analyze step whose oracle suggests steps, the round makes only the
   * window adjustment, the one perception call and the pause, yet leaves
   * the first suggested step completed, and the analyze step pending again
   * after the other suggestions.
   */
  lemma AnalyzeRoundSkipsFirstSuggestion(w: World, t: seq<Event>, task: Task, nextId: nat)
    requires Settled(task) && !IsComplete(Some(task))
    requires CurrentStep(task).Some? && CurrentStep(task).value.kind == Str("analyze")
    requires !w.fails(t + [AdjustWindow])
    requires var d := Handle(w, t + [AdjustWindow], CurrentStep(task).value);
             d.effect.outcome.Done? && d.inserted != []
    ensures var step := CurrentStep(task).value;
            var drafts := Handle(w, t + [AdjustWindow], step).inserted;
            var c, k := task.cursor, |drafts|;
            match Round(w, Dispatcher(w), t, task, nextId)
            case Stop(_) => false
            case Continue(t', task', id') =>
              && t' == t + [AdjustWindow, Perceive(AnalyzeInstruction(step), None), Pause(DelayStep)]
              && task'.steps[c] == Fresh(drafts, nextId)[0].(status := Completed)
              && task'.steps[c + k] == step && step.status == Pending
              && task'.cursor == c + 1
              && id' == nextId + k
  {
    var step := CurrentStep(task).value;
    var t1 := t + [AdjustWindow];
    var d := Handle(w, t1, step);
    assert Dispatcher(w)(t1, step) == d;
    RoundDispatches(w, Dispatcher(w), t, task, nextId, step, d);
    AnalyzeAsksWithInstruction(w, t1, step);
    InsertedStepCompletedUndispatched(task, d.inserted, nextId);
    assert t1 + [Perceive(AnalyzeInstruction(step), None)] + [Pause(DelayStep)]
        == t + [AdjustWindow, Perceive(AnalyzeInstruction(step), None), Pause(DelayStep)];
  }

  /** A task made of unknown step types completes without a single handler call. */
  lemma UnknownStepsOnlyAdjustAndPause(w: World, t: seq<Event>, task: Task, nextId: nat)
    requires Settled(task) && !IsComplete(Some(task))
    requires CurrentStep(task).Some? && CurrentStep(task).value.kind !in KnownKinds
    requires !w.fails(t + [AdjustWindow])
    ensures Round(w, Dispatcher(w), t, task, nextId) == Continue(t + [AdjustWindow, Pause(DelayStep)], Complete(task, true, None), nextId)
  {
    NoCoordinateFallback(w, t + [AdjustWindow], CurrentStep(task).value);
    assert Dispatcher(w)(t + [AdjustWindow], CurrentStep(task).value) == Dispatched(Effect([], Done), []);
    assert t + [AdjustWindow] + [] + [Pause(DelayStep)] == t + [AdjustWindow, Pause(DelayStep)];
  }
}
