/**
 * The task store of src/core/task_manager.ts: one active task at a time, a
 * cursor that completion advances, and insertion of new steps at the cursor.
 * The functions below give the meaning of each store operation on a task
 * value; the class TaskManager performs them in place and is proved to
 * agree with them.
 */
module TaskStore {
  import opened Wrappers
  import opened Json
  import opened Collaborators
  import opened TaskTypes

  /** The drafts as fresh pending steps, numbered from `firstId` in order (the uuids of `map`). */
  function Fresh(drafts: seq<StepDraft>, firstId: nat): seq<TaskStep> {
    seq(|drafts|, i requires 0 <= i < |drafts| =>
      TaskStep(firstId + i, drafts[i].kind, drafts[i].description, drafts[i].params, Pending, None))
  }

  /** `createTask`: the steps take the first identifiers, the task the next one. */
  function Create(goal: string, drafts: seq<StepDraft>, firstId: nat): Task {
    Task(firstId + |drafts|, goal, Fresh(drafts, firstId), 0, Pending)
  }

  /** `getCurrentStep` on an existing task. */
  function CurrentStep(t: Task): Option<TaskStep> {
    if t.cursor < |t.steps| then Some(t.steps[t.cursor]) else None
  }

  /** `completeCurrentStep(success, result)` on an existing task. */
  function Complete(t: Task, success: bool, result: Option<Error>): Task {
    if t.cursor >= |t.steps| then t
    else
      var marked := t.steps[t.cursor].(status := if success then Completed else Failed, result := result);
      var steps := t.steps[t.cursor := marked];
      if success then
        var cursor := t.cursor + 1;
        t.(steps := steps, cursor := cursor, status := if cursor >= |steps| then Completed else Running)
      else
        t.(steps := steps, status := Failed)
  }

  /** `splice` clamps a start index past the end to the end. */
  function SpliceIndex(t: Task): nat {
    if t.cursor <= |t.steps| then t.cursor else |t.steps|
  }

  /** `insertNextSteps(drafts)` on an existing task, with identifiers from `firstId`. */
  function Insert(t: Task, drafts: seq<StepDraft>, firstId: nat): Task {
    var at := SpliceIndex(t);
    t.(steps := t.steps[..at] + Fresh(drafts, firstId) + t.steps[at..],
       status := if t.status == Completed then Running else t.status)
  }

  /** `isTaskComplete`. */
  predicate IsComplete(task: Option<Task>) {
    task.None? || task.value.status == Completed || task.value.status == Failed
  }

  /**
   * What the store keeps true of its task: the cursor is a valid index or
   * the end of the plan, `Completed` means the plan is exhausted, and every
   * identifier was drawn from the counter and is used once.
   */
  predicate TaskInv(t: Task, nextId: nat) {
    && t.cursor <= |t.steps|
    && (t.status == Completed ==> t.cursor == |t.steps|)
    && t.id < nextId
    && (forall i :: 0 <= i < |t.steps| ==> t.steps[i].id < nextId && t.steps[i].id != t.id)
    && (forall i, j :: 0 <= i < j < |t.steps| ==> t.steps[i].id != t.steps[j].id)
  }

  // ----- createTask -----

  /** A new task keeps the given steps in order, all pending, cursor 0, status pending. */
  lemma CreateSpec(goal: string, drafts: seq<StepDraft>, firstId: nat)
    ensures var t := Create(goal, drafts, firstId);
            && t.goal == goal && t.cursor == 0 && t.status == Pending
            && |t.steps| == |drafts|
            && (forall i :: 0 <= i < |drafts| ==>
                  && t.steps[i].kind == drafts[i].kind
                  && t.steps[i].description == drafts[i].description
                  && t.steps[i].params == drafts[i].params
                  && t.steps[i].status == Pending
                  && t.steps[i].result == None)
            && TaskInv(t, firstId + |drafts| + 1)
  {
  }

  // ----- completeCurrentStep -----

  /** With no current step, completion changes nothing. */
  lemma CompleteWithoutCurrentStep(t: Task, success: bool, result: Option<Error>)
    requires CurrentStep(t).None?
    ensures Complete(t, success, result) == t
  {
  }

  /**
   * Success marks the current step completed with the result, advances the
   * cursor by one, changes no other step, and sets the status to completed
   * exactly when the plan is exhausted and to running otherwise.
   */
  lemma CompleteSuccess(t: Task, result: Option<Error>)
    requires CurrentStep(t).Some?
    ensures var t' := Complete(t, true, result);
            && t'.id == t.id && t'.goal == t.goal
            && |t'.steps| == |t.steps|
            && t'.steps[t.cursor] == t.steps[t.cursor].(status := Completed, result := result)
            && (forall i :: 0 <= i < |t.steps| && i != t.cursor ==> t'.steps[i] == t.steps[i])
            && t'.cursor == t.cursor + 1
            && (t'.status == Completed <==> t'.cursor >= |t'.steps|)
            && (t'.status != Completed ==> t'.status == Running)
  {
  }

  /** Failure marks the current step failed with the error and the task failed; the cursor stays. */
  lemma CompleteFailure(t: Task, result: Option<Error>)
    requires CurrentStep(t).Some?
    ensures var t' := Complete(t, false, result);
            && t'.id == t.id && t'.goal == t.goal
            && |t'.steps| == |t.steps|
            && t'.steps[t.cursor] == t.steps[t.cursor].(status := Failed, result := result)
            && (forall i :: 0 <= i < |t.steps| && i != t.cursor ==> t'.steps[i] == t.steps[i])
            && t'.cursor == t.cursor
            && t'.status == Failed
  {
  }

  lemma CompletePreservesInv(t: Task, nextId: nat, success: bool, result: Option<Error>)
    requires TaskInv(t, nextId)
    ensures TaskInv(Complete(t, success, result), nextId)
  {
    var t' := Complete(t, success, result);
    if t.cursor < |t.steps| {
      assert forall i :: 0 <= i < |t.steps| ==> t'.steps[i].id == t.steps[i].id;
    }
  }

  /**
   * The store alone does not make `Failed` terminal: a successful completion
   * after a failed one overwrites both the failed step and the failed status.
   */
  lemma FailedIsNotTerminalInStore(t: Task, error: Error)
    requires CurrentStep(t).Some?
    ensures Complete(t, false, Some(error)).status == Failed
    ensures var t' := Complete(Complete(t, false, Some(error)), true, None);
            t'.status != Failed && t'.steps[t.cursor].status == Completed
  {
  }

  // ----- insertNextSteps -----

  /**
   * Insertion splices fresh pending steps in at the cursor: history before
   * the cursor and the previously scheduled steps after it are kept, the
   * cursor does not move, and the first new step becomes the current one.
   */
  lemma {:induction false} InsertAtCursor(t: Task, drafts: seq<StepDraft>, firstId: nat)
    requires t.cursor <= |t.steps|
    ensures var t' := Insert(t, drafts, firstId);
            var c, k := t.cursor, |drafts|;
            && t'.id == t.id && t'.goal == t.goal
            && t'.cursor == c
            && |t'.steps| == |t.steps| + k
            && t'.steps[..c] == t.steps[..c]
            && t'.steps[c..c + k] == Fresh(drafts, firstId)
            && t'.steps[c + k..] == t.steps[c..]
            && (k > 0 ==> CurrentStep(t') == Some(Fresh(drafts, firstId)[0]))
  {
    var t' := Insert(t, drafts, firstId);
    var c, k := t.cursor, |drafts|;
    var ns := Fresh(drafts, firstId);
    assert t'.steps == t.steps[..c] + ns + t.steps[c..];
    assert t'.steps[..c] == t.steps[..c];
    assert t'.steps[c..c + k] == ns;
    assert t'.steps[c + k..] == t.steps[c..];
  }

  /** Insertion reopens a completed task and leaves every other status, failed included, alone. */
  lemma InsertStatus(t: Task, drafts: seq<StepDraft>, firstId: nat)
    ensures t.status == Completed ==> Insert(t, drafts, firstId).status == Running
    ensures t.status != Completed ==> Insert(t, drafts, firstId).status == t.status
  {
  }

  /** The splice of `insertNextSteps`: [A, B, C] with the cursor at B and [X, Y] inserted gives [A, X, Y, B, C]. */
  lemma InsertExample(a: TaskStep, b: TaskStep, c: TaskStep, x: StepDraft, y: StepDraft, id: nat, firstId: nat)
    ensures var t' := Insert(Task(id, "goal", [a, b, c], 1, Running), [x, y], firstId);
            var fx := TaskStep(firstId, x.kind, x.description, x.params, Pending, None);
            var fy := TaskStep(firstId + 1, y.kind, y.description, y.params, Pending, None);
            t'.steps == [a, fx, fy, b, c] && t'.cursor == 1 && CurrentStep(t') == Some(fx)
  {
    var t := Task(id, "goal", [a, b, c], 1, Running);
    assert Fresh([x, y], firstId) == [TaskStep(firstId, x.kind, x.description, x.params, Pending, None),
                                      TaskStep(firstId + 1, y.kind, y.description, y.params, Pending, None)];
    assert t.steps[..1] == [a] && t.steps[1..] == [b, c];
  }

  /** Reopening: a completed task gets the inserted step as its current step and runs again. */
  lemma InsertReopensCompleted(t: Task, d: StepDraft, firstId: nat)
    requires t.status == Completed && t.cursor == |t.steps|
    ensures var t' := Insert(t, [d], firstId);
            && t'.status == Running
            && CurrentStep(t') == Some(TaskStep(firstId, d.kind, d.description, d.params, Pending, None))
  {
    InsertAtCursor(t, [d], firstId);
  }

  /** Insertion draws identifiers that were never used, so identifiers stay unique. */
  lemma {:induction false} InsertPreservesInv(t: Task, drafts: seq<StepDraft>, nextId: nat)
    requires TaskInv(t, nextId)
    ensures TaskInv(Insert(t, drafts, nextId), nextId + |drafts|)
  {
    var t' := Insert(t, drafts, nextId);
    var c, k := t.cursor, |drafts|;
    var ns := Fresh(drafts, nextId);
    assert t'.steps == t.steps[..c] + ns + t.steps[c..];
    SpliceKeepsIdsDistinct(t.steps, c, ns, nextId);
    forall i | 0 <= i < |t'.steps| ensures t'.steps[i].id < nextId + k && t'.steps[i].id != t'.id {
      if i < c {
        assert t'.steps[i] == t.steps[i];
      } else if i < c + k {
        assert t'.steps[i] == ns[i - c];
      } else {
        assert t'.steps[i] == t.steps[i - k];
      }
    }
  }

  /**
   * Splicing steps numbered from `nextId` into steps whose distinct
   * identifiers are all below `nextId` keeps the identifiers distinct.
   */
  lemma {:induction false} SpliceKeepsIdsDistinct(s: seq<TaskStep>, c: nat, ns: seq<TaskStep>, nextId: nat)
    requires c <= |s|
    requires forall i :: 0 <= i < |s| ==> s[i].id < nextId
    requires forall i, j :: 0 <= i < j < |s| ==> s[i].id != s[j].id
    requires forall i :: 0 <= i < |ns| ==> ns[i].id == nextId + i
    ensures var r := s[..c] + ns + s[c..];
            forall i, j :: 0 <= i < j < |r| ==> r[i].id != r[j].id
  {
    var r, k := s[..c] + ns + s[c..], |ns|;
    assert forall i :: 0 <= i < c ==> r[i] == s[i];
    assert forall i :: c <= i < c + k ==> r[i] == ns[i - c];
    assert forall i :: c + k <= i < |r| ==> r[i] == s[i - k];
    forall i, j | 0 <= i < j < |r| ensures r[i].id != r[j].id {
      if c <= i < c + k && c <= j < c + k {
        assert r[i].id == nextId + (i - c);
        assert r[j].id == nextId + (j - c);
      } else if c <= i < c + k {
        assert r[i].id >= nextId;
      } else if c <= j < c + k {
        assert r[j].id >= nextId;
      } else {
        var i0 := if i < c then i else i - k;
        var j0 := if j < c then j else j - k;
        assert i0 < j0;
        assert r[i] == s[i0] && r[j] == s[j0];
      }
    }
  }

  /**
   * The insertion that `handleAnalyze` makes happens while the cursor still
   * points at the analyze step, and the loop then completes "the current
   * step": that marks the first inserted step completed although it never
   * ran, leaves the analyze step pending after the other inserted steps, and
   * makes the second inserted step (or, with one, the analyze step) current.
   */
  lemma {:induction false} InsertedStepCompletedUndispatched(t: Task, drafts: seq<StepDraft>, firstId: nat)
    requires CurrentStep(t).Some?
    requires |drafts| >= 1
    ensures var t' := Complete(Insert(t, drafts, firstId), true, None);
            var c, k := t.cursor, |drafts|;
            var first := Fresh(drafts, firstId)[0];
            && t'.steps[c] == first.(status := Completed)
            && t'.steps[c + k] == t.steps[c]
            && t'.cursor == c + 1
            && CurrentStep(t') == Some(if k >= 2 then Fresh(drafts, firstId)[1] else t.steps[c])
  {
    var c, k := t.cursor, |drafts|;
    var ins := Insert(t, drafts, firstId);
    InsertAtCursor(t, drafts, firstId);
    assert ins.steps[c] == ins.steps[c..c + k][0];
    assert ins.steps[c + k] == ins.steps[c + k..][0] == t.steps[c..][0];
    if k >= 2 {
      assert ins.steps[c + 1] == ins.steps[c..c + k][1];
    }
    CompleteSuccess(ins, None);
  }

  // ----- the class -----

  /** The store itself: `currentTask` is spread over the fields below, `active` telling whether there is one. */
  class TaskManager {
    var active: bool
    var taskId: nat
    var goal: string
    var steps: seq<TaskStep>
    var cursor: nat
    var status: TaskStatus
    /** The source of fresh identifiers (uuid generation). */
    var nextId: nat

    /** The current task as a value, or `None` when there is none. */
    function Snapshot(): Option<Task>
      reads this
    {
      if active then Some(Task(taskId, goal, steps, cursor, status)) else None
    }

    ghost predicate Valid()
      reads this
    {
      active ==> TaskInv(Snapshot().value, nextId)
    }

    constructor ()
      ensures Valid() && Snapshot() == None && nextId == 0
    {
      active := false;
      taskId, goal, steps, cursor, status := 0, "", [], 0, Pending;
      nextId := 0;
    }

    /** Replaces any previous task by a new one built from `rawSteps`. */
    method CreateTask(goal: string, rawSteps: seq<StepDraft>) returns (task: Task)
      requires Valid()
      modifies this
      ensures Valid()
      ensures task == Create(goal, rawSteps, old(nextId))
      ensures Snapshot() == Some(task)
      ensures nextId == old(nextId) + |rawSteps| + 1
    {
      var newSteps := Fresh(rawSteps, nextId);
      nextId := nextId + |rawSteps|;
      task := Task(nextId, goal, newSteps, 0, Pending);
      nextId := nextId + 1;
      active, taskId, this.goal, steps, cursor, status := true, task.id, goal, newSteps, 0, Pending;
      CreateSpec(goal, rawSteps, old(nextId));
    }

    method GetCurrentTask() returns (task: Option<Task>)
      ensures task.Some? <==> active
      ensures active ==> task.value == Task(taskId, goal, steps, cursor, status)
    {
      task := Snapshot();
    }

    /** The step at the cursor, if there is a task and the cursor is inside the plan. */
    method GetCurrentStep() returns (step: Option<TaskStep>)
      ensures step.Some? <==> active && cursor < |steps|
      ensures step.Some? ==> step.value == steps[cursor]
    {
      if !active {
        return None;
      }
      var idx := cursor;
      if idx >= |steps| {
        return None;
      }
      step := Some(steps[idx]);
    }

    method CompleteCurrentStep(success: bool, result: Option<Error>)
      requires Valid()
      modifies this
      ensures Valid()
      ensures Snapshot() == if old(active) then Some(Complete(old(Snapshot()).value, success, result)) else None
      ensures nextId == old(nextId)
    {
      if !active {
        return;
      }
      if cursor >= |steps| {
        return;
      }
      ghost var before := Snapshot().value;
      steps := steps[cursor := steps[cursor].(status := if success then Completed else Failed, result := result)];
      if success {
        cursor := cursor + 1;
        if cursor >= |steps| {
          status := Completed;
        } else {
          status := Running;
        }
      } else {
        status := Failed;
      }
      CompletePreservesInv(before, nextId, success, result);
    }

    method InsertNextSteps(newSteps: seq<StepDraft>)
      requires Valid()
      modifies this
      ensures Valid()
      ensures Snapshot() == if old(active) then Some(Insert(old(Snapshot()).value, newSteps, old(nextId))) else None
      ensures nextId == if old(active) then old(nextId) + |newSteps| else old(nextId)
    {
      if !active {
        return;
      }
      ghost var before := Snapshot().value;
      var added := Fresh(newSteps, nextId);
      nextId := nextId + |newSteps|;
      var at := if cursor <= |steps| then cursor else |steps|;
      steps := steps[..at] + added + steps[at..];
      if status == Completed {
        status := Running;
      }
      InsertPreservesInv(before, newSteps, old(nextId));
    }

    method IsTaskComplete() returns (complete: bool)
      ensures complete <==> !active || status == Completed || status == Failed
    {
      if !active {
        return true;
      }
      complete := status == Completed || status == Failed;
    }
  }
}
