/** The task and step records of src/types/task.ts. */
module TaskTypes {
  import opened Wrappers
  import opened Json
  import opened Collaborators

  /** One status type serves both the task and its steps; a step is never `Running`. */
  datatype TaskStatus = Pending | Running | Completed | Failed

  /**
   * A step. Its identifier is a counter value standing for the uuid; `kind`
   * is the step's `type`, kept as the JavaScript value the suggestion
   * supplied; `params` is `Undefined` when absent. The result is unset
   * (`None`) until the step fails with the error it records.
   */
  datatype TaskStep = TaskStep(
    id: nat,
    kind: Value,
    description: Value,
    params: Value,
    status: TaskStatus,
    result: Option<Error>)

  /** A step before the store gives it an identifier and a status. */
  datatype StepDraft = StepDraft(kind: Value, description: Value, params: Value)

  /** A task: its goal, its mutable plan, the cursor into it and its status. */
  datatype Task = Task(
    id: nat,
    goal: string,
    steps: seq<TaskStep>,
    cursor: nat,
    status: TaskStatus)
}
