/**
 * The class AgentCore of src/core/agent_core.ts. Its collaborators are the
 * world (every call is appended to `trace`, and the world decides whether
 * it throws and what a perception call returns) and the task store it owns.
 * Each handler is proved to make exactly the calls, and end exactly the
 * way, that the dispatch functions describe; `Start` is proved to follow
 * the loop function `Run`.
 */
module Agent {
  import opened Wrappers
  import opened Json
  import opened UiConstants
  import opened Collaborators
  import opened TaskTypes
  import opened TaskStore
  import opened StepDispatch
  import opened PlanExpansion
  import opened Orchestration

  class AgentCore {
    const tasks: TaskManager
    const world: World
    /** The calls made so far, in order. */
    var trace: seq<Event>

    ghost predicate Valid()
      reads tasks
    {
      tasks.Valid()
    }

    constructor (world: World)
      ensures Valid() && fresh(tasks)
      ensures this.world == world && trace == [] && tasks.Snapshot() == None
    {
      this.world := world;
      tasks := new TaskManager();
      trace := [];
    }

    // ----- collaborator calls -----

    /** An awaited call to a collaborator. */
    method Call(e: Event) returns (outcome: Outcome)
      modifies this
      ensures trace == old(trace) + [e]
      ensures outcome == if world.fails(trace) then Threw(Thrown(e)) else Done
    {
      trace := trace + [e];
      if world.fails(trace) {
        outcome := Threw(Thrown(e));
      } else {
        outcome := Done;
      }
    }

    /** A perception call: capture the screen and ask the oracle, which answers unless it throws. */
    method Ask(e: Event) returns (outcome: Outcome, answer: Value)
      modifies this
      ensures trace == old(trace) + [e]
      ensures outcome == if world.fails(trace) then Threw(Thrown(e)) else Done
      ensures outcome.Done? ==> answer == world.answer(trace)
    {
      outcome := Call(e);
      answer := world.answer(trace);
    }

    // ----- handlers -----

    method HandleCheckSentMessages() returns (outcome: Outcome)
      modifies this
      ensures var e := Perform(world, old(trace), [Consult("verify_sent.md")]);
              trace == old(trace) + e.events && outcome == e.outcome
    {
      PerformOne(world, trace, Consult("verify_sent.md"));
      var sentStatus;
      outcome, sentStatus := Ask(Consult("verify_sent.md"));
    }

    method HandleSearchContact(step: TaskStep) returns (outcome: Outcome)
      modifies this
      ensures var e := Perform(world, old(trace), SearchContactCalls(step));
              trace == old(trace) + e.events && outcome == e.outcome
    {
      var name := Param(step, "name");
      var verify := Perceive(Str(""), Some(Prompt("verify_search.md", map["name" := Or(name, Str(""))])));
      var typed := if Truthy(name) then [Input(name)] else [];
      var t0 := trace;
      assert SearchContactCalls(step) == [TapAt(SearchBar)] + (typed + [verify]);
      PerformCons(world, t0, TapAt(SearchBar), typed + [verify]);
      outcome := Call(TapAt(SearchBar));
      if outcome.Threw? {
        return;
      }
      var t1 := trace;
      if Truthy(name) {
        PerformCons(world, t1, Input(name), [verify]);
        outcome := Call(Input(name));
        if outcome.Threw? {
          return;
        }
      }
      var t2 := trace;
      PerformOne(world, t2, verify);
      var verifyResult;
      outcome, verifyResult := Ask(verify);
    }

    method HandleEnterChat() returns (outcome: Outcome)
      modifies this
      ensures var e := Perform(world, old(trace), [TapAt(SearchResultFirst)]);
              trace == old(trace) + e.events && outcome == e.outcome
    {
      PerformOne(world, trace, TapAt(SearchResultFirst));
      outcome := Call(TapAt(SearchResultFirst));
    }

    method HandleTypeText(step: TaskStep) returns (outcome: Outcome)
      modifies this
      ensures var e := Perform(world, old(trace), TypeTextCalls(step));
              trace == old(trace) + e.events && outcome == e.outcome
    {
      var content := Param(step, "content");
      var typed := if Truthy(content) then [Input(content)] else [];
      PerformCons(world, trace, TapAt(ChatInputArea), typed);
      outcome := Call(TapAt(ChatInputArea));
      if outcome.Threw? {
        return;
      }
      if Truthy(content) {
        PerformOne(world, trace, Input(content));
        outcome := Call(Input(content));
      } else {
        assert trace == old(trace) + [TapAt(ChatInputArea)] + [];
      }
    }

    method HandleClickSend() returns (outcome: Outcome)
      modifies this
      ensures var e := Perform(world, old(trace), [TapAt(SendButton)]);
              trace == old(trace) + e.events && outcome == e.outcome
    {
      PerformOne(world, trace, TapAt(SendButton));
      outcome := Call(TapAt(SendButton));
    }

    method HandleNavigateTo(step: TaskStep) returns (outcome: Outcome)
      modifies this
      ensures var e := Perform(world, old(trace), NavigateToCalls(step));
              trace == old(trace) + e.events && outcome == e.outcome
    {
      var target := Param(step, "target");
      if Truthy(target) && target.Str? && NavigationTap(target.s).Some? {
        var tap := NavigationTap(target.s).value;
        PerformOne(world, trace, tap);
        outcome := Call(tap);
      } else {
        outcome := Done;
        assert trace == old(trace) + [];
      }
    }

    method HandleBrowseMoments(step: TaskStep) returns (outcome: Outcome)
      modifies this
      ensures var e := Perform(world, old(trace), BrowseCalls(Iterations(BrowseCount(step))));
              trace == old(trace) + e.events && outcome == e.outcome
    {
      var browseCount := BrowseCount(step);
      ghost var n := Iterations(browseCount);
      var i := 0;
      while Below(i, browseCount)
        invariant 0 <= i <= n
        invariant trace == old(trace) + BrowseCalls(i)
        invariant AllSucceed(world, old(trace), BrowseCalls(i))
        decreases n - i
      {
        BrowseTurn(world, old(trace), i, n);
        var feedAnalysis;
        outcome, feedAnalysis := Ask(Consult("analyze_feed.md"));
        if outcome.Threw? {
          return;
        }
        outcome := Call(Scroll(Str("down"), Num(1000)));
        if outcome.Threw? {
          return;
        }
        i := i + 1;
      }
      assert i == n;
      PerformAllSucceed(world, old(trace), BrowseCalls(n));
      outcome := Done;
    }

    method HandleCheckNewMessages(step: TaskStep) returns (outcome: Outcome)
      modifies this
      ensures var e := CheckNewMessages(world, old(trace), step);
              trace == old(trace) + e.events && outcome == e.outcome
    {
      var limit := Or(Param(step, "limit"), Num(5));
      var find := Consult("find_unread.md");
      var unreadResult;
      outcome, unreadResult := Ask(find);
      if outcome.Done? {
        ghost var t0 := trace;
        outcome := HandleUnreadResult(unreadResult, limit);
        assert trace == old(trace) + ([find] + ReadUnreadResult(world, t0, unreadResult, limit).events);
      }
    }

    /** The rest of `handleCheckNewMessages` once the find call answered `unreadResult`. */
    method HandleUnreadResult(unreadResult: Value, limit: Value) returns (outcome: Outcome)
      modifies this
      ensures var e := ReadUnreadResult(world, old(trace), unreadResult, limit);
              trace == old(trace) + e.events && outcome == e.outcome
    {
      outcome := Done;
      if Nullish(unreadResult) {
        outcome := Threw(TypeError("reading 'unreadChats' of a null result"));
      } else {
        var unreadChats := Or(Get(unreadResult, "unreadChats"), Arr([]));
        if Get(unreadChats, "length") != Num(0) {
          var iterated := Iterate(unreadChats);
          if iterated.None? {
            outcome := Threw(TypeError("unreadChats is not iterable"));
          } else {
            outcome := ReadUnread(iterated.value, limit);
          }
        }
      }
    }

    /** The `for ... of unreadChats` loop: open each chat and extract it, until `limit` chats are processed. */
    method ReadUnread(chats: seq<Value>, limit: Value) returns (outcome: Outcome)
      modifies this
      ensures var e := ReadChats(world, old(trace), chats, 0, limit);
              trace == old(trace) + e.events && outcome == e.outcome
    {
      ghost var made: seq<Event> := [];
      ghost var whole := ReadChats(world, old(trace), chats, 0, limit);
      assert whole == After(made, whole);
      outcome := Done;
      var processed := 0;
      var idx := 0;
      while idx < |chats|
        invariant 0 <= idx <= |chats| && processed == idx
        invariant trace == old(trace) + made && outcome == Done
        invariant whole == After(made, ReadChats(world, trace, chats[idx..], processed, limit))
        decreases |chats| - idx
      {
        ReadStops(world, trace, chats[idx..], processed, limit, made, whole);
        if AtLeast(processed, limit) {
          break;
        }
        if Nullish(chats[idx]) {
          outcome := Threw(TypeError("reading 'name' of a null chat"));
          return;
        }
        assert chats[idx..][0] == chats[idx] && chats[idx..][1..] == chats[idx + 1..];
        ReadStep(world, old(trace), trace, chats[idx..], processed, limit, made, whole);
        outcome := OpenChat(chats[idx]);
        if outcome.Threw? {
          return;
        }
        made := made + ReadCalls(chats[idx]);
        processed := processed + 1;
        idx := idx + 1;
      }
      ReadStops(world, trace, chats[idx..], processed, limit, made, whole);
    }

    /** The loop body for one chat that is not null: tap its position, then extract its content. */
    method OpenChat(chat: Value) returns (outcome: Outcome)
      requires !Nullish(chat)
      modifies this
      ensures var e := Perform(world, old(trace), ReadCalls(chat));
              trace == old(trace) + e.events && outcome == e.outcome
    {
      var tap := Tap(Get(chat, "x"), Get(chat, "y"));
      var extract := Consult("extract_chat.md");
      assert ReadCalls(chat) == [tap] + [extract];
      PerformCons(world, trace, tap, [extract]);
      PerformOne(world, trace + [tap], extract);
      outcome := Call(tap);
      if outcome.Threw? {
        return;
      }
      var chatContent;
      outcome, chatContent := Ask(extract);
    }

    method HandleGetContactChatRecords() returns (outcome: Outcome)
      modifies this
      ensures var e := Perform(world, old(trace), [Consult("extract_chat.md")]);
              trace == old(trace) + e.events && outcome == e.outcome
    {
      PerformOne(world, trace, Consult("extract_chat.md"));
      var recordAnalysis;
      outcome, recordAnalysis := Ask(Consult("extract_chat.md"));
    }

    /** Asks the oracle about the screen and inserts the steps it suggests at the cursor. */
    method HandleAnalyze(step: TaskStep) returns (outcome: Outcome)
      requires Valid()
      modifies this, tasks
      ensures Valid()
      ensures var d := Analyze(world, old(trace), step);
              && trace == old(trace) + d.effect.events && outcome == d.effect.outcome
              && tasks.Snapshot() == (if d.inserted != [] && old(tasks.active)
                                      then Some(Insert(old(tasks.Snapshot()).value, d.inserted, old(tasks.nextId)))
                                      else old(tasks.Snapshot()))
              && tasks.nextId == old(tasks.nextId) + (if old(tasks.active) then |d.inserted| else 0)
    {
      var instruction := AnalyzeInstruction(step);
      var result;
      outcome, result := Ask(Perceive(instruction, None));
      if outcome.Threw? {
        return;
      }
      var nextSteps := Expand(result);
      if nextSteps.Err? {
        outcome := Threw(nextSteps.error);
        return;
      }
      if |nextSteps.value| > 0 {
        tasks.InsertNextSteps(nextSteps.value);
      }
    }

    // ----- executeStep -----

    /** `executeStep`: runs the handler the step's type selects. */
    method ExecuteStep(step: TaskStep) returns (outcome: Outcome)
      requires Valid()
      modifies this, tasks
      ensures Valid()
      ensures var d := Handle(world, old(trace), step);
              && trace == old(trace) + d.effect.events && outcome == d.effect.outcome
              && tasks.Snapshot() == (if d.inserted != [] && old(tasks.active)
                                      then Some(Insert(old(tasks.Snapshot()).value, d.inserted, old(tasks.nextId)))
                                      else old(tasks.Snapshot()))
              && tasks.nextId == old(tasks.nextId) + (if old(tasks.active) then |d.inserted| else 0)
    {
      if step.kind == Str("analyze") {
        outcome := HandleAnalyze(step);
      } else if step.kind == Str("check_new_messages") {
        outcome := HandleCheckNewMessages(step);
      } else {
        outcome := ExecuteStraight(step);
      }
    }

    /** The cases of `executeStep` whose calls are fixed once the step is known. */
    method ExecuteStraight(step: TaskStep) returns (outcome: Outcome)
      requires step.kind != Str("analyze") && step.kind != Str("check_new_messages")
      modifies this
      ensures var e := Perform(world, old(trace), StraightCalls(step));
              trace == old(trace) + e.events && outcome == e.outcome
    {
      var kind := step.kind;
      if kind == Str("search_contact") {
        outcome := HandleSearchContact(step);
      } else if kind == Str("enter_chat") {
        outcome := HandleEnterChat();
      } else if kind == Str("type_text") {
        outcome := HandleTypeText(step);
      } else if kind == Str("click_send") {
        outcome := HandleClickSend();
      } else if kind == Str("navigate_to") {
        outcome := HandleNavigateTo(step);
      } else if kind == Str("browse_moments") {
        outcome := HandleBrowseMoments(step);
      } else if kind == Str("check_sent_messages") {
        outcome := HandleCheckSentMessages();
      } else if kind == Str("get_contact_chat_records") {
        outcome := HandleGetContactChatRecords();
      } else {
        outcome := ExecutePrimitive(step);
      }
    }

    /** The cases of `executeStep` that call the device directly: tap, input, scroll, and the default that only logs. */
    method ExecutePrimitive(step: TaskStep) returns (outcome: Outcome)
      requires step.kind !in {Str("search_contact"), Str("enter_chat"), Str("type_text"), Str("click_send"), Str("navigate_to"),
                               Str("browse_moments"), Str("check_sent_messages"), Str("get_contact_chat_records"),
                               Str("analyze"), Str("check_new_messages")}
      modifies this
      ensures var e := Perform(world, old(trace), StraightCalls(step));
              trace == old(trace) + e.events && outcome == e.outcome
    {
      var kind := step.kind;
      var calls := StraightCalls(step);
      if kind == Str("tap") {
        var x, y := Param(step, "x"), Param(step, "y");
        if Truthy(x) && Truthy(y) {
          PerformOne(world, trace, Tap(x, y));
          outcome := Call(Tap(x, y));
          return;
        }
      } else if kind == Str("input") {
        var text := Param(step, "text");
        if Truthy(text) {
          PerformOne(world, trace, Input(text));
          outcome := Call(Input(text));
          return;
        }
      } else if kind == Str("scroll") {
        var direction := Param(step, "direction");
        if Truthy(direction) {
          var scroll := Scroll(direction, Or(Param(step, "magnitude"), Num(500)));
          PerformOne(world, trace, scroll);
          outcome := Call(scroll);
          return;
        }
      }
      assert calls == [];
      outcome := Done;
      assert trace == old(trace) + [];
    }

    // ----- start -----

    /**
     * `start(instruction)`, for at most `fuel` rounds: creates the task with
     * its analyze step, then runs the loop.
     */
    method Start(instruction: string, fuel: nat) returns (exit: Exit)
      requires Valid()
      modifies this, tasks
      ensures Valid()
      ensures var e := Orchestration.Start(world, old(trace), instruction, old(tasks.nextId), fuel);
              trace == e.trace && tasks.Snapshot() == Some(e.task) && tasks.nextId == e.nextId && exit == e.exit
    {
      var task := tasks.CreateTask(instruction, InitialSteps(instruction));
      var budget := fuel;
      // The arguments of the rest of the loop, as `Run` sees them.
      ghost var t, current, id, left := trace, task, tasks.nextId, budget;
      ghost var whole := Orchestration.Start(world, t, instruction, old(tasks.nextId), fuel);
      StartRuns(world, t, instruction, old(tasks.nextId), fuel, current, id);
      while true
        invariant Valid() && tasks.active
        invariant t == trace && Some(current) == tasks.Snapshot() && id == tasks.nextId && left == budget
        invariant whole == Run(world, Dispatcher(world), t, current, id, left)
        decreases budget
      {
        RunStopsEarly(world, Dispatcher(world), t, current, id, left);
        var complete := tasks.IsTaskComplete();
        if complete {
          return Finished;
        }
        if budget == 0 {
          return OutOfFuel;
        }
        ghost var turn := Round(world, Dispatcher(world), t, current, id);
        var stop := RunRound(t, current, id);
        if stop.Some? {
          RunStops(world, Dispatcher(world), t, current, id, left, turn.ending);
          return stop.value;
        }
        budget := budget - 1;
        ghost var t0, current0, id0, left0 := t, current, id, left;
        t, current, id, left := turn.trace, turn.task, turn.nextId, left - 1;
        RunContinues(world, Dispatcher(world), t0, current0, id0, left0, t, current, id, left);
      }
    }

    /**
     * The body of the loop in `start` after its completion test: fetch the
     * current step, adjust the window, run the step, and record its
     * outcome; `Some(exit)` when the loop ends here.
     */
    method RunRound(ghost t: seq<Event>, ghost current: Task, ghost id: nat) returns (stop: Option<Exit>)
      requires Valid() && tasks.active
      requires t == trace && Some(current) == tasks.Snapshot() && id == tasks.nextId
      modifies this, tasks
      ensures Valid()
      ensures match Round(world, Dispatcher(world), t, current, id)
              case Stop(e) => stop == Some(e.exit) && trace == e.trace && tasks.Snapshot() == Some(e.task) && tasks.nextId == e.nextId
              case Continue(t', task', id') =>
                stop == None && tasks.active && trace == t' && tasks.Snapshot() == Some(task') && tasks.nextId == id'
    {
      var step := tasks.GetCurrentStep();
      if step.None? {
        return Some(NoCurrentStep);
      }
      var adjusted := Call(AdjustWindow);
      if adjusted.Threw? {
        return Some(Aborted(adjusted.error));
      }
      RoundDispatches(world, Dispatcher(world), t, current, id, step.value, Handle(world, trace, step.value));
      var outcome := ExecuteStep(step.value);
      if outcome.Threw? {
        tasks.CompleteCurrentStep(false, Some(outcome.error));
        return Some(StepFailed);
      }
      tasks.CompleteCurrentStep(true, None);
      trace := trace + [Pause(DelayStep)];
      return None;
    }
  }
}
