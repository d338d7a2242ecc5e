/** The fixed screen layout and delays of src/config/ui_constants.ts that the core uses. */
module UiConstants {
  datatype Point = Point(x: int, y: int)

  const NavChat := Point(36, 90)
  const NavContacts := Point(36, 140)
  const NavMoments := Point(36, 240)
  const NavFavorites := Point(36, 190)

  const SearchBar := Point(180, 40)
  const SearchResultFirst := Point(180, 120)
  const ChatInputArea := Point(500, 650)
  const SendButton := Point(770, 680)

  /** Milliseconds the orchestration loop waits after a successful step. */
  const DelayStep: nat := 1000
}

/**
 * The external collaborators of the core, reduced to the calls it makes.
 * Every call is an event appended to a trace; the outside world (window
 * manager, robot with its safety brake, screen capture, the AI oracle) is a
 * pair of functions of that trace: whether the call just made throws, and
 * what a perception call returns.
 */
module Collaborators {
  import opened Wrappers
  import opened Json
  import opened UiConstants

  /** A prompt file of the prompts directory and the `${key}` substitutions made in it. */
  datatype Prompt = Prompt(file: string, substitutions: map<string, Value>)

  datatype Event =
    | AdjustWindow                                   // ScreenCapturer.adjustWindow
    | Tap(x: Value, y: Value)                        // RobotService.tap
    | Input(text: Value)                             // RobotService.input
    | Scroll(direction: Value, magnitude: Value)     // RobotService.scroll
    | Perceive(instruction: Value, prompt: Option<Prompt>)  // screen capture, then AIClient.analyzeImage with an optional prompt
    | Pause(ms: nat)                                 // the orchestration loop's wait between steps

  /** The calls a step handler makes: actuation and perception, never window adjustment or the loop's pause. */
  predicate IsHandlerCall(e: Event) {
    e.Tap? || e.Input? || e.Scroll? || e.Perceive?
  }

  predicate AllHandlerCalls(es: seq<Event>) {
    forall i :: 0 <= i < |es| ==> IsHandlerCall(es[i])
  }

  /** What a step handler can throw. */
  datatype Error =
    | TypeError(detail: string)   // reading through null or undefined, a missing method, writing a property of a primitive
    | Thrown(call: Event)         // the collaborator threw during this call (safety brake, network, JSON parse, ...)

  datatype Outcome = Done | Threw(error: Error)

  /**
   * The outside world. For a trace `t` whose last event is the call being
   * made, `fails(t)` says that call throws and `answer(t)` is what a
   * perception call returns.
   */
  datatype World = World(fails: seq<Event> -> bool, answer: seq<Event> -> Value)

  /** The calls a piece of code made (the last one may have thrown) and how it ended. */
  datatype Effect = Effect(events: seq<Event>, outcome: Outcome)

  function TapAt(p: Point): Event {
    Tap(Num(p.x), Num(p.y))
  }

  /** Every call of `es`, made after `t`, returned normally. */
  ghost predicate AllSucceed(w: World, t: seq<Event>, es: seq<Event>)
    decreases |es|
  {
    es != [] ==> !w.fails(t + [es[0]]) && AllSucceed(w, t + [es[0]], es[1..])
  }

  /**
   * Making the awaited calls `calls` one after another, starting after trace
   * `t`: the first call that throws ends the sequence and its error propagates.
   */
  function Perform(w: World, t: seq<Event>, calls: seq<Event>): (e: Effect)
    ensures |e.events| <= |calls| && e.events == calls[..|e.events|]
    ensures e.outcome.Done? ==> e.events == calls
    ensures e.outcome.Threw? ==>
              && |e.events| > 0
              && w.fails(t + e.events)
              && e.outcome.error == Thrown(e.events[|e.events| - 1])
    decreases |calls|
  {
    if calls == [] then Effect([], Done)
    else if w.fails(t + [calls[0]]) then Effect([calls[0]], Threw(Thrown(calls[0])))
    else
      var rest := Perform(w, t + [calls[0]], calls[1..]);
      assert t + [calls[0]] + rest.events == t + ([calls[0]] + rest.events);
      assert calls[..|rest.events| + 1] == [calls[0]] + calls[1..][..|rest.events|];
      Effect([calls[0]] + rest.events, rest.outcome)
  }

  /** The first call of a sequence either throws, ending it, or is followed by the rest. */
  lemma PerformCons(w: World, t: seq<Event>, c: Event, rest: seq<Event>)
    ensures Perform(w, t, [c] + rest)
              == if w.fails(t + [c]) then Effect([c], Threw(Thrown(c)))
                 else Effect([c] + Perform(w, t + [c], rest).events, Perform(w, t + [c], rest).outcome)
  {
    assert ([c] + rest)[0] == c && ([c] + rest)[1..] == rest;
  }

  /** A single call: it is made, and it ends the way the world decides. */
  lemma PerformOne(w: World, t: seq<Event>, c: Event)
    ensures Perform(w, t, [c]) == Effect([c], if w.fails(t + [c]) then Threw(Thrown(c)) else Done)
  {
    PerformCons(w, t, c, []);
    assert [c] + [] == [c];
  }

  /** Perform ends normally exactly when every call succeeds, and otherwise at the first call that throws. */
  lemma {:induction false} PerformCharacterized(w: World, t: seq<Event>, calls: seq<Event>)
    ensures var e := Perform(w, t, calls);
            && (e.outcome.Done? <==> AllSucceed(w, t, calls))
            && (e.outcome.Threw? ==> AllSucceed(w, t, e.events[..|e.events| - 1]))
    decreases |calls|
  {
    if calls != [] {
      var c := calls[0];
      assert [c] + calls[1..] == calls;
      AllSucceedCons(w, t, c, calls[1..]);
      if !w.fails(t + [c]) {
        var rest := Perform(w, t + [c], calls[1..]);
        PerformCharacterized(w, t + [c], calls[1..]);
        if rest.outcome.Threw? {
          assert ([c] + rest.events)[..|rest.events|] == [c] + rest.events[..|rest.events| - 1];
          AllSucceedCons(w, t, c, rest.events[..|rest.events| - 1]);
        }
      } else {
        assert ([c])[..0] == [];
      }
    }
  }

  lemma AllSucceedCons(w: World, t: seq<Event>, c: Event, es: seq<Event>)
    ensures AllSucceed(w, t, [c] + es) <==> !w.fails(t + [c]) && AllSucceed(w, t + [c], es)
  {
    assert ([c] + es)[0] == c && ([c] + es)[1..] == es;
  }

  /** Calls that all succeed can be split off the front of a longer sequence. */
  lemma {:induction false} PerformAfterSuccess(w: World, t: seq<Event>, a: seq<Event>, b: seq<Event>)
    requires AllSucceed(w, t, a)
    ensures Perform(w, t, a + b) == Effect(a + Perform(w, t + a, b).events, Perform(w, t + a, b).outcome)
    decreases |a|
  {
    if a == [] {
      assert a + b == b && t + a == t;
    } else {
      var c, tail := a[0], a[1..];
      assert a == [c] + tail;
      AllSucceedCons(w, t, c, tail);
      var ab := a + b;
      assert ab != [] && ab[0] == c && ab[1..] == tail + b;
      PerformAfterSuccess(w, t + [c], tail, b);
      ConsAssoc(t, c, tail);
      var after := Perform(w, t + a, b);
      var inner := Perform(w, t + [c], tail + b);
      assert inner == Effect(tail + after.events, after.outcome);
      assert Perform(w, t, ab) == Effect([c] + inner.events, inner.outcome);
      assert [c] + (tail + after.events) == a + after.events;
    }
  }

  /** Calls followed by more calls: the second part is made only when the first ends normally. */
  lemma PerformSplit(w: World, t: seq<Event>, a: seq<Event>, b: seq<Event>)
    ensures Perform(w, t, a + b)
              == if Perform(w, t, a).outcome.Threw? then Perform(w, t, a)
                 else Effect(a + Perform(w, t + a, b).events, Perform(w, t + a, b).outcome)
  {
    if Perform(w, t, a).outcome.Threw? {
      PerformThrowsEarly(w, t, a, b);
    } else {
      PerformCharacterized(w, t, a);
      PerformAfterSuccess(w, t, a, b);
    }
  }

  lemma ConsAssoc(t: seq<Event>, c: Event, tail: seq<Event>)
    ensures t + [c] + tail == t + ([c] + tail)
  {
  }

  /** A call that throws ends the sequence, whatever would have come after it. */
  lemma PerformStopsAtFailure(w: World, t: seq<Event>, a: seq<Event>, c: Event, b: seq<Event>)
    requires AllSucceed(w, t, a)
    requires w.fails(t + a + [c])
    ensures Perform(w, t, a + [c] + b) == Effect(a + [c], Threw(Thrown(c)))
  {
    PerformAfterSuccess(w, t, a, [c] + b);
    assert a + [c] + b == a + ([c] + b);
  }

  /** Once a prefix of the calls throws, whatever follows it is never made. */
  lemma {:induction false} PerformThrowsEarly(w: World, t: seq<Event>, a: seq<Event>, b: seq<Event>)
    requires Perform(w, t, a).outcome.Threw?
    ensures Perform(w, t, a + b) == Perform(w, t, a)
    decreases |a|
  {
    var c := a[0];
    assert (a + b)[0] == c && (a + b)[1..] == a[1..] + b;
    if !w.fails(t + [c]) {
      PerformThrowsEarly(w, t + [c], a[1..], b);
    }
  }

  /** Calls that all succeed are all made. */
  lemma PerformAllSucceed(w: World, t: seq<Event>, a: seq<Event>)
    requires AllSucceed(w, t, a)
    ensures Perform(w, t, a) == Effect(a, Done)
  {
    PerformAfterSuccess(w, t, a, []);
    assert a + [] == a;
  }

  /** One more successful call extends the successful prefix. */
  lemma {:induction false} AllSucceedSnoc(w: World, t: seq<Event>, a: seq<Event>, c: Event)
    requires AllSucceed(w, t, a)
    requires !w.fails(t + a + [c])
    ensures AllSucceed(w, t, a + [c])
    decreases |a|
  {
    if a == [] {
      assert a + [c] == [c] && t + a == t;
      AllSucceedCons(w, t, c, []);
    } else {
      assert a + [c] == [a[0]] + (a[1..] + [c]);
      assert t + [a[0]] + a[1..] + [c] == t + a + [c];
      AllSucceedSnoc(w, t + [a[0]], a[1..], c);
      AllSucceedCons(w, t, a[0], a[1..] + [c]);
    }
  }

  /** Handler calls followed by handler calls are handler calls, and the last call is the last of the second part. */
  lemma HandlerCallsAppend(a: seq<Event>, b: seq<Event>)
    requires AllHandlerCalls(a) && AllHandlerCalls(b)
    ensures AllHandlerCalls(a + b)
    ensures b != [] ==> (a + b)[|a + b| - 1] == b[|b| - 1]
  {
    forall i | 0 <= i < |a + b| ensures IsHandlerCall((a + b)[i]) {
      if i >= |a| {
        assert (a + b)[i] == b[i - |a|];
      }
    }
  }

  /** A handler only makes handler calls, so neither does any prefix of them. */
  lemma PerformMakesHandlerCalls(w: World, t: seq<Event>, calls: seq<Event>)
    requires AllHandlerCalls(calls)
    ensures AllHandlerCalls(Perform(w, t, calls).events)
  {
    var e := Perform(w, t, calls);
    forall i | 0 <= i < |e.events| ensures IsHandlerCall(e.events[i]) {
      assert e.events[i] == calls[..|e.events|][i] == calls[i];
    }
  }
}
