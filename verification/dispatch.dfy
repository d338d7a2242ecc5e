/**
 * What `executeStep` in src/core/agent_core.ts does with one step: the
 * calls its handler makes, in order, how it ends, and the drafts that an
 * analyze step asks the store to insert. The step's type is compared by
 * strict equality, so a type the switch does not list does nothing at all,
 * whatever parameters it carries.
 */
module StepDispatch {
  import opened Wrappers
  import opened Json
  import opened UiConstants
  import opened Collaborators
  import opened TaskTypes
  import opened PlanExpansion

  /** `step.params?.key` */
  function Param(step: TaskStep, key: string): Value {
    OptGet(step.params, key)
  }

  /** A perception call with an empty instruction and a prompt file without substitutions. */
  function Consult(file: string): Event {
    Perceive(Str(""), Some(Prompt(file, map[])))
  }

  /** The step types the switch of `executeStep` lists. */
  const KnownKinds: set<Value> := {
    Str("search_contact"), Str("enter_chat"), Str("type_text"), Str("click_send"),
    Str("navigate_to"), Str("browse_moments"), Str("check_new_messages"),
    Str("check_sent_messages"), Str("get_contact_chat_records"), Str("analyze"),
    Str("tap"), Str("input"), Str("scroll")}

  // ----- handlers that are a fixed sequence of awaited calls -----

  /** `handleSearchContact`: tap the search bar, type the name if there is one, then ask the oracle to verify the results. */
  function SearchContactCalls(step: TaskStep): seq<Event> {
    var name := Param(step, "name");
    [TapAt(SearchBar)]
      + (if Truthy(name) then [Input(name)] else [])
      + [Perceive(Str(""), Some(Prompt("verify_search.md", map["name" := Or(name, Str(""))])))]
  }

  /** `handleTypeText`: focus the input area, then type the content if there is one. */
  function TypeTextCalls(step: TaskStep): seq<Event> {
    var content := Param(step, "content");
    [TapAt(ChatInputArea)] + (if Truthy(content) then [Input(content)] else [])
  }

  /** Names every plain object inherits from `Object.prototype`; looking one of them up in an object literal finds a truthy value. */
  const ObjectPrototypeKeys: set<string> := {
    "constructor", "hasOwnProperty", "isPrototypeOf", "propertyIsEnumerable",
    "toLocaleString", "toString", "valueOf", "__proto__",
    "__defineGetter__", "__defineSetter__", "__lookupGetter__", "__lookupSetter__"}

  /**
   * `map[target]` on the navigation table. The four tabs give their
   * coordinates; an inherited member is truthy but has no `x` or `y`, so the
   * tap gets `undefined` twice.
   */
  function NavigationTap(target: string): Option<Event> {
    if target == "chat" then Some(TapAt(NavChat))
    else if target == "contacts" then Some(TapAt(NavContacts))
    else if target == "moments" then Some(TapAt(NavMoments))
    else if target == "favorites" then Some(TapAt(NavFavorites))
    else if target in ObjectPrototypeKeys then Some(Tap(Undefined, Undefined))
    else None
  }

  /** `handleNavigateTo`: one tap when the target is found, nothing otherwise. */
  function NavigateToCalls(step: TaskStep): seq<Event> {
    var target := Param(step, "target");
    if Truthy(target) && target.Str? && NavigationTap(target.s).Some? then [NavigationTap(target.s).value] else []
  }

  /** `step.params?.count || 3` */
  function BrowseCount(step: TaskStep): Value {
    Or(Param(step, "count"), Num(3))
  }

  /** One round of `handleBrowseMoments`: analyze the feed, then scroll down by 1000. */
  function BrowseRound(): seq<Event> {
    [Consult("analyze_feed.md"), Scroll(Str("down"), Num(1000))]
  }

  /** `n` rounds of browsing. */
  function BrowseCalls(n: nat): (r: seq<Event>)
    ensures |r| == 2 * n
  {
    if n == 0 then [] else BrowseRound() + BrowseCalls(n - 1)
  }

  /** Browsing `a + b` rounds is browsing `a` rounds and then `b` more. */
  lemma {:induction false} BrowseCallsAppend(a: nat, b: nat)
    ensures BrowseCalls(a + b) == BrowseCalls(a) + BrowseCalls(b)
  {
    if a > 0 {
      BrowseCallsAppend(a - 1, b);
      assert BrowseCalls(a + b) == BrowseRound() + BrowseCalls(a - 1 + b);
      assert BrowseRound() + (BrowseCalls(a - 1) + BrowseCalls(b)) == (BrowseRound() + BrowseCalls(a - 1)) + BrowseCalls(b);
    } else {
      assert BrowseCalls(0) + BrowseCalls(b) == BrowseCalls(b);
    }
  }

  /** Round `i` of `n` analyzes the feed and then scrolls down once, so `n` rounds scroll `n` times. */
  lemma {:induction false} BrowseCallsShape(n: nat)
    ensures forall i :: 0 <= i < n ==>
              BrowseCalls(n)[2 * i] == Consult("analyze_feed.md") && BrowseCalls(n)[2 * i + 1] == Scroll(Str("down"), Num(1000))
  {
    if n > 0 {
      BrowseCallsShape(n - 1);
      var r, rest := BrowseCalls(n), BrowseCalls(n - 1);
      assert r == BrowseRound() + rest;
      forall i | 0 <= i < n
        ensures r[2 * i] == Consult("analyze_feed.md") && r[2 * i + 1] == Scroll(Str("down"), Num(1000))
      {
        if i > 0 {
          var j := i - 1;
          assert r[2 * i] == rest[2 * j] && r[2 * i + 1] == rest[2 * j + 1];
        }
      }
    }
  }

  /**
   * Round `i` of `n` of browsing, once the earlier rounds succeeded: if the
   * feed analysis or the scroll throws, that ends the whole step there;
   * otherwise one more round has succeeded.
   */
  lemma BrowseTurn(w: World, t0: seq<Event>, i: nat, n: nat)
    requires i < n && AllSucceed(w, t0, BrowseCalls(i))
    ensures var feed, scroll := Consult("analyze_feed.md"), Scroll(Str("down"), Num(1000));
            var t := t0 + BrowseCalls(i);
            && (w.fails(t + [feed]) ==>
                  Perform(w, t0, BrowseCalls(n)) == Effect(BrowseCalls(i) + [feed], Threw(Thrown(feed))))
            && (!w.fails(t + [feed]) && w.fails(t + [feed] + [scroll]) ==>
                  Perform(w, t0, BrowseCalls(n)) == Effect(BrowseCalls(i) + [feed] + [scroll], Threw(Thrown(scroll))))
            && (!w.fails(t + [feed]) && !w.fails(t + [feed] + [scroll]) ==>
                  AllSucceed(w, t0, BrowseCalls(i + 1)) && t + [feed] + [scroll] == t0 + BrowseCalls(i + 1))
            && t + [feed] == t0 + (BrowseCalls(i) + [feed])
            && t + [feed] + [scroll] == t0 + (BrowseCalls(i) + [feed] + [scroll])
  {
    var feed, scroll := Consult("analyze_feed.md"), Scroll(Str("down"), Num(1000));
    var b := BrowseCalls(i);
    assert t0 + b + [feed] == t0 + (b + [feed]);
    assert t0 + (b + [feed]) + [scroll] == t0 + (b + [feed] + [scroll]);
    BrowseSplit(i, n);
    BrowseFeedFails(w, t0, i, n);
    BrowseScrollFails(w, t0, i, n);
    BrowseRoundSucceeds(w, t0, i, n);
  }

  /** The feed analysis of round `i` throws: browsing ends there. */
  lemma BrowseFeedFails(w: World, t0: seq<Event>, i: nat, n: nat)
    requires i < n && AllSucceed(w, t0, BrowseCalls(i))
    ensures var feed := Consult("analyze_feed.md");
            w.fails(t0 + BrowseCalls(i) + [feed]) ==>
              Perform(w, t0, BrowseCalls(n)) == Effect(BrowseCalls(i) + [feed], Threw(Thrown(feed)))
  {
    var feed, scroll := Consult("analyze_feed.md"), Scroll(Str("down"), Num(1000));
    BrowseSplit(i, n);
    if w.fails(t0 + BrowseCalls(i) + [feed]) {
      PerformStopsAtFailure(w, t0, BrowseCalls(i), feed, [scroll] + BrowseCalls(n - i - 1));
    }
  }

  /** The scroll of round `i` throws after its feed analysis succeeded: browsing ends there. */
  lemma BrowseScrollFails(w: World, t0: seq<Event>, i: nat, n: nat)
    requires i < n && AllSucceed(w, t0, BrowseCalls(i))
    ensures var feed, scroll := Consult("analyze_feed.md"), Scroll(Str("down"), Num(1000));
            var made := BrowseCalls(i) + [feed];
            !w.fails(t0 + BrowseCalls(i) + [feed]) && w.fails(t0 + BrowseCalls(i) + [feed] + [scroll]) ==>
              Perform(w, t0, BrowseCalls(n)) == Effect(made + [scroll], Threw(Thrown(scroll)))
  {
    var feed, scroll := Consult("analyze_feed.md"), Scroll(Str("down"), Num(1000));
    var made := BrowseCalls(i) + [feed];
    if !w.fails(t0 + BrowseCalls(i) + [feed]) && w.fails(t0 + BrowseCalls(i) + [feed] + [scroll]) {
      BrowseSplit(i, n);
      AllSucceedSnoc(w, t0, BrowseCalls(i), feed);
      assert t0 + made + [scroll] == t0 + BrowseCalls(i) + [feed] + [scroll];
      PerformStopsAtFailure(w, t0, made, scroll, BrowseCalls(n - i - 1));
    }
  }

  /** Both calls of round `i` succeed: one more round has succeeded. */
  lemma BrowseRoundSucceeds(w: World, t0: seq<Event>, i: nat, n: nat)
    requires i < n && AllSucceed(w, t0, BrowseCalls(i))
    ensures var feed, scroll := Consult("analyze_feed.md"), Scroll(Str("down"), Num(1000));
            !w.fails(t0 + BrowseCalls(i) + [feed]) && !w.fails(t0 + BrowseCalls(i) + [feed] + [scroll]) ==>
              AllSucceed(w, t0, BrowseCalls(i + 1))
  {
    var feed, scroll := Consult("analyze_feed.md"), Scroll(Str("down"), Num(1000));
    if !w.fails(t0 + BrowseCalls(i) + [feed]) && !w.fails(t0 + BrowseCalls(i) + [feed] + [scroll]) {
      BrowseSplit(i, n);
      AllSucceedSnoc(w, t0, BrowseCalls(i), feed);
      assert t0 + (BrowseCalls(i) + [feed]) + [scroll] == t0 + BrowseCalls(i) + [feed] + [scroll];
      AllSucceedSnoc(w, t0, BrowseCalls(i) + [feed], scroll);
    }
  }

  /** The calls of `n` rounds around round `i`: the earlier rounds, its feed analysis and scroll, then the later rounds. */
  lemma BrowseSplit(i: nat, n: nat)
    requires i < n
    ensures var feed, scroll := Consult("analyze_feed.md"), Scroll(Str("down"), Num(1000));
            var later := BrowseCalls(n - i - 1);
            && BrowseCalls(i + 1) == BrowseCalls(i) + [feed] + [scroll]
            && BrowseCalls(n) == BrowseCalls(i) + [feed] + ([scroll] + later)
            && BrowseCalls(n) == BrowseCalls(i) + [feed] + [scroll] + later
  {
    var feed, scroll := Consult("analyze_feed.md"), Scroll(Str("down"), Num(1000));
    BrowseCallsAppend(i, 1);
    BrowseCallsAppend(i + 1, n - i - 1);
    assert BrowseCalls(1) == [feed, scroll] + [];
    assert BrowseCalls(i + 1) == BrowseCalls(i) + [feed] + [scroll];
  }

  /** The handlers whose calls are fixed once the step is known; an unlisted type makes no call. */
  function StraightCalls(step: TaskStep): seq<Event> {
    var kind := step.kind;
    if kind == Str("search_contact") then SearchContactCalls(step)
    else if kind == Str("enter_chat") then [TapAt(SearchResultFirst)]
    else if kind == Str("type_text") then TypeTextCalls(step)
    else if kind == Str("click_send") then [TapAt(SendButton)]
    else if kind == Str("navigate_to") then NavigateToCalls(step)
    else if kind == Str("browse_moments") then BrowseCalls(Iterations(BrowseCount(step)))
    else if kind == Str("check_sent_messages") then [Consult("verify_sent.md")]
    else if kind == Str("get_contact_chat_records") then [Consult("extract_chat.md")]
    else if kind == Str("tap") then
      var x, y := Param(step, "x"), Param(step, "y");
      if Truthy(x) && Truthy(y) then [Tap(x, y)] else []
    else if kind == Str("input") then
      var text := Param(step, "text");
      if Truthy(text) then [Input(text)] else []
    else if kind == Str("scroll") then
      var direction := Param(step, "direction");
      if Truthy(direction) then [Scroll(direction, Or(Param(step, "magnitude"), Num(500)))] else []
    else []
  }

  /** The fixed-call handlers only tap, type, scroll and perceive. */
  lemma StraightCallsAreHandlerCalls(step: TaskStep)
    ensures AllHandlerCalls(StraightCalls(step))
  {
    if step.kind == Str("browse_moments") {
      var n := Iterations(BrowseCount(step));
      var r := BrowseCalls(n);
      BrowseCallsShape(n);
      forall i | 0 <= i < |r| ensures IsHandlerCall(r[i]) {
        var j := i / 2;
        assert i == 2 * j || i == 2 * j + 1;
      }
    }
  }

  // ----- handleCheckNewMessages -----

  /** Opening one unread chat: tap where the oracle located it, then extract its content. */
  function ReadCalls(chat: Value): seq<Event>
    requires !Nullish(chat)
  {
    [Tap(Get(chat, "x"), Get(chat, "y")), Consult("extract_chat.md")]
  }

  /** How many of `available` chats the loop opens, starting with `processed` already read, when none throws. */
  function ReadQuota(processed: nat, limit: Value, available: nat): (k: nat)
    ensures k <= available
  {
    match ToNumber(limit)
    case None => available
    case Some(n) => if n <= processed then 0 else if n - processed < available then n - processed else available
  }

  /** Every chat of `chats` can be read without a TypeError. */
  predicate NoNullChat(chats: seq<Value>) {
    forall i :: 0 <= i < |chats| ==> !Nullish(chats[i])
  }

  /** The calls of reading every chat in the list: a tap and an extraction per chat. */
  function ReadAll(chats: seq<Value>): (r: seq<Event>)
    requires NoNullChat(chats)
    ensures |r| == 2 * |chats|
  {
    if chats == [] then [] else ReadCalls(chats[0]) + ReadAll(chats[1..])
  }

  /** `done` calls made before the effect `e`. */
  function After(done: seq<Event>, e: Effect): Effect {
    Effect(done + e.events, e.outcome)
  }

  /**
   * The `for (const chat of unreadChats)` loop: it stops once `processed >=
   * limit`; logging `chat.name` throws on a null entry; otherwise it taps
   * the chat and extracts its content.
   */
  function ReadChats(w: World, t: seq<Event>, chats: seq<Value>, processed: nat, limit: Value): Effect
    decreases |chats|
  {
    if chats == [] || AtLeast(processed, limit) then Effect([], Done)
    else if Nullish(chats[0]) then Effect([], Threw(TypeError("reading 'name' of a null chat")))
    else
      var calls := ReadCalls(chats[0]);
      var first := Perform(w, t, calls);
      if first.outcome.Threw? then first
      else After(calls, ReadChats(w, t + calls, chats[1..], processed + 1, limit))
  }

  /**
   * What the chat loop may do with a quota of `quota` chats: at most two
   * calls per chat, only handler calls, and a collaborator error that is
   * its last call, the one the world made fail.
   */
  predicate ReadWithin(w: World, t: seq<Event>, e: Effect, quota: nat) {
    && |e.events| <= 2 * quota
    && AllHandlerCalls(e.events)
    && (e.outcome.Threw? && e.outcome.error.Thrown? ==>
          e.events != [] && e.outcome.error.call == e.events[|e.events| - 1] && w.fails(t + e.events))
  }

  /** The chat loop stays within its quota. */
  lemma {:induction false} ReadChatsCalls(w: World, t: seq<Event>, chats: seq<Value>, processed: nat, limit: Value)
    ensures ReadWithin(w, t, ReadChats(w, t, chats, processed, limit), ReadQuota(processed, limit, |chats|))
    decreases |chats|
  {
    ReadQuotaStep(processed, limit, |chats|);
    if chats != [] && !AtLeast(processed, limit) && !Nullish(chats[0]) {
      var calls := ReadCalls(chats[0]);
      PerformMakesHandlerCalls(w, t, calls);
      if !Perform(w, t, calls).outcome.Threw? {
        var rest := ReadChats(w, t + calls, chats[1..], processed + 1, limit);
        ReadChatsCalls(w, t + calls, chats[1..], processed + 1, limit);
        ReadWithinAfter(w, t, calls, rest, ReadQuota(processed + 1, limit, |chats| - 1));
      }
    }
  }

  /** One chat's two calls followed by the rest of the loop within its quota use one more chat of the quota. */
  lemma ReadWithinAfter(w: World, t: seq<Event>, calls: seq<Event>, rest: Effect, quota: nat)
    requires |calls| == 2 && AllHandlerCalls(calls)
    requires ReadWithin(w, t + calls, rest, quota)
    ensures ReadWithin(w, t, After(calls, rest), quota + 1)
  {
    HandlerCallsAppend(calls, rest.events);
    assert t + calls + rest.events == t + (calls + rest.events);
  }

  /**
   * What `handleCheckNewMessages` does once the find call answered `found`:
   * reading `unreadChats` of a null answer throws; a missing, falsy or
   * empty list ends the step; a list that `for ... of` cannot iterate
   * throws; otherwise the loop over the chats runs. Only handler calls are
   * made, and a collaborator error is the last of them.
   */
  function ReadUnreadResult(w: World, t: seq<Event>, found: Value, limit: Value): (e: Effect)
    ensures AllHandlerCalls(e.events)
    ensures e.outcome.Threw? && e.outcome.error.Thrown? ==>
              e.events != [] && e.outcome.error.call == e.events[|e.events| - 1] && w.fails(t + e.events)
  {
    if Nullish(found) then Effect([], Threw(TypeError("reading 'unreadChats' of a null result")))
    else
      var unread := Or(Get(found, "unreadChats"), Arr([]));
      if Get(unread, "length") == Num(0) then Effect([], Done)
      else
        match Iterate(unread)
        case None => Effect([], Threw(TypeError("unreadChats is not iterable")))
        case Some(chats) =>
          ReadChatsCalls(w, t, chats, 0, limit);
          ReadChats(w, t, chats, 0, limit)
  }

  /** `handleCheckNewMessages`: the find call, then what its answer leads to. */
  function CheckNewMessages(w: World, t: seq<Event>, step: TaskStep): (e: Effect)
    ensures e.events != [] && e.events[0] == Consult("find_unread.md")
    ensures AllHandlerCalls(e.events)
    ensures e.outcome.Threw? && e.outcome.error.Thrown? ==>
              e.outcome.error.call == e.events[|e.events| - 1] && w.fails(t + e.events)
  {
    var ask := Consult("find_unread.md");
    if w.fails(t + [ask]) then Effect([ask], Threw(Thrown(ask)))
    else
      var rest := ReadUnreadResult(w, t + [ask], w.answer(t + [ask]), Or(Param(step, "limit"), Num(5)));
      assert t + [ask] + rest.events == t + ([ask] + rest.events);
      HandlerCallsAppend([ask], rest.events);
      After([ask], rest)
  }

  /** The loop's stop test agrees with the quota: it stops exactly when the quota is used up. */
  lemma ReadQuotaStep(processed: nat, limit: Value, available: nat)
    ensures AtLeast(processed, limit) ==> ReadQuota(processed, limit, available) == 0
    ensures !AtLeast(processed, limit) && available > 0 ==>
              ReadQuota(processed, limit, available) == ReadQuota(processed + 1, limit, available - 1) + 1
  {
  }

  lemma ReadAllCons(chats: seq<Value>, k: nat)
    requires 0 < k <= |chats| && NoNullChat(chats[..k])
    ensures NoNullChat(chats[1..][..k - 1])
    ensures ReadAll(chats[..k]) == ReadCalls(chats[0]) + ReadAll(chats[1..][..k - 1])
  {
    assert chats[..k][0] == chats[0];
    assert chats[..k][1..] == chats[1..][..k - 1];
  }

  /** One turn of the loop over a chat that is there, not null, and within the limit. */
  lemma ReadChatsUnfold(w: World, t: seq<Event>, chats: seq<Value>, processed: nat, limit: Value)
    requires chats != [] && !AtLeast(processed, limit) && !Nullish(chats[0])
    ensures var calls := ReadCalls(chats[0]);
            var rest := ReadChats(w, t + calls, chats[1..], processed + 1, limit);
            ReadChats(w, t, chats, processed, limit)
              == if Perform(w, t, calls).outcome.Threw? then Perform(w, t, calls) else Effect(calls + rest.events, rest.outcome)
  {
  }

  lemma AfterAfter(done: seq<Event>, calls: seq<Event>, e: Effect)
    ensures After(done, After(calls, e)) == After(done + calls, e)
  {
    assert done + (calls + e.events) == done + calls + e.events;
  }

  /**
   * The chat loop, resumed after `made` calls from `t0` on the chats from
   * some point on, ends at the limit or the end of the list without a call,
   * and throws on a null chat.
   */
  lemma ReadStops(w: World, t: seq<Event>, chats: seq<Value>, processed: nat, limit: Value, made: seq<Event>, whole: Effect)
    requires whole == After(made, ReadChats(w, t, chats, processed, limit))
    ensures chats == [] || AtLeast(processed, limit) ==> whole == Effect(made, Done)
    ensures chats != [] && !AtLeast(processed, limit) && Nullish(chats[0]) ==>
              whole == Effect(made, Threw(TypeError("reading 'name' of a null chat")))
  {
    assert made + [] == made;
  }

  /**
   * One turn of the resumed chat loop on a chat that is there, not null and
   * within the limit: its two calls end the loop if one throws, and
   * otherwise the loop goes on after them with one more chat processed.
   */
  lemma ReadStep(w: World, t0: seq<Event>, t: seq<Event>, chats: seq<Value>, processed: nat, limit: Value,
                 made: seq<Event>, whole: Effect)
    requires t == t0 + made
    requires whole == After(made, ReadChats(w, t, chats, processed, limit))
    requires chats != [] && !AtLeast(processed, limit) && !Nullish(chats[0])
    ensures var calls := ReadCalls(chats[0]);
            var first := Perform(w, t, calls);
            && t + first.events == t0 + (made + first.events)
            && t + calls == t0 + (made + calls)
            && (first.outcome.Threw? ==> whole == After(made, first))
            && (!first.outcome.Threw? ==> whole == After(made + calls, ReadChats(w, t + calls, chats[1..], processed + 1, limit)))
  {
    var calls := ReadCalls(chats[0]);
    ReadChatsUnfold(w, t, chats, processed, limit);
    if !Perform(w, t, calls).outcome.Threw? {
      AfterAfter(made, calls, ReadChats(w, t + calls, chats[1..], processed + 1, limit));
    }
  }

  /** The cases of `handleCheckNewMessages` up to its loop over the unread chats. */
  lemma CheckNewMessagesCases(w: World, t: seq<Event>, step: TaskStep)
    ensures var find := Consult("find_unread.md");
            var e := CheckNewMessages(w, t, step);
            && (w.fails(t + [find]) ==> e == Effect([find], Threw(Thrown(find))))
            && (!w.fails(t + [find]) ==>
                  var found := w.answer(t + [find]);
                  && (Nullish(found) ==> e == Effect([find], Threw(TypeError("reading 'unreadChats' of a null result"))))
                  && (!Nullish(found) ==>
                        var unread := Or(Get(found, "unreadChats"), Arr([]));
                        && (Get(unread, "length") == Num(0) ==> e == Effect([find], Done))
                        && (Get(unread, "length") != Num(0) && Iterate(unread).None? ==>
                              e == Effect([find], Threw(TypeError("unreadChats is not iterable"))))
                        && (Get(unread, "length") != Num(0) && Iterate(unread).Some? ==>
                              e == After([find], ReadChats(w, t + [find], Iterate(unread).value, 0, Or(Param(step, "limit"), Num(5)))))))
  {
  }

  /**
   * When none of the chats it reaches is null, the loop is exactly the
   * chats up to the quota read one after the other, in the oracle's order.
   */
  lemma {:induction false} ReadChatsInOrder(w: World, t: seq<Event>, chats: seq<Value>, processed: nat, limit: Value, k: nat)
    requires k == ReadQuota(processed, limit, |chats|)
    requires NoNullChat(chats[..k])
    ensures ReadChats(w, t, chats, processed, limit) == Perform(w, t, ReadAll(chats[..k]))
    decreases |chats|
  {
    ReadQuotaStep(processed, limit, |chats|);
    if chats == [] || AtLeast(processed, limit) {
      assert chats[..k] == [];
    } else {
      ReadAllCons(chats, k);
      ReadChatsInOrder(w, t + ReadCalls(chats[0]), chats[1..], processed + 1, limit, k - 1);
      ReadChatsStep(w, t, chats, processed, limit, k);
    }
  }

  /** The inductive step of ReadChatsInOrder: the first chat's calls, then the rest of the loop. */
  lemma ReadChatsStep(w: World, t: seq<Event>, chats: seq<Value>, processed: nat, limit: Value, k: nat)
    requires chats != [] && !AtLeast(processed, limit)
    requires k == ReadQuota(processed, limit, |chats|) && 0 < k
    requires NoNullChat(chats[..k])
    requires ReadChats(w, t + ReadCalls(chats[0]), chats[1..], processed + 1, limit)
               == Perform(w, t + ReadCalls(chats[0]), ReadAll(chats[1..][..k - 1]))
    ensures ReadChats(w, t, chats, processed, limit) == Perform(w, t, ReadAll(chats[..k]))
  {
    ReadAllCons(chats, k);
    ReadChatsUnfold(w, t, chats, processed, limit);
    PerformSplit(w, t, ReadCalls(chats[0]), ReadAll(chats[1..][..k - 1]));
  }

  // ----- handleAnalyze -----

  /** `step.params?.instruction || step.description` */
  function AnalyzeInstruction(step: TaskStep): Value {
    Or(Param(step, "instruction"), step.description)
  }

  /** What one step did: its calls and outcome, and the drafts it handed to the store for insertion. */
  datatype Dispatched = Dispatched(effect: Effect, inserted: seq<StepDraft>)

  /** `handleAnalyze`: one free-form perception call, then plan expansion of its result. */
  function Analyze(w: World, t: seq<Event>, step: TaskStep): Dispatched {
    var ask := Perceive(AnalyzeInstruction(step), None);
    if w.fails(t + [ask]) then Dispatched(Effect([ask], Threw(Thrown(ask))), [])
    else
      match Expand(w.answer(t + [ask]))
      case Err(e) => Dispatched(Effect([ask], Threw(e)), [])
      case Ok(drafts) => Dispatched(Effect([ask], Done), drafts)
  }

  /**
   * `executeStep`. Only an analyze step inserts, and only when it ends
   * normally; a collaborator error is always the last call made, the one
   * the world made fail; and a handler only actuates and perceives.
   */
  function Handle(w: World, t: seq<Event>, step: TaskStep): (d: Dispatched)
    ensures d.inserted != [] ==> step.kind == Str("analyze") && d.effect.outcome.Done?
    ensures d.effect.outcome.Threw? && d.effect.outcome.error.Thrown? ==>
              && d.effect.events != []
              && d.effect.outcome.error.call == d.effect.events[|d.effect.events| - 1]
              && w.fails(t + d.effect.events)
    ensures AllHandlerCalls(d.effect.events)
  {
    if step.kind == Str("analyze") then Analyze(w, t, step)
    else if step.kind == Str("check_new_messages") then
      Dispatched(CheckNewMessages(w, t, step), [])
    else
      StraightCallsAreHandlerCalls(step);
      PerformMakesHandlerCalls(w, t, StraightCalls(step));
      Dispatched(Perform(w, t, StraightCalls(step)), [])
  }

  // ----- properties of dispatch -----

  /**
   * A type the switch does not list makes no call and succeeds, even when
   * its parameters carry a coordinate pair: there is no fallback to a tap.
   */
  lemma NoCoordinateFallback(w: World, t: seq<Event>, step: TaskStep)
    requires step.kind !in KnownKinds
    ensures Handle(w, t, step) == Dispatched(Effect([], Done), [])
  {
  }

  /** A tap step taps exactly when both `x` and `y` are truthy, and then at those values. */
  lemma TapNeedsBothCoordinates(w: World, t: seq<Event>, step: TaskStep)
    requires step.kind == Str("tap")
    ensures var x, y := Param(step, "x"), Param(step, "y");
            var d := Handle(w, t, step);
            && (d.effect.events != [] <==> Truthy(x) && Truthy(y))
            && (d.effect.events != [] ==> d.effect.events == [Tap(x, y)])
            && d.inserted == []
  {
  }

  /** A scroll step without a magnitude scrolls by 500. */
  lemma ScrollDefaultMagnitude(w: World, t: seq<Event>, step: TaskStep)
    requires step.kind == Str("scroll") && Truthy(Param(step, "direction")) && !Truthy(Param(step, "magnitude"))
    ensures Handle(w, t, step).effect.events == [Scroll(Param(step, "direction"), Num(500))]
  {
  }

  /** An input step types exactly when its `text` is truthy, and then that text. */
  lemma InputNeedsText(w: World, t: seq<Event>, step: TaskStep)
    requires step.kind == Str("input")
    ensures var text, d := Param(step, "text"), Handle(w, t, step);
            && (d.effect.events != [] <==> Truthy(text))
            && (d.effect.events != [] ==> d.effect.events == [Input(text)])
            && d.inserted == []
  {
  }

  /**
   * A scroll step scrolls exactly when its `direction` is truthy, in that
   * direction and by its magnitude, 500 when that is falsy.
   */
  lemma ScrollNeedsDirection(w: World, t: seq<Event>, step: TaskStep)
    requires step.kind == Str("scroll")
    ensures var direction, d := Param(step, "direction"), Handle(w, t, step);
            && (d.effect.events != [] <==> Truthy(direction))
            && (d.effect.events != [] ==> d.effect.events == [Scroll(direction, Or(Param(step, "magnitude"), Num(500)))])
            && d.inserted == []
  {
  }

  /**
   * Each of the four tabs is reached by one tap at its fixed position; a
   * target that is not one of them nor an inherited member of the lookup
   * table makes no call and succeeds.
   */
  lemma NavigateToTabs(w: World, t: seq<Event>, step: TaskStep)
    requires step.kind == Str("navigate_to")
    ensures Param(step, "target") == Str("chat") ==> StraightCalls(step) == [TapAt(NavChat)]
    ensures Param(step, "target") == Str("contacts") ==> StraightCalls(step) == [TapAt(NavContacts)]
    ensures Param(step, "target") == Str("moments") ==> StraightCalls(step) == [TapAt(NavMoments)]
    ensures Param(step, "target") == Str("favorites") ==> StraightCalls(step) == [TapAt(NavFavorites)]
    ensures var target := Param(step, "target");
            !(target.Str? && (target.s in {"chat", "contacts", "moments", "favorites"} || target.s in ObjectPrototypeKeys)) ==>
              Handle(w, t, step) == Dispatched(Effect([], Done), [])
  {
  }

  /**
   * A target named like a member of `Object.prototype` passes the lookup
   * of `handleNavigateTo` and produces a tap at undefined coordinates.
   */
  lemma NavigateToInheritedMember(step: TaskStep)
    requires step.kind == Str("navigate_to")
    requires Param(step, "target").Str? && Param(step, "target").s in ObjectPrototypeKeys
    ensures StraightCalls(step) == [Tap(Undefined, Undefined)]
  {
  }

  /**
   * Browsing without a count runs three rounds; when every call succeeds the
   * step analyzes the feed and scrolls down three times each, alternating.
   */
  lemma BrowseDefaultsToThreeRounds(w: World, t: seq<Event>, step: TaskStep)
    requires step.kind == Str("browse_moments") && !Truthy(Param(step, "count"))
    requires AllSucceed(w, t, BrowseCalls(3))
    ensures StraightCalls(step) == BrowseCalls(3)
    ensures Handle(w, t, step).effect == Effect(BrowseCalls(3), Done)
    ensures |BrowseCalls(3)| == 6
  {
    BrowseWithoutCount(step);
    assert Handle(w, t, step) == Dispatched(Perform(w, t, BrowseCalls(3)), []);
    PerformAllSucceed(w, t, BrowseCalls(3));
  }

  /** Without a count, the browse handler's calls are those of three rounds. */
  lemma BrowseWithoutCount(step: TaskStep)
    requires step.kind == Str("browse_moments") && !Truthy(Param(step, "count"))
    ensures StraightCalls(step) == BrowseCalls(3)
  {
    assert Iterations(BrowseCount(step)) == 3;
  }

  /** A count the loop bound cannot read as a number (NaN) makes browsing do nothing. */
  lemma BrowseWithUnreadableCount(w: World, t: seq<Event>, step: TaskStep)
    requires step.kind == Str("browse_moments") && ToNumber(BrowseCount(step)).None?
    ensures Handle(w, t, step) == Dispatched(Effect([], Done), [])
  {
    assert Iterations(BrowseCount(step)) == 0;
    assert StraightCalls(step) == BrowseCalls(0) == [];
  }

  /**
   * A count given as a one-element array is read through the element's
   * string form: `[2]` browses two rounds.
   */
  lemma BrowseWithWrappedCount(w: World, t: seq<Event>, step: TaskStep)
    requires step.kind == Str("browse_moments") && Param(step, "count") == Arr([Str("2")])
    requires AllSucceed(w, t, BrowseCalls(2))
    ensures Handle(w, t, step).effect == Effect(BrowseCalls(2), Done)
  {
    assert DigitsValue("2") == 2 by { assert "2"[..0] == ""; }
    assert StraightCalls(step) == BrowseCalls(2);
    PerformAllSucceed(w, t, BrowseCalls(2));
  }

  /** An unread list that is missing, falsy or of length 0 makes checking messages the one perception call. */
  lemma NoUnreadChats(w: World, t: seq<Event>, step: TaskStep)
    requires step.kind == Str("check_new_messages")
    requires !w.fails(t + [Consult("find_unread.md")])
    requires var found := w.answer(t + [Consult("find_unread.md")]);
             !Nullish(found) && Get(Or(Get(found, "unreadChats"), Arr([])), "length") == Num(0)
    ensures Handle(w, t, step) == Dispatched(Effect([Consult("find_unread.md")], Done), [])
  {
  }

  /**
   * Checking messages never opens more chats than the limit (5 by
   * default): at most one tap and one extraction per opened chat, after the
   * one call that finds them.
   */
  lemma CheckNewMessagesRespectsLimit(w: World, t: seq<Event>, step: TaskStep, n: nat)
    requires step.kind == Str("check_new_messages")
    requires ToNumber(Or(Param(step, "limit"), Num(5))) == Some(n)
    ensures |Handle(w, t, step).effect.events| <= 1 + 2 * n
  {
    var d := Handle(w, t, step);
    var ask := Consult("find_unread.md");
    if !w.fails(t + [ask]) && !Nullish(w.answer(t + [ask])) {
      var unread := Or(Get(w.answer(t + [ask]), "unreadChats"), Arr([]));
      if Get(unread, "length") != Num(0) && Iterate(unread).Some? {
        var chats := Iterate(unread).value;
        var rest := ReadChats(w, t + [ask], chats, 0, Or(Param(step, "limit"), Num(5)));
        ReadChatsCalls(w, t + [ask], chats, 0, Or(Param(step, "limit"), Num(5)));
        assert ReadQuota(0, Or(Param(step, "limit"), Num(5)), |chats|) <= n;
        assert d.effect.events == [ask] + rest.events;
      }
    }
  }

  /** An analyze step makes one perception call with its instruction, falling back to its description. */
  lemma AnalyzeAsksWithInstruction(w: World, t: seq<Event>, step: TaskStep)
    requires step.kind == Str("analyze")
    ensures Handle(w, t, step).effect.events == [Perceive(AnalyzeInstruction(step), None)]
    ensures !Truthy(Param(step, "instruction")) ==> AnalyzeInstruction(step) == step.description
  {
  }

  /** An analyze step whose oracle answer expands to drafts hands exactly those drafts to the store. */
  lemma AnalyzeInsertsExpansion(w: World, t: seq<Event>, step: TaskStep)
    requires step.kind == Str("analyze")
    requires !w.fails(t + [Perceive(AnalyzeInstruction(step), None)])
    ensures var answer := w.answer(t + [Perceive(AnalyzeInstruction(step), None)]);
            var d := Handle(w, t, step);
            && (d.effect.outcome.Done? <==> Expand(answer).Ok?)
            && (Expand(answer).Ok? ==> d.inserted == Expand(answer).value)
            && (Expand(answer).Err? ==> d.effect.outcome == Threw(Expand(answer).error))
  {
  }
}
