/**
 * How `handleAnalyze` in src/core/agent_core.ts turns the oracle's
 * `action_suggestion.steps` into step drafts: a `filter` that drops entries
 * without a truthy action or with the sentinel "END", then a `map` that
 * builds a draft from each entry and, for a tap, copies a coordinate pair
 * into `x` and `y`.
 */
module PlanExpansion {
  import opened Wrappers
  import opened Json
  import opened Collaborators
  import opened TaskTypes

  /** The sentinel action that ends a suggestion list. */
  const EndAction := Str("END")

  /** The filter's test: `s.action && s.action !== "END"`. */
  predicate Kept(s: Value)
    requires !Nullish(s)
  {
    var action := Get(s, "action");
    Truthy(action) && action != EndAction
  }

  /**
   * `steps.filter(...)`: the kept entries in their order. Reading `.action`
   * of a null entry throws, and then nothing is kept.
   */
  function KeepSuggestions(xs: seq<Value>): (r: Result<seq<Value>, Error>)
    ensures r.Err? ==> r.error.TypeError?
    ensures r.Ok? <==> forall i :: 0 <= i < |xs| ==> !Nullish(xs[i])
    ensures r.Ok? ==> |r.value| <= |xs| && forall i :: 0 <= i < |r.value| ==> !Nullish(r.value[i]) && Kept(r.value[i])
  {
    if xs == [] then Ok([])
    else if Nullish(xs[0]) then Err(TypeError("reading 'action' of a null suggestion"))
    else
      match KeepSuggestions(xs[1..])
      case Err(e) => Err(e)
      case Ok(rest) => Ok(if Kept(xs[0]) then [xs[0]] + rest else rest)
  }

  /** The filter keeps a single entry exactly when it passes the test. */
  lemma KeepSingle(x: Value)
    requires !Nullish(x)
    ensures KeepSuggestions([x]) == Ok(if Kept(x) then [x] else [])
  {
    assert [x][1..] == [];
    assert KeepSuggestions([]) == Ok([]);
    assert [x] + [] == [x];
  }

  /**
   * The filter works piecewise and keeps order: filtering a concatenation
   * is filtering each part and concatenating the results.
   */
  lemma {:induction false} KeepAppend(a: seq<Value>, b: seq<Value>)
    ensures KeepSuggestions(a + b).Ok? <==> KeepSuggestions(a).Ok? && KeepSuggestions(b).Ok?
    ensures KeepSuggestions(a + b).Ok? ==>
              KeepSuggestions(a + b).value == KeepSuggestions(a).value + KeepSuggestions(b).value
    decreases |a|
  {
    if a == [] {
      assert a + b == b;
    } else {
      assert (a + b)[0] == a[0] && (a + b)[1..] == a[1..] + b;
      KeepAppend(a[1..], b);
      if KeepSuggestions(a + b).Ok? {
        var rest := KeepSuggestions(a[1..]).value;
        var kb := KeepSuggestions(b).value;
        if Kept(a[0]) {
          assert [a[0]] + (rest + kb) == ([a[0]] + rest) + kb;
        }
      }
    }
  }

  /** The default description, `s.description || " visión suggested " + s.action`. */
  function Describe(s: Value, action: Value): Value
    requires !Nullish(s)
  {
    Or(Get(s, "description"), Str(" visión suggested " + (if action.Str? then action.s else "")))
  }

  /**
   * `stepParams.x = c[0]; stepParams.y = c[1]` on the truthy parameter value:
   * an object gains the two fields; a string, number or `true` is a primitive,
   * and creating a property on it throws in strict mode.
   */
  function WithCoordinates(params: Value, c: seq<Value>): (r: Result<Value, Error>)
    requires Truthy(params)
    ensures r.Err? <==> !params.Obj? && !params.Arr?
    ensures r.Err? ==> r.error.TypeError?
  {
    match params
    case Obj(m) => Ok(Obj(m["x" := At(c, 0)]["y" := At(c, 1)]))
    case Arr(_) => Ok(params)
    case _ => Err(TypeError("creating property 'x' on a primitive"))
  }

  /** The coordinate pair a tap suggestion supplies: `params.coordinate` first, then `s.coordinate`. */
  function TapCoordinates(s: Value, params: Value): Option<seq<Value>>
    requires !Nullish(s) && Truthy(params)
  {
    var nested := Get(params, "coordinate");
    if Truthy(nested) && nested.Arr? then Some(nested.elems)
    else
      var top := Get(s, "coordinate");
      if top.Arr? then Some(top.elems) else None
  }

  /**
   * The `map` callback: one kept suggestion as a step draft. Its params are
   * `s.params || {}`; a tap with a coordinate pair also gets `x` and `y`
   * written into them, which throws only when they are a primitive.
   */
  function ToDraft(s: Value): (r: Result<StepDraft, Error>)
    requires !Nullish(s)
    ensures r.Ok? ==> r.value.kind == Get(s, "action") && r.value.description == Describe(s, Get(s, "action"))
    ensures r.Err? ==> r.error.TypeError?
    ensures var action, params := Get(s, "action"), Or(Get(s, "params"), Obj(map[]));
            var pair := if Truthy(params) then TapCoordinates(s, params) else None;
            && (r.Err? <==> action == Str("tap") && pair.Some? && !params.Obj? && !params.Arr?)
            && (r.Ok? && action == Str("tap") && pair.Some? && params.Obj? ==>
                  r.value.params == Obj(params.fields["x" := At(pair.value, 0)]["y" := At(pair.value, 1)]))
            && (r.Ok? && !(action == Str("tap") && pair.Some? && params.Obj?) ==> r.value.params == params)
  {
    var action := Get(s, "action");
    var params := Or(Get(s, "params"), Obj(map[]));
    if action == Str("tap") && TapCoordinates(s, params).Some? then
      match WithCoordinates(params, TapCoordinates(s, params).value)
      case Err(e) => Err(e)
      case Ok(p) => Ok(StepDraft(action, Describe(s, action), p))
    else
      Ok(StepDraft(action, Describe(s, action), params))
  }

  /** `kept.map(...)`, throwing at the first entry whose callback throws. */
  function MapDrafts(kept: seq<Value>): (r: Result<seq<StepDraft>, Error>)
    requires forall i :: 0 <= i < |kept| ==> !Nullish(kept[i])
    ensures r.Ok? <==> forall i :: 0 <= i < |kept| ==> ToDraft(kept[i]).Ok?
    ensures r.Ok? ==> |r.value| == |kept| && forall i :: 0 <= i < |kept| ==> r.value[i] == ToDraft(kept[i]).value
    ensures r.Err? ==> r.error.TypeError?
  {
    if kept == [] then Ok([])
    else
      match ToDraft(kept[0])
      case Err(e) => Err(e)
      case Ok(d) =>
        match MapDrafts(kept[1..])
        case Err(e) => Err(e)
        case Ok(rest) => Ok([d] + rest)
  }

  /**
   * Plan expansion on the oracle's parsed result. Reading a property of a
   * null result throws; a missing or falsy `action_suggestion` or `steps`
   * gives no drafts; a truthy `steps` that is not an array has no `filter`
   * and throws.
   */
  function Expand(result: Value): (r: Result<seq<StepDraft>, Error>)
    ensures r.Err? ==> r.error.TypeError?
  {
    if Nullish(result) then Err(TypeError("reading 'action_suggestion' of a null result"))
    else
      var suggestion := Get(result, "action_suggestion");
      if !Truthy(suggestion) then Ok([])
      else
        var steps := Get(suggestion, "steps");
        if !Truthy(steps) then Ok([])
        else if !steps.Arr? then Err(TypeError("steps.filter is not a function"))
        else
          match KeepSuggestions(steps.elems)
          case Err(e) => Err(e)
          case Ok(kept) => MapDrafts(kept)
  }

  /** The suggestion list of a result, when there is one to filter. */
  function SuggestionList(result: Value): Option<seq<Value>> {
    if Nullish(result) then None
    else
      var suggestion := Get(result, "action_suggestion");
      if !Truthy(suggestion) then None
      else
        var steps := Get(suggestion, "steps");
        if steps.Arr? then Some(steps.elems) else None
  }

  /** Absent or falsy suggestions are not an error: they expand to nothing. */
  lemma ExpandWithoutSuggestions(result: Value)
    requires !Nullish(result)
    requires !Truthy(Get(result, "action_suggestion")) || !Truthy(Get(Get(result, "action_suggestion"), "steps"))
    ensures Expand(result) == Ok([])
  {
  }

  /**
   * Every draft comes from a kept suggestion, in order: its type is the
   * suggestion's action, which is truthy and never "END".
   */
  lemma ExpandKeepsOrderedActions(result: Value)
    requires Expand(result).Ok?
    requires SuggestionList(result).Some?
    ensures var kept := KeepSuggestions(SuggestionList(result).value);
            var drafts := Expand(result).value;
            && kept.Ok?
            && |drafts| == |kept.value|
            && (forall i :: 0 <= i < |drafts| ==>
                  && ToDraft(kept.value[i]).Ok? && drafts[i] == ToDraft(kept.value[i]).value
                  && drafts[i].kind == Get(kept.value[i], "action")
                  && Truthy(drafts[i].kind) && drafts[i].kind != EndAction)
  {
  }

  /** An expansion that succeeds only ever yields drafts whose type is truthy and not "END". */
  lemma ExpandNeverSchedulesEnd(result: Value)
    requires Expand(result).Ok?
    ensures forall d :: d in Expand(result).value ==> Truthy(d.kind) && d.kind != EndAction
  {
    if SuggestionList(result).Some? {
      ExpandKeepsOrderedActions(result);
    }
  }

  /** A tap suggestion whose params carry `coordinate: [x, y]` gets those as `params.x` and `params.y`, ahead of any top-level pair. */
  lemma TapNestedCoordinateWins(m: map<string, Value>, c: seq<Value>, rest: map<string, Value>)
    requires "coordinate" in m && m["coordinate"] == Arr(c)
    ensures var s := Obj(rest["action" := Str("tap")]["params" := Obj(m)]);
            ToDraft(s).Ok? && ToDraft(s).value.params == Obj(m["x" := At(c, 0)]["y" := At(c, 1)])
  {
  }

  /**
   * Without a nested pair, a top-level `coordinate` array of a tap suggestion
   * supplies `x` and `y`: written into its object params when their own
   * `coordinate` is absent or not an array, or into a fresh `{}` when it has
   * no params.
   */
  lemma TapTopLevelCoordinate(s: Value, c: seq<Value>)
    requires s.Obj? && Get(s, "action") == Str("tap") && Get(s, "coordinate") == Arr(c)
    requires var p := Get(s, "params");
             !Truthy(p) || (p.Obj? && !Get(p, "coordinate").Arr?)
    ensures var p := Get(s, "params");
            var fields := if Truthy(p) then p.fields else map[];
            ToDraft(s).Ok? && ToDraft(s).value.params == Obj(fields["x" := At(c, 0)]["y" := At(c, 1)])
  {
  }

  /** The suggestion `{action: "tap", params: {coordinate: [x, y]}}`. */
  function TapSuggestion(x: int, y: int): Value {
    Obj(map["action" := Str("tap"), "params" := Obj(map["coordinate" := Arr([Num(x), Num(y)])])])
  }

  /** The filter keeps a tap suggestion and drops the "END" after it. */
  lemma KeepExample(x: int, y: int)
    ensures KeepSuggestions([TapSuggestion(x, y), Obj(map["action" := Str("END")])]) == Ok([TapSuggestion(x, y)])
  {
    var tap, end := TapSuggestion(x, y), Obj(map["action" := Str("END")]);
    KeepAppend([tap], [end]);
    KeepSingle(tap);
    KeepSingle(end);
    assert [tap, end] == [tap] + [end];
  }

  /** A tap suggestion with a nested pair becomes a tap draft whose params gain `x` and `y`. */
  lemma DraftExample(x: int, y: int)
    ensures ToDraft(TapSuggestion(x, y))
         == Ok(StepDraft(Str("tap"), Str(" visión suggested tap"),
                         Obj(map["coordinate" := Arr([Num(x), Num(y)]), "x" := Num(x), "y" := Num(y)])))
  {
    var tap := TapSuggestion(x, y);
    var params := Obj(map["coordinate" := Arr([Num(x), Num(y)])]);
    var expected := Obj(map["coordinate" := Arr([Num(x), Num(y)]), "x" := Num(x), "y" := Num(y)]);
    assert Get(tap, "action") == Str("tap");
    assert Or(Get(tap, "params"), Obj(map[])) == params;
    assert TapCoordinates(tap, params) == Some([Num(x), Num(y)]);
    assert " visión suggested " + "tap" == " visión suggested tap";
    assert Describe(tap, Str("tap")) == Str(" visión suggested tap");
    assert At([Num(x), Num(y)], 0) == Num(x) && At([Num(x), Num(y)], 1) == Num(y);
    assert params.fields["x" := Num(x)]["y" := Num(y)] == expected.fields;
  }

  /**
   * The oracle's `[{action: "tap", params: {coordinate: [5, 9]}}, {action: "END"}]`
   * becomes exactly one tap draft whose params gain x = 5 and y = 9.
   */
  lemma ExpandExample()
    ensures var result := Obj(map["action_suggestion" := Obj(map["steps" := Arr([TapSuggestion(5, 9), Obj(map["action" := Str("END")])])])]);
            Expand(result) == Ok([StepDraft(Str("tap"), Str(" visión suggested tap"),
                                   Obj(map["coordinate" := Arr([Num(5), Num(9)]), "x" := Num(5), "y" := Num(9)]))])
  {
    var tap, end := TapSuggestion(5, 9), Obj(map["action" := Str("END")]);
    var suggestion := Obj(map["steps" := Arr([tap, end])]);
    var result := Obj(map["action_suggestion" := suggestion]);
    var draft := StepDraft(Str("tap"), Str(" visión suggested tap"),
                           Obj(map["coordinate" := Arr([Num(5), Num(9)]), "x" := Num(5), "y" := Num(9)]));
    assert Get(result, "action_suggestion") == suggestion;
    assert Get(suggestion, "steps") == Arr([tap, end]);
    KeepExample(5, 9);
    DraftExample(5, 9);
    assert [tap][1..] == [];
    assert MapDrafts([]) == Ok([]);
    assert [draft] + [] == [draft];
    assert MapDrafts([tap]) == Ok([draft]);
  }
}
