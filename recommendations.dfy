/**
 * The recommendation route's post-processing: the bearer token, the
 * requested count, the JSON array cut out of the model's reply, the
 * coercion and truncation of each parsed item into a recommendation, and
 * the top-up with default recommendations.
 */
module Recommendations {
  import opened Maybe
  import opened PyJson
  import PyText
  import BackendProxy

  datatype Scope = Dashboard | Portfolio

  /** An `MLRecommendation`. */
  datatype Recommendation = Recommendation(
    title: string, description: string, reasoning: seq<string>, actionItems: seq<string>,
    priority: string, confidence: real, scope: Scope,
    symbol: Option<string>, targetAllocation: Option<real>, timeHorizon: Option<string>, riskScore: Option<real>)

  /** A `GenerateRequest`, without the portfolio it may carry (the route never reads it). */
  datatype Request = Request(userId: string, scope: Scope, max: int, model: string)

  datatype Response = Response(recommendations: seq<Recommendation>, model: string, generatedAt: string)

  const Bearer := "Bearer "

  // ---------------------------------------------------------------- token and context

  /**
   * The token passed on: none for a missing or empty header; for a header
   * starting with "Bearer ", the header with every "Bearer " removed
   * (`str.replace`); otherwise the header itself.
   */
  function AuthToken(authorization: Option<string>): (t: Option<string>)
    ensures authorization.None? || authorization.value == [] ==> t.None?
    ensures authorization.Some? && authorization.value != [] && !PyText.StartsWith(authorization.value, Bearer) ==>
              t == authorization
  {
    match authorization
    case None => None
    case Some(h) =>
      if h == [] then None
      else if PyText.StartsWith(h, Bearer) then Some(PyText.ReplaceAll(h, Bearer, ""))
      else Some(h)
  }

  /** A header "Bearer <token>" yields the token, as long as the token does not itself contain "Bearer ". */
  lemma {:induction false} BearerStripped(token: string)
    requires !PyText.Occurs(token, Bearer)
    ensures AuthToken(Some(Bearer + token)) == Some(token)
  {
    var h := Bearer + token;
    assert h[..|Bearer|] == Bearer && h[|Bearer|..] == token;
    assert PyText.StartsWith(h, Bearer);
    assert PyText.ReplaceAll(h, Bearer, "") == "" + PyText.ReplaceAll(token, Bearer, "");
    PyText.ReplaceAbsent(token, Bearer, "");
    assert "" + token == token;
    assert h != [];
  }

  /**
   * `build_user_context`: no token (or an empty one) gives the empty
   * context `{}` (None); otherwise the financial data the backend proxy
   * assembles from the settled requests, which never raises.
   */
  method BuildUserContext(token: Option<string>, fetched: Option<seq<Option<Json>>>)
    returns (context: Option<BackendProxy.FinancialData>)
    requires fetched.Some? ==> |fetched.value| == |BackendProxy.TaskKeys|
    ensures token.None? || token.value == [] ==> context.None?
    ensures token.Some? && token.value != [] ==> context.Some?
    ensures context.Some? && fetched.None? ==> context.value == BackendProxy.Initial
    ensures context.Some? && fetched.Some? ==>
              context.value.analytics == Some(BackendProxy.AnalyticsOf(context.value))
              && context.value.userProfile == Some(context.value.profile)
  {
    if token.None? || token.value == [] {
      return None;
    }
    var data := BackendProxy.GetUserFinancialData(fetched);
    return Some(data);
  }

  // ---------------------------------------------------------------- count and parsing

  /** `min(max(requested, 1), 5)`. */
  function DesiredCount(requested: int): (n: nat)
    ensures 1 <= n <= 5
    ensures 1 <= requested <= 5 ==> n == requested
    ensures requested < 1 ==> n == 1
    ensures requested > 5 ==> n == 5
  {
    if requested < 1 then 1 else if requested > 5 then 5 else requested
  }

  /**
   * The span of `s` from its first '[' to its last ']' when both occur in
   * that order, and `s` itself otherwise.
   */
  function BracketSpan(s: string): (t: string)
    ensures |t| <= |s|
    ensures 0 <= PyText.Find(s, '[') < PyText.RFind(s, ']') ==>
              t == s[PyText.Find(s, '[')..PyText.RFind(s, ']') + 1] && t[0] == '[' && t[|t| - 1] == ']'
    ensures !(0 <= PyText.Find(s, '[') < PyText.RFind(s, ']')) ==> t == s
  {
    var i, j := PyText.Find(s, '['), PyText.RFind(s, ']');
    if i != -1 && j != -1 && j > i then s[i..j + 1] else s
  }

  /** The text handed to `json.loads`: the bracket span of the stripped reply. */
  function ArrayText(raw: string): string {
    BracketSpan(PyText.Strip(raw))
  }

  /**
   * `parse_recommendations_json`, with `json.loads` given as `loads` (None
   * where it raises): a reply that does not decode, or decodes to anything
   * but a list, is an error.
   */
  function ParseRecommendations(raw: string, loads: string -> Option<Json>): (r: Result<seq<Json>>)
    ensures r.Ok? <==> loads(ArrayText(raw)).Some? && loads(ArrayText(raw)).value.Arr?
    ensures r.Ok? ==> r.value == loads(ArrayText(raw)).value.items
    ensures loads(ArrayText(raw)).Some? && !loads(ArrayText(raw)).value.Arr? ==>
              r == Err("Model did not return a JSON array")
  {
    match loads(ArrayText(raw))
    case None => Err("JSONDecodeError")
    case Some(data) => if data.Arr? then Ok(data.items) else Err("Model did not return a JSON array")
  }

  /** The list the route goes on with: the parsed list, or `[]` when parsing raised. */
  function ParsedOrEmpty(raw: string, loads: string -> Option<Json>): (recs: seq<Json>)
    ensures ParseRecommendations(raw, loads).Err? ==> recs == []
    ensures ParseRecommendations(raw, loads).Ok? ==> recs == ParseRecommendations(raw, loads).value
  {
    match ParseRecommendations(raw, loads)
    case Ok(items) => items
    case Err(_) => []
  }

  // ---------------------------------------------------------------- coercion

  /** `s[:n]`. */
  function Take<T>(s: seq<T>, n: nat): (r: seq<T>)
    ensures |r| <= n && |r| <= |s| && r == s[..|r|]
    ensures |s| <= n ==> r == s
  {
    if |s| <= n then s else s[..n]
  }

  /** `[str(x) for x in xs]`. */
  function Strs(xs: seq<Json>): (r: seq<string>)
    ensures |r| == |xs| && forall i :: 0 <= i < |xs| ==> r[i] == PyStr(xs[i])
  {
    seq(|xs|, i requires 0 <= i < |xs| => PyStr(xs[i]))
  }

  predicate ValidPriority(p: Json) {
    p in [Str("low"), Str("medium"), Str("high"), Str("urgent")]
  }

  /** A value an `Optional[str]` field accepts. */
  predicate OptionalStr(v: Json) {
    v.Null? || v.Str?
  }

  /** A value an `Optional[float]` field accepts: None, a number, a boolean or a numeric string. */
  predicate OptionalFloat(v: Json) {
    v.Null? || ToFloat(v).Some?
  }

  predicate ValidHorizon(v: Json) {
    v in [Null, Str("short"), Str("medium"), Str("long")]
  }

  /** The text of a valid priority. */
  function PriorityName(p: Json): (name: string)
    requires ValidPriority(p)
    ensures name in ["low", "medium", "high", "urgent"] && p == Str(name)
  {
    p.s
  }

  /** An `Optional[str]` field's value: None, or the string itself. */
  function OptionalStrValue(v: Json): (r: Option<string>)
    requires OptionalStr(v)
    ensures r.None? <==> v.Null?
    ensures r.Some? ==> v == Str(r.value)
  {
    if v.Null? then None else Some(v.s)
  }

  /** A valid time horizon's value: None, or one of the three horizons. */
  function HorizonValue(v: Json): (r: Option<string>)
    requires ValidHorizon(v)
    ensures r.None? <==> v.Null?
    ensures r.Some? ==> v == Str(r.value) && r.value in ["short", "medium", "long"]
  {
    if v.Null? then None else Some(v.s)
  }

  function OptionalFloatValue(v: Json): Option<real>
    requires OptionalFloat(v)
  {
    if v.Null? then None else ToFloat(v)
  }

  /** The truncation limits every built recommendation keeps. */
  predicate Bounded(rec: Recommendation, scope: Scope) {
    |rec.title| <= 200 && |rec.description| <= 1200
    && |rec.reasoning| <= 8 && |rec.actionItems| <= 8 && rec.scope == scope
  }

  function Reasoning(item: Json): Option<seq<Json>>
    requires IsDict(item)
  {
    BackendProxy.Elements(Or(Get(item, "reasoning"), Arr([])))
  }

  function Actions(item: Json): Option<seq<Json>>
    requires IsDict(item)
  {
    BackendProxy.Elements(Or(Get(item, "actionItems"), Or(Get(item, "actions"), Arr([]))))
  }

  function Priority(item: Json): Json
    requires IsDict(item)
  {
    Or(Get(item, "priority"), Str("medium"))
  }

  function Confidence(item: Json): Option<real>
    requires IsDict(item)
  {
    ToFloat(Or(Get(item, "confidence"), Num(0.8)))
  }

  /**
   * Whether building the `MLRecommendation` from a parsed dict succeeds:
   * reasoning and actions can be iterated, the priority is one of the four
   * allowed, the confidence converts to a float, and every optional field
   * holds None or a value of its type.
   */
  predicate Builds(item: Json)
    requires IsDict(item)
  {
    Reasoning(item).Some? && Actions(item).Some? && ValidPriority(Priority(item)) && Confidence(item).Some?
    && OptionalStr(Get(item, "symbol")) && OptionalFloat(Get(item, "targetAllocation"))
    && ValidHorizon(Get(item, "timeHorizon")) && OptionalFloat(Get(item, "riskScore"))
  }

  /** The recommendation built from a dict that builds, its texts and lists truncated. */
  function Build(item: Json, scope: Scope): (rec: Recommendation)
    requires IsDict(item) && Builds(item)
    ensures Bounded(rec, scope)
  {
    Recommendation(
      Take(PyStr(Or(Or(Get(item, "title"), Get(item, "symbol")), Str("Recommendation"))), 200),
      Take(PyStr(Or(Get(item, "description"), Str("Action recommended"))), 1200),
      Take(Strs(Reasoning(item).value), 8),
      Take(Strs(Actions(item).value), 8),
      PriorityName(Priority(item)),
      Confidence(item).value,
      scope,
      OptionalStrValue(Get(item, "symbol")),
      OptionalFloatValue(Get(item, "targetAllocation")),
      HorizonValue(Get(item, "timeHorizon")),
      OptionalFloatValue(Get(item, "riskScore")))
  }

  /**
   * A built recommendation carries one of the four priorities, the item's
   * own title (truncated) when it has one, and the item's confidence.
   */
  lemma {:induction false} BuildFields(item: Json, scope: Scope)
    requires IsDict(item) && Builds(item)
    ensures Build(item, scope).priority in ["low", "medium", "high", "urgent"]
    ensures Truthy(Get(item, "title")) ==> Build(item, scope).title == Take(PyStr(Get(item, "title")), 200)
    ensures Build(item, scope).confidence == Confidence(item).value
  {
  }

  /**
   * The `MLRecommendation` built from one parsed item, or None where
   * building it raises and the item is skipped: an item that is not a
   * dict, or one that does not build.
   */
  function Coerce(item: Json, scope: Scope): (r: Option<Recommendation>)
    ensures r.Some? <==> IsDict(item) && Builds(item)
    ensures r.Some? ==> Bounded(r.value, scope)
  {
    if IsDict(item) && Builds(item) then Some(Build(item, scope)) else None
  }

  /** The coercion loop: the items that build, in order. */
  function Coerced(recs: seq<Json>, scope: Scope): (items: seq<Recommendation>)
    ensures |items| <= |recs|
  {
    Somes(MapSeq(item => Coerce(item, scope), recs))
  }

  /** The coercion loop's step: the last item is kept exactly when it builds. */
  lemma {:induction false} CoercedNext(recs: seq<Json>, scope: Scope)
    requires recs != []
    ensures var init, last := recs[..|recs| - 1], Coerce(recs[|recs| - 1], scope);
            Coerced(recs, scope) == Coerced(init, scope) + (if last.Some? then [last.value] else [])
  {
    SomesMapNext(item => Coerce(item, scope), recs);
  }

  /** Every kept item keeps the truncation limits. */
  lemma {:induction false} CoercedBounded(recs: seq<Json>, scope: Scope)
    ensures forall i :: 0 <= i < |Coerced(recs, scope)| ==> Bounded(Coerced(recs, scope)[i], scope)
    decreases |recs|
  {
    if recs != [] {
      CoercedNext(recs, scope);
      CoercedBounded(recs[..|recs| - 1], scope);
    }
  }

  /** Items that all build are all kept, in order. */
  lemma {:induction false} CoercedAll(recs: seq<Json>, scope: Scope)
    requires forall i :: 0 <= i < |recs| ==> Coerce(recs[i], scope).Some?
    ensures |Coerced(recs, scope)| == |recs|
    ensures forall i :: 0 <= i < |recs| ==> Coerced(recs, scope)[i] == Coerce(recs[i], scope).value
  {
    var ys := MapSeq(item => Coerce(item, scope), recs);
    assert forall i :: 0 <= i < |recs| ==> ys[i] == Coerce(recs[i], scope);
    SomesAll(ys);
  }

  lemma {:induction false} CoercedStep(recs: seq<Json>, i: nat, scope: Scope)
    requires i < |recs|
    ensures var item := Coerce(recs[i], scope);
            Coerced(recs[..i + 1], scope) == Coerced(recs[..i], scope) + (if item.Some? then [item.value] else [])
  {
    assert recs[..i + 1][..i] == recs[..i];
    CoercedNext(recs[..i + 1], scope);
  }

  /** `for r in recs[:desired_count]`, appending each item that builds. */
  method CoerceAll(recs: seq<Json>, desired: nat, scope: Scope) returns (items: seq<Recommendation>)
    ensures items == Coerced(Take(recs, desired), scope)
    ensures |items| <= desired
  {
    var capped := Take(recs, desired);
    items := [];
    for i := 0 to |capped|
      invariant items == Coerced(capped[..i], scope)
    {
      CoercedStep(capped, i, scope);
      var item := Coerce(capped[i], scope);
      if item.Some? {
        items := items + [item.value];
      }
    }
    assert capped[..|capped|] == capped;
  }

  // ---------------------------------------------------------------- top-up

  function Default(title: string, description: string, scope: Scope): Recommendation {
    Recommendation(title, description, [], [], "medium", 0.8, scope, None, None, None, None)
  }

  /** The titles and descriptions of the portfolio page's defaults. */
  const PortfolioDefaults: seq<(string, string)> := [
    ("Rebalance to target allocation", "Adjust holdings to align with risk profile and target mix."),
    ("Review concentration risk", "Check top positions and reduce any single holding exceeding 15% of portfolio."),
    ("Automate contributions", "Set up monthly investments to dollar-cost average into core funds.")]

  /** The titles and descriptions of the dashboard's defaults. */
  const DashboardDefaults: seq<(string, string)> := [
    ("Increase savings rate by 1-2%", "Identify one category to trim and redirect to savings."),
    ("Debt repayment plan", "Prioritize highest-interest debt with extra payments this month."),
    ("Set or update 3 goals", "Create targets for emergency fund, travel, and retirement.")]

  /** The three defaults for a scope, in the order they are offered. */
  function Defaults(scope: Scope): (ds: seq<Recommendation>)
    ensures |ds| == 3 && forall i :: 0 <= i < 3 ==> Bounded(ds[i], scope)
  {
    var texts := if scope == Portfolio then PortfolioDefaults else DashboardDefaults;
    seq(3, i requires 0 <= i < 3 => Default(texts[i].0, texts[i].1, scope))
  }

  /**
   * The top-up: when fewer than `desired` items were kept, defaults are
   * appended in order until there are `desired` items or the three
   * defaults run out.
   */
  method TopUp<T>(items: seq<T>, desired: nat, defaults: seq<T>) returns (result: seq<T>)
    ensures |items| >= desired ==> result == items
    ensures |items| < desired ==>
              |result| == (if desired < |items| + |defaults| then desired else |items| + |defaults|)
              && result == items + defaults[..|result| - |items|]
    ensures |items| <= |result| && result[..|items|] == items
    ensures forall i :: |items| <= i < |result| ==> result[i] == defaults[i - |items|]
  {
    result := items;
    if |items| < desired {
      var k := 0;
      while k < |defaults|
        invariant 0 <= k <= |defaults|
        invariant result == items + defaults[..k] && |result| <= desired
      {
        if |result| >= desired {
          break;
        }
        result := result + [defaults[k]];
        k := k + 1;
      }
    }
  }

  // ---------------------------------------------------------------- the route

  /**
   * The recommendations made from the model's reply: the parsed items
   * that build, at most `desired` of them looked at, topped up with the
   * scope's defaults while there are fewer than `desired`.
   */
  function Recommended(reply: string, loads: string -> Option<Json>, desired: nat, scope: Scope): seq<Recommendation> {
    var kept := Coerced(Take(ParsedOrEmpty(reply, loads), desired), scope);
    if |kept| >= desired then kept
    else kept + Defaults(scope)[..if desired - |kept| < 3 then desired - |kept| else 3]
  }

  /** There is always at least one recommendation and never more than asked for. */
  lemma {:induction false} RecommendedCount(reply: string, loads: string -> Option<Json>, desired: nat, scope: Scope)
    requires desired >= 1
    ensures 1 <= |Recommended(reply, loads, desired, scope)| <= desired
  {
  }

  /** With a reply that yields no usable item, the recommendations are the first defaults. */
  lemma {:induction false} NothingUsable(reply: string, loads: string -> Option<Json>, desired: nat, scope: Scope)
    requires ParseRecommendations(reply, loads).Err?
    ensures Recommended(reply, loads, desired, scope) == Defaults(scope)[..if desired < 3 then desired else 3]
  {
    assert Take(ParsedOrEmpty(reply, loads), desired) == [];
  }

  /** Two runs of recommendations within the limits join into one. */
  lemma {:induction false} AppendBounded(a: seq<Recommendation>, b: seq<Recommendation>, scope: Scope)
    requires forall i :: 0 <= i < |a| ==> Bounded(a[i], scope)
    requires forall i :: 0 <= i < |b| ==> Bounded(b[i], scope)
    ensures forall i :: 0 <= i < |a + b| ==> Bounded((a + b)[i], scope)
  {
  }

  /** Every recommendation, kept or default, keeps the truncation limits. */
  lemma {:induction false} RecommendedBounded(reply: string, loads: string -> Option<Json>, desired: nat, scope: Scope)
    ensures forall i :: 0 <= i < |Recommended(reply, loads, desired, scope)| ==>
              Bounded(Recommended(reply, loads, desired, scope)[i], scope)
  {
    var kept := Coerced(Take(ParsedOrEmpty(reply, loads), desired), scope);
    CoercedBounded(Take(ParsedOrEmpty(reply, loads), desired), scope);
    if |kept| < desired {
      var m := if desired - |kept| < 3 then desired - |kept| else 3;
      DefaultsBounded(scope, m);
      AppendBounded(kept, Defaults(scope)[..m], scope);
    }
  }

  /** The first defaults offered keep the truncation limits. */
  lemma {:induction false} DefaultsBounded(scope: Scope, m: nat)
    requires m <= 3
    ensures forall i :: 0 <= i < m ==> Bounded(Defaults(scope)[..m][i], scope)
  {
    var ds := Defaults(scope);
    assert forall i :: 0 <= i < m ==> ds[..m][i] == ds[i];
  }

  /** The parse, the coercion loop and the top-up loop in turn. */
  method Recommend(reply: string, loads: string -> Option<Json>, desired: nat, scope: Scope)
    returns (recs: seq<Recommendation>)
    ensures recs == Recommended(reply, loads, desired, scope)
  {
    var parsed := ParsedOrEmpty(reply, loads);
    var items := CoerceAll(parsed, desired, scope);
    var defaults := Defaults(scope);
    recs := TopUp(items, desired, defaults);
  }

  /**
   * `generate_recommendations` once the model has answered: `reply` is
   * its raw text, or the error raised while building the prompt or
   * calling the model, which the route turns into an HTTP 500 with that
   * message. The context only feeds the prompt.
   */
  method GenerateRecommendations(req: Request, authorization: Option<string>,
                                 fetched: Option<seq<Option<Json>>>, reply: Result<string>,
                                 loads: string -> Option<Json>, now: string)
    returns (r: Result<Response>)
    requires fetched.Some? ==> |fetched.value| == |BackendProxy.TaskKeys|
    ensures reply.Err? ==> r == Err(reply.msg)
    ensures reply.Ok? ==>
              r == Ok(Response(Recommended(reply.value, loads, DesiredCount(req.max), req.scope), req.model, now))
  {
    var token := AuthToken(authorization);
    var context := BuildUserContext(token, fetched);
    var desired := DesiredCount(req.max);
    if reply.Err? {
      return Err(reply.msg);
    }
    var recs := Recommend(reply.value, loads, desired, req.scope);
    return Ok(Response(recs, req.model, now));
  }
}
