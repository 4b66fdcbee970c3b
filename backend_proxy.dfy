/**
 * The financial-context aggregation of `BackendProxyService`: the profile
 * returned by `/auth/me` reduced to a concise shape, the analytics computed
 * over the fetched records, and the portfolio synthesised or enriched from
 * the investments when the portfolio endpoint gives none or no holdings.
 *
 * The fetched records are decoded JSON (`Json`). A Python exception is
 * modelled where the code catches it: `_calculate_analytics` returns the
 * analytics dict as far as it got, and the portfolio block leaves the data
 * as it was.
 */
module BackendProxy {
  import opened Maybe
  import opened PyJson
  import PyText

  /** `x.get(key) if isinstance(x, dict) else None`. */
  function GetIfDict(x: Json, key: string): (r: Json)
    ensures !IsDict(x) ==> r == Null
    ensures IsDict(x) && key in x.fields ==> r == x.fields[key]
  {
    if IsDict(x) then Get(x, key) else Null
  }

  // ---------------------------------------------------------------- profile

  /** A preference chain of `if not x: x = next` steps: the first truthy candidate, else the fallback. */
  function FirstTruthy(candidates: seq<Json>, fallback: Json): (r: Json)
    ensures forall i :: (0 <= i < |candidates| && Truthy(candidates[i])
                         && forall j :: 0 <= j < i ==> !Truthy(candidates[j])) ==> r == candidates[i]
    ensures (forall i :: 0 <= i < |candidates| ==> !Truthy(candidates[i])) ==> r == fallback
    ensures r in candidates || r == fallback
    decreases |candidates|
  {
    if candidates == [] then fallback else Or(candidates[0], FirstTruthy(candidates[1..], fallback))
  }

  /** `nested.get(a) or nested.get(b)` when the nested `profile` is a dict, else None. */
  function Nested(user: Json, a: string, b: string): Json
    requires IsDict(user)
  {
    var nested := Get(user, "profile");
    if IsDict(nested) then Or(Get(nested, a), Get(nested, b)) else Null
  }

  /** `f"{first or ''} {last or ''}".strip()` when either part is truthy, else None. */
  function FullName(first: Json, last: Json): (r: Json)
    ensures !Truthy(first) && !Truthy(last) ==> r == Null
    ensures Truthy(first) || Truthy(last) ==> r.Str?
  {
    if Truthy(first) || Truthy(last) then
      Str(PyText.Strip(PyStr(Or(first, Str(""))) + " " + PyStr(Or(last, Str("")))))
    else Null
  }

  /**
   * The display name: "first last", else the nested profile's name, else
   * the user's name, else the email, else "User"; each step is taken only
   * while the name so far is falsy, so the name is never empty.
   */
  function DisplayName(user: Json): (r: Json)
    requires IsDict(user)
    ensures Truthy(r)
    ensures r in [FullName(Nested(user, "firstName", "given_name"), Nested(user, "lastName", "family_name")),
                  GetIfDict(Get(user, "profile"), "name"), Get(user, "name"), Get(user, "email"), Str("User")]
  {
    FirstTruthy([FullName(Nested(user, "firstName", "given_name"), Nested(user, "lastName", "family_name")),
                 GetIfDict(Get(user, "profile"), "name"), Get(user, "name"), Get(user, "email")],
                Str("User"))
  }

  /**
   * The risk level: `level` or `riskLevel` of the risk profile when that is a
   * dict, else `riskTolerance` or `riskToleranceLevel` of the nested profile,
   * else "moderate".
   */
  function RiskLevel(user: Json): (r: Json)
    requires IsDict(user)
    ensures Truthy(r)
    ensures r == Str("moderate") || r == GetIfDict(Nested(user, "riskProfile", "risk_profile"), "level")
            || r == GetIfDict(Nested(user, "riskProfile", "risk_profile"), "riskLevel")
            || r == Nested(user, "riskTolerance", "riskToleranceLevel")
    ensures r == FirstTruthy([GetIfDict(Nested(user, "riskProfile", "risk_profile"), "level"),
                              GetIfDict(Nested(user, "riskProfile", "risk_profile"), "riskLevel"),
                              Nested(user, "riskTolerance", "riskToleranceLevel")],
                             Str("moderate"))
  {
    var riskProfile := Nested(user, "riskProfile", "risk_profile");
    var fromProfile := if IsDict(riskProfile) then Or(Get(riskProfile, "level"), Get(riskProfile, "riskLevel")) else Null;
    var level := if !Truthy(fromProfile) && IsDict(Get(user, "profile"))
                 then Nested(user, "riskTolerance", "riskToleranceLevel") else fromProfile;
    FirstTruthyOfThree(GetIfDict(riskProfile, "level"), GetIfDict(riskProfile, "riskLevel"),
                       Nested(user, "riskTolerance", "riskToleranceLevel"), Str("moderate"));
    Or(level, Str("moderate"))
  }

  /** A chain of three candidates is three nested `or`s. */
  lemma {:induction false} FirstTruthyOfThree(a: Json, b: Json, c: Json, fallback: Json)
    ensures FirstTruthy([a, b, c], fallback) == Or(a, Or(b, Or(c, fallback)))
  {
    assert [a, b, c][1..] == [b, c] && [b, c][1..] == [c] && [c][1..] == [];
    assert FirstTruthy([c], fallback) == Or(c, fallback);
    assert FirstTruthy([b, c], fallback) == Or(b, FirstTruthy([c], fallback));
    assert FirstTruthy([a, b, c], fallback) == Or(a, FirstTruthy([b, c], fallback));
  }

  /** `_normalize_profile_response`: the concise profile dict. */
  function NormalizeProfile(user: Json): (p: Json)
    requires IsDict(user)
    ensures p.Obj?
  {
    Obj(map[
      "name" := DisplayName(user),
      "email" := Get(user, "email"),
      "role" := Get(user, "role"),
      "riskProfile" := Obj(map["level" := RiskLevel(user)]),
      "investmentExperience" := Or(Nested(user, "investmentExperience", "investment_experience"), Str("Beginner")),
      "firstName" := Nested(user, "firstName", "given_name"),
      "lastName" := Nested(user, "lastName", "family_name")])
  }

  /** The concise profile has exactly the seven keys, whatever the user record holds. */
  lemma {:induction false} ProfileKeys(user: Json)
    requires IsDict(user)
    ensures NormalizeProfile(user).fields.Keys
            == {"name", "email", "role", "riskProfile", "investmentExperience", "firstName", "lastName"}
  {
  }

  /** The concise profile's name is the display name, which is never blank. */
  lemma {:induction false} ProfileName(user: Json)
    requires IsDict(user)
    ensures var f := NormalizeProfile(user).fields;
            "name" in f && Truthy(f["name"]) && f["name"] == DisplayName(user)
  {
    var name := DisplayName(user);
    assert NormalizeProfile(user).fields["name"] == name;
  }

  /** The concise profile's risk profile is a dict holding just the risk level. */
  lemma {:induction false} ProfileRisk(user: Json)
    requires IsDict(user)
    ensures var f := NormalizeProfile(user).fields;
            "riskProfile" in f && f["riskProfile"] == Obj(map["level" := RiskLevel(user)])
  {
  }

  /** The investment experience is the record's own when it has one, and "Beginner" otherwise. */
  lemma {:induction false} ProfileExperience(user: Json)
    requires IsDict(user)
    ensures var f := NormalizeProfile(user).fields;
            && "investmentExperience" in f && Truthy(f["investmentExperience"])
            && (Truthy(Nested(user, "investmentExperience", "investment_experience")) ==>
                  f["investmentExperience"] == Nested(user, "investmentExperience", "investment_experience"))
            && (!Truthy(Nested(user, "investmentExperience", "investment_experience")) ==>
                  f["investmentExperience"] == Str("Beginner"))
  {
  }

  /** "first last" is the display name whenever it is not blank. */
  lemma {:induction false} FullNameFirst(user: Json)
    requires IsDict(user)
    requires Truthy(FullName(Nested(user, "firstName", "given_name"), Nested(user, "lastName", "family_name")))
    ensures DisplayName(user) == FullName(Nested(user, "firstName", "given_name"), Nested(user, "lastName", "family_name"))
  {
    var cs := [FullName(Nested(user, "firstName", "given_name"), Nested(user, "lastName", "family_name")),
               GetIfDict(Get(user, "profile"), "name"), Get(user, "name"), Get(user, "email")];
    assert Truthy(cs[0]);
  }

  /** With no name of any kind and no email, the display name is "User". */
  lemma {:induction false} AnonymousUser(user: Json)
    requires IsDict(user)
    requires !Truthy(Nested(user, "firstName", "given_name")) && !Truthy(Nested(user, "lastName", "family_name"))
    requires !Truthy(GetIfDict(Get(user, "profile"), "name")) && !Truthy(Get(user, "name")) && !Truthy(Get(user, "email"))
    ensures DisplayName(user) == Str("User")
  {
    var cs := [FullName(Nested(user, "firstName", "given_name"), Nested(user, "lastName", "family_name")),
               GetIfDict(Get(user, "profile"), "name"), Get(user, "name"), Get(user, "email")];
    assert forall i :: 0 <= i < |cs| ==> !Truthy(cs[i]);
  }

  /** A risk profile's own level wins over the nested risk tolerance. */
  lemma {:induction false} RiskProfileFirst(user: Json)
    requires IsDict(user) && IsDict(Nested(user, "riskProfile", "risk_profile"))
    requires Truthy(Get(Nested(user, "riskProfile", "risk_profile"), "level"))
    ensures RiskLevel(user) == Get(Nested(user, "riskProfile", "risk_profile"), "level")
  {
  }

  /** The risk profile's `riskLevel` is taken when its `level` is falsy. */
  lemma {:induction false} RiskLevelSecond(user: Json)
    requires IsDict(user)
    requires !Truthy(GetIfDict(Nested(user, "riskProfile", "risk_profile"), "level"))
    requires Truthy(GetIfDict(Nested(user, "riskProfile", "risk_profile"), "riskLevel"))
    ensures RiskLevel(user) == GetIfDict(Nested(user, "riskProfile", "risk_profile"), "riskLevel")
  {
  }

  /** The nested risk tolerance is taken only when both risk-profile fields are falsy. */
  lemma {:induction false} RiskToleranceThird(user: Json)
    requires IsDict(user)
    requires !Truthy(GetIfDict(Nested(user, "riskProfile", "risk_profile"), "level"))
    requires !Truthy(GetIfDict(Nested(user, "riskProfile", "risk_profile"), "riskLevel"))
    requires Truthy(Nested(user, "riskTolerance", "riskToleranceLevel"))
    ensures RiskLevel(user) == Nested(user, "riskTolerance", "riskToleranceLevel")
  {
  }

  /** With no truthy level, risk level or nested tolerance the risk level is "moderate". */
  lemma {:induction false} ModerateByDefault(user: Json)
    requires IsDict(user)
    requires !Truthy(GetIfDict(Nested(user, "riskProfile", "risk_profile"), "level"))
    requires !Truthy(GetIfDict(Nested(user, "riskProfile", "risk_profile"), "riskLevel"))
    requires !Truthy(Nested(user, "riskTolerance", "riskToleranceLevel"))
    ensures RiskLevel(user) == Str("moderate")
  {
  }

  // ---------------------------------------------------------------- fetched data

  /**
   * The `financial_data` dict: the nine fetched records, the analytics
   * (an empty dict until computed) and the legacy mirror keys
   * `user_profile` and `recent_transactions` (absent until set).
   */
  datatype FinancialData = FinancialData(
    profile: Json, portfolio: Json, transactions: Json, budgets: Json, goals: Json,
    investments: Json, accounts: Json, debts: Json, physicalAssets: Json,
    analytics: Option<Analytics>, userProfile: Option<Json>, recentTransactions: Option<Json>)

  /** The dict before any request: no profile or portfolio, empty lists. */
  const Initial := FinancialData(Null, Null, Arr([]), Arr([]), Arr([]), Arr([]), Arr([]), Arr([]), Arr([]),
                                 None, None, None)

  /**
   * `for x in v`: a list yields its items, a string its characters and a
   * dict its keys; any other value raises TypeError (None). The keys of a
   * dict stand as empty strings, one per key: a `map` has no key order to
   * follow. The analytics only ask whether an element is a dict, which a key
   * never is; the recommendations' `reasoning` and `actionItems` lose the
   * keys' text and order.
   */
  function Elements(v: Json): (r: Option<seq<Json>>)
    ensures r.Some? <==> v.Arr? || v.Str? || v.Obj?
    ensures v.Arr? ==> r == Some(v.items)
    ensures r.Some? && !v.Arr? ==> forall i :: 0 <= i < |r.value| ==> !IsDict(r.value[i])
  {
    match v
    case Arr(items) => Some(items)
    case Str(s) => Some(seq(|s|, i requires 0 <= i < |s| => Str([s[i]])))
    case Obj(fields) => Some(seq(|fields|, _ => Str("")))
    case _ => None
  }

  /** A value that can be a dict key: lists and dicts raise TypeError (unhashable). */
  predicate Hashable(v: Json) {
    !v.Arr? && !v.Obj?
  }

  /**
   * The other key that addresses the same dict entry as `k`: Python has
   * `True == 1 == 1.0` and `False == 0 == 0.0` with equal hashes, so such
   * keys are one key. Every other key has only itself.
   */
  function Twin(k: Json): Json {
    match k
    case Bool(b) => Num(if b then 1.0 else 0.0)
    case Num(n) => if n == 1.0 then Bool(true) else if n == 0.0 then Bool(false) else k
    case _ => k
  }

  /** Twins come in pairs: the twin of a twin is the key itself. */
  lemma TwinTwin(k: Json)
    ensures Twin(Twin(k)) == k
  {
    match k
    case Bool(b) =>
    case Num(n) =>
    case _ =>
  }

  /** A dict never holds two keys that address the same entry. */
  predicate DistinctKeys(m: map<Json, real>) {
    forall k :: k in m && Twin(k) != k ==> Twin(k) !in m
  }

  /** The key under which a dict files `k`: `k` when it is there or when no twin is, else the twin already there. */
  function KeyFor(m: map<Json, real>, k: Json): (s: Json)
    ensures s == k || s == Twin(k)
    ensures s in m <==> k in m || Twin(k) in m
    ensures s != k ==> k !in m && s in m
  {
    if k !in m && Twin(k) in m then Twin(k) else k
  }

  /** `d.get(k, default)`, finding the entry of a twin key as well. */
  function GetItem(m: map<Json, real>, k: Json, default: real): (v: real)
    ensures k in m ==> v == m[k]
    ensures k !in m && Twin(k) in m ==> v == m[Twin(k)]
    ensures k !in m && Twin(k) !in m ==> v == default
  {
    var s := KeyFor(m, k);
    if s in m then m[s] else default
  }

  /**
   * `d[k] = v`: the entry `k` addresses gets `v`; when a twin of `k` is
   * already a key, that key is kept and no second entry appears.
   */
  function SetItem(m: map<Json, real>, k: Json, v: real): (r: map<Json, real>)
    ensures k in m || Twin(k) !in m ==> k in r && r[k] == v && r.Keys == m.Keys + {k}
    ensures k !in m && Twin(k) in m ==> r.Keys == m.Keys && r[Twin(k)] == v
    ensures forall j :: j in m && j != KeyFor(m, k) ==> r[j] == m[j]
    ensures DistinctKeys(m) ==> DistinctKeys(r)
  {
    if DistinctKeys(m) then
      FiledKeepsDistinct(m, k, v);
      m[KeyFor(m, k) := v]
    else
      m[KeyFor(m, k) := v]
  }

  /** Filing under `KeyFor` never makes a second key for one entry. */
  lemma FiledKeepsDistinct(m: map<Json, real>, k: Json, v: real)
    requires DistinctKeys(m)
    ensures DistinctKeys(m[KeyFor(m, k) := v])
  {
    var r := m[KeyFor(m, k) := v];
    forall j | j in r && Twin(j) != j
      ensures Twin(j) !in r
    {
      TwinTwin(j);
      TwinTwin(k);
    }
  }

  // ---------------------------------------------------------------- analytics

  /**
   * The analytics dict. Its keys are fixed; `investment_allocation` and
   * `budget_utilization` map an asset type or a budget category (any
   * hashable value) to a percentage.
   */
  datatype Analytics = Analytics(
    totalNetWorth: Json, liabilitiesTotal: real, assetsTotal: real,
    monthlyIncome: real, monthlyExpenses: real, savingsRate: real, debtToIncome: real,
    investmentAllocation: map<Json, real>, budgetUtilization: map<Json, real>)

  const Defaults := Analytics(Num(0.0), 0.0, 0.0, 0.0, 0.0, 0.0, 0.0, map[], map[])

  /** The analytics as far as a step got, and whether that step raised. */
  datatype Outcome = Outcome(analytics: Analytics, raised: bool)

  /** Left-to-right accumulation `total += f(x)` over a list. */
  function Total(items: seq<Json>, f: Json -> real): real
    decreases |items|
  {
    if items == [] then 0.0 else Total(items[..|items| - 1], f) + f(items[|items| - 1])
  }

  lemma {:induction false} TotalNonNegative(items: seq<Json>, f: Json -> real)
    requires forall x :: f(x) >= 0.0
    ensures Total(items, f) >= 0.0
    decreases |items|
  {
    if items != [] {
      TotalNonNegative(items[..|items| - 1], f);
    }
  }

  /** One more item adds its own term. */
  lemma {:induction false} TotalNext(items: seq<Json>, i: nat, f: Json -> real)
    requires i < |items|
    ensures Total(items[..i + 1], f) == Total(items[..i], f) + f(items[i])
  {
    assert items[..i + 1][..i] == items[..i];
  }

  lemma TotalSnoc(items: seq<Json>, x: Json, f: Json -> real)
    ensures Total(items + [x], f) == Total(items, f) + f(x)
  {
    assert (items + [x])[..|items|] == items;
  }

  /** Only dict entries contribute: the non-dict entries of a list can be dropped from its total. */
  lemma {:induction false} TotalOfDicts(items: seq<Json>, f: Json -> real)
    requires forall x :: !IsDict(x) ==> f(x) == 0.0
    ensures Total(items, f) == Total(Dicts(items), f)
    decreases |items|
  {
    if items != [] {
      var init := items[..|items| - 1];
      TotalOfDicts(init, f);
      assert items == init + [items[|items| - 1]];
      DictsAppend(init, items[|items| - 1]);
    }
  }

  /** The dict entries of a list, in order. */
  function Dicts(items: seq<Json>): (r: seq<Json>)
    ensures |r| <= |items|
    ensures forall i :: 0 <= i < |r| ==> IsDict(r[i]) && r[i] in items
    ensures forall i :: 0 <= i < |items| && IsDict(items[i]) ==> items[i] in r
    decreases |items|
  {
    if items == [] then []
    else
      var init := Dicts(items[..|items| - 1]);
      assert forall x :: x in items[..|items| - 1] ==> x in items;
      if IsDict(items[|items| - 1]) then init + [items[|items| - 1]] else init
  }

  lemma {:induction false} DictsAppend(items: seq<Json>, x: Json)
    ensures Dicts(items + [x]) == if IsDict(x) then Dicts(items) + [x] else Dicts(items)
  {
    assert (items + [x])[..|items|] == items;
  }

  /** An account's balance: `balance`, else a numeric `currentBalance`, as a float; 0 for a non-dict or unparsable value. */
  function AccountBalance(acc: Json): (r: real)
    ensures !IsDict(acc) ==> r == 0.0
    ensures IsDict(acc) && Truthy(Get(acc, "balance")) ==> r == FloatOrZero(Get(acc, "balance"))
  {
    if !IsDict(acc) then 0.0
    else
      var current := Get(acc, "currentBalance");
      FloatOrZero(Or(Get(acc, "balance"), if NumValue(current).Some? then current else Null))
  }

  /** A physical asset's `valuation`, else `currentValue`, else `value`. */
  function AssetValue(a: Json): (r: real)
    ensures !IsDict(a) ==> r == 0.0
    ensures IsDict(a) && Truthy(Get(a, "valuation")) ==> r == FloatOrZero(Get(a, "valuation"))
  {
    if !IsDict(a) then 0.0
    else FloatOrZero(Or(Get(a, "valuation"), Or(Get(a, "currentValue"), Get(a, "value"))))
  }

  /** A debt's `currentBalance`, else `balance`, else `principalRemaining`. */
  function DebtBalance(d: Json): (r: real)
    ensures !IsDict(d) ==> r == 0.0
    ensures IsDict(d) && Truthy(Get(d, "currentBalance")) ==> r == FloatOrZero(Get(d, "currentBalance"))
  {
    if !IsDict(d) then 0.0
    else FloatOrZero(Or(Get(d, "currentBalance"), Or(Get(d, "balance"), Get(d, "principalRemaining"))))
  }

  /**
   * The `(assets_total, liabilities_total)` of the inner `try`: account
   * balances plus physical-asset values, and debt balances; None when
   * iterating one of the three lists raises.
   */
  function Totals(d: FinancialData): (r: Option<(real, real)>)
    ensures r.Some? <==> Elements(Or(d.accounts, Arr([]))).Some? && Elements(Or(d.physicalAssets, Arr([]))).Some?
                         && Elements(Or(d.debts, Arr([]))).Some?
  {
    var accounts, assets, debts := Elements(Or(d.accounts, Arr([]))), Elements(Or(d.physicalAssets, Arr([]))),
                                   Elements(Or(d.debts, Arr([])));
    if accounts.None? || assets.None? || debts.None? then None
    else Some((Total(accounts.value, AccountBalance) + Total(assets.value, AssetValue), Total(debts.value, DebtBalance)))
  }

  /** A holding's `currentValue` (default 0) as a number, or None when `sum` over it raises. */
  function HoldingValue(h: Json): Option<real> {
    if IsDict(h) then NumValue(GetOr(h, "currentValue", Num(0.0))) else None
  }

  predicate Summable(holdings: seq<Json>) {
    forall i :: 0 <= i < |holdings| ==> HoldingValue(holdings[i]).Some?
  }

  /** `sum(h.get("currentValue", 0) for h in holdings)`. */
  function HoldingsTotal(holdings: seq<Json>): real
    requires Summable(holdings)
    decreases |holdings|
  {
    if holdings == [] then 0.0
    else HoldingsTotal(holdings[..|holdings| - 1]) + HoldingValue(holdings[|holdings| - 1]).value
  }

  /** The asset types of the holdings, `h.get("type", "unknown")`. */
  function Types(holdings: seq<Json>): (r: set<Json>)
    requires Summable(holdings)
    ensures forall i :: 0 <= i < |holdings| ==> GetOr(holdings[i], "type", Str("unknown")) in r
    decreases |holdings|
  {
    if holdings == [] then {}
    else Types(holdings[..|holdings| - 1]) + {GetOr(holdings[|holdings| - 1], "type", Str("unknown"))}
  }

  /**
   * The allocation loop: each holding adds its share of the total, in
   * percent, to its asset type; an unhashable type raises and leaves the
   * entries made so far.
   */
  function Allocation(holdings: seq<Json>, total: real): (r: (map<Json, real>, bool))
    requires Summable(holdings) && total > 0.0
    ensures r.0.Keys <= Types(holdings)
    ensures DistinctKeys(r.0)
    ensures !r.1 ==> forall t :: t in Types(holdings) ==> t in r.0 || Twin(t) in r.0
    decreases |holdings|
  {
    if holdings == [] then (map[], false)
    else
      var init := holdings[..|holdings| - 1];
      var h := holdings[|holdings| - 1];
      var prior := Allocation(init, total);
      if prior.1 then prior
      else
        var t := GetOr(h, "type", Str("unknown"));
        if !Hashable(t) then (prior.0, true)
        else
          (Credit(prior.0, t, HoldingValue(h).value / total * 100.0), false)
  }

  /**
   * Two holdings whose types are `True` and `1` share one entry, filed under
   * `True`, the key inserted first, and holding both shares.
   */
  lemma {:induction false} AllocationMergesTwins(h1: Json, h2: Json, total: real)
    requires HoldingValue(h1).Some? && HoldingValue(h2).Some? && total > 0.0
    requires GetOr(h1, "type", Str("unknown")) == Bool(true) && GetOr(h2, "type", Str("unknown")) == Num(1.0)
    ensures Allocation([h1, h2], total)
            == (map[Bool(true) := HoldingValue(h1).value / total * 100.0 + HoldingValue(h2).value / total * 100.0], false)
  {
    var s1, s2 := HoldingValue(h1).value / total * 100.0, HoldingValue(h2).value / total * 100.0;
    assert [h1, h2][..1] == [h1] && [h1][..0] == [];
    assert Allocation([], total) == (map[], false);
    assert GetItem(map[], Bool(true), 0.0) == 0.0;
    assert Credit(map[], Bool(true), s1) == map[Bool(true) := s1];
    var first := map[Bool(true) := s1];
    assert Allocation([h1], total) == (first, false);
    assert KeyFor(first, Num(1.0)) == Bool(true);
    assert GetItem(first, Num(1.0), 0.0) == s1;
    assert Credit(first, Num(1.0), s2) == map[Bool(true) := s1 + s2];
  }

  /** `allocation[t] = allocation.get(t, 0) + share`. */
  function Credit(allocation: map<Json, real>, t: Json, share: real): map<Json, real> {
    SetItem(allocation, t, GetItem(allocation, t, 0.0) + share)
  }

  /**
   * The `except` branch of the inner `try`, which holds the allocation code:
   * `portfolio.get("holdings", [])` raises unless the portfolio is a dict,
   * and the sum raises unless every holding is a dict with a numeric value.
   */
  function AllocationStep(d: FinancialData, a: Analytics): (o: Outcome)
    ensures !IsDict(d.portfolio) ==> o.raised
    ensures o.analytics == a.(investmentAllocation := o.analytics.investmentAllocation)
  {
    if !IsDict(d.portfolio) then Outcome(a, true)
    else
      match Elements(GetOr(d.portfolio, "holdings", Arr([])))
      case None => Outcome(a, true)
      case Some(holdings) =>
        if !Summable(holdings) then Outcome(a, true)
        else if HoldingsTotal(holdings) <= 0.0 then Outcome(a, false)
        else
          var r := Allocation(holdings, HoldingsTotal(holdings));
          Outcome(a.(investmentAllocation := r.0), r.1)
  }

  /** `portfolio.get("totalValue", 0)` when the portfolio is truthy; a truthy non-dict raises. */
  function NetWorthStep(d: FinancialData, a: Analytics): (o: Outcome)
    ensures o.raised <==> Truthy(d.portfolio) && !IsDict(d.portfolio)
    ensures !Truthy(d.portfolio) ==> o.analytics == a
    ensures o.analytics == a.(totalNetWorth := o.analytics.totalNetWorth)
  {
    if !Truthy(d.portfolio) then Outcome(a, false)
    else if !IsDict(d.portfolio) then Outcome(a, true)
    else Outcome(a.(totalNetWorth := GetOr(d.portfolio, "totalValue", Num(0.0))), false)
  }

  /** The inner `try` and its `except`: totals when the three lists iterate, else the allocation code. */
  function TotalsStep(d: FinancialData, a: Analytics): (o: Outcome)
    ensures o.analytics.savingsRate == a.savingsRate && o.analytics.monthlyIncome == a.monthlyIncome
    ensures o.analytics.debtToIncome == a.debtToIncome && o.analytics.budgetUtilization == a.budgetUtilization
    ensures Totals(d).Some? ==> o.analytics.investmentAllocation == a.investmentAllocation
    ensures o.analytics.totalNetWorth == a.totalNetWorth
  {
    match Totals(d)
    case Some(totals) => Outcome(a.(assetsTotal := totals.0, liabilitiesTotal := totals.1), false)
    case None => AllocationStep(d, a)
  }

  /**
   * A transaction's type and amount, read from a truthy nested
   * `transactionInfo` dict when there is one and from the transaction
   * itself otherwise; the amount is `float(amount)`, 0 when absent or
   * unparsable.
   */
  function Entry(t: Json): (e: (Json, real))
    requires IsDict(t)
    ensures IsDict(Get(t, "transactionInfo")) && Truthy(Get(t, "transactionInfo")) ==>
              e == (Get(Get(t, "transactionInfo"), "type"), FloatOrZero(Get(Get(t, "transactionInfo"), "amount")))
    ensures !(IsDict(Get(t, "transactionInfo")) && Truthy(Get(t, "transactionInfo"))) ==>
              e == (Get(t, "type"), FloatOrZero(Get(t, "amount")))
  {
    var info := if IsDict(Get(t, "transactionInfo")) then Get(t, "transactionInfo") else Null;
    if Truthy(info) then (Get(info, "type"), FloatOrZero(Get(info, "amount")))
    else (Get(t, "type"), FloatOrZero(Get(t, "amount")))
  }

  /** The transaction types that count toward income and toward expenses. */
  const IncomeType := Str("income")
  const ExpenseType := Str("expense")

  /** What one transaction adds to income and to expenses. */
  function Contribution(t: Json): (c: (real, real))
    ensures c.0 >= 0.0 && c.1 >= 0.0
    ensures !IsDict(t) ==> c == (0.0, 0.0)
  {
    if !IsDict(t) then (0.0, 0.0)
    else
      var e := Entry(t);
      if e.0 == IncomeType then (if e.1 > 0.0 then e.1 else 0.0, 0.0)
      else if e.0 == ExpenseType then (0.0, if e.1 < 0.0 then -e.1 else e.1)
      else (0.0, 0.0)
  }

  /**
   * Income takes the positive amounts of income transactions, expenses
   * the absolute amounts of expense transactions, and any other type
   * counts toward neither.
   */
  lemma {:induction false} ContributionCases(t: Json)
    requires IsDict(t)
    ensures var c, e := Contribution(t), Entry(t);
            && (e.0 == IncomeType ==> c == (if e.1 > 0.0 then e.1 else 0.0, 0.0))
            && (e.0 == ExpenseType ==> c == (0.0, if e.1 < 0.0 then -e.1 else e.1))
            && (e.0 != IncomeType && e.0 != ExpenseType ==> c == (0.0, 0.0))
  {
  }

  /** What one transaction adds to income. */
  function IncomeOf(t: Json): real {
    Contribution(t).0
  }

  /** What one transaction adds to expenses. */
  function ExpenseOf(t: Json): real {
    Contribution(t).1
  }

  /** Income and expenses accumulated over the transactions. */
  function Flows(ts: seq<Json>): (r: (real, real))
    ensures r.0 >= 0.0 && r.1 >= 0.0
  {
    TotalNonNegative(ts, IncomeOf);
    TotalNonNegative(ts, ExpenseOf);
    (Total(ts, IncomeOf), Total(ts, ExpenseOf))
  }

  /** `max(0, (income - expenses) / income * 100)`, taken only when income is positive. */
  function SavingsRate(income: real, expenses: real): (r: real)
    requires income > 0.0
    ensures r >= 0.0
    ensures expenses <= income ==> r == (income - expenses) / income * 100.0
    ensures expenses >= income ==> r == 0.0
  {
    var rate := (income - expenses) / income * 100.0;
    if expenses >= income then
      assert income - expenses <= 0.0;
      DivideNonPositive(income - expenses, income);
      0.0
    else if rate > 0.0 then rate else 0.0
  }

  lemma DivideNonPositive(x: real, y: real)
    requires x <= 0.0 && y > 0.0
    ensures x / y * 100.0 <= 0.0
  {
  }

  /** The transaction block: skipped for a falsy list; iterating anything but a list, string or dict raises. */
  function TransactionStep(d: FinancialData, a: Analytics): (o: Outcome)
    ensures o.analytics.savingsRate == a.savingsRate || (o.analytics.monthlyIncome > 0.0 && o.analytics.savingsRate >= 0.0)
    ensures o.analytics.debtToIncome == a.debtToIncome && o.analytics.budgetUtilization == a.budgetUtilization
    ensures o.analytics.investmentAllocation == a.investmentAllocation
    ensures o.analytics.assetsTotal == a.assetsTotal && o.analytics.liabilitiesTotal == a.liabilitiesTotal
    ensures o.analytics.totalNetWorth == a.totalNetWorth
  {
    if !Truthy(d.transactions) then Outcome(a, false)
    else
      match Elements(d.transactions)
      case None => Outcome(a, true)
      case Some(ts) =>
        var flows := Flows(ts);
        var a' := a.(monthlyIncome := flows.0, monthlyExpenses := flows.1);
        Outcome(if flows.0 > 0.0 then a'.(savingsRate := SavingsRate(flows.0, flows.1)) else a', false)
  }

  /** A budget's `limit` (default 0) as a number; None where `limit > 0` raises. */
  function Limit(b: Json): Option<real>
    requires IsDict(b)
  {
    NumValue(GetOr(b, "limit", Num(0.0)))
  }

  /** A budget's `spent` amount (default 0) as a number; None where the division raises. */
  function Spent(b: Json): Option<real>
    requires IsDict(b)
  {
    NumValue(GetOr(b, "spent", Num(0.0)))
  }

  function Category(b: Json): Json
    requires IsDict(b)
  {
    GetOr(b, "category", Str("unknown"))
  }

  /**
   * Whether the loop body raises on budget `b`: a non-dict budget, a
   * non-numeric limit, or beside a positive limit a non-numeric spent
   * amount or an unhashable category.
   */
  predicate BudgetRaises(b: Json) {
    !IsDict(b) || Limit(b).None? || (Limit(b).value > 0.0 && (Spent(b).None? || !Hashable(Category(b))))
  }

  /** Whether budget `b` is a dict with a positive limit whose category is `c` and utilisation `u`. */
  ghost predicate BudgetEntry(b: Json, c: Json, u: real) {
    !BudgetRaises(b) && (Category(b) == c || Category(b) == Twin(c)) && Limit(b).value > 0.0 && u == Spent(b).value / Limit(b).value * 100.0
  }

  /**
   * The budget loop: a category gets `spent / limit * 100` only when its
   * limit is positive, a later budget of the same category overwriting an
   * earlier one; a budget that raises keeps the entries made so far.
   */
  function Utilization(budgets: seq<Json>): (r: (map<Json, real>, bool))
    ensures DistinctKeys(r.0)
    ensures !r.1 ==> forall i :: 0 <= i < |budgets| ==> !BudgetRaises(budgets[i])
    decreases |budgets|
  {
    if budgets == [] then (map[], false)
    else
      var prior, b := Utilization(budgets[..|budgets| - 1]), budgets[|budgets| - 1];
      if prior.1 then prior
      else if BudgetRaises(b) then (prior.0, true)
      else if Limit(b).value <= 0.0 then prior
      else (SetItem(prior.0, Category(b), Spent(b).value / Limit(b).value * 100.0), false)
  }

  /** Every entry of the budget loop comes from a budget of that category with a positive limit and is its utilisation. */
  lemma {:induction false} UtilizationEntries(budgets: seq<Json>)
    ensures var r := Utilization(budgets);
            forall c :: c in r.0 ==> exists i :: 0 <= i < |budgets| && BudgetEntry(budgets[i], c, r.0[c])
    decreases |budgets|
  {
    if budgets != [] {
      var init, b := budgets[..|budgets| - 1], budgets[|budgets| - 1];
      UtilizationEntries(init);
      var prior, r := Utilization(init), Utilization(budgets);
      var added := !prior.1 && !BudgetRaises(b) && Limit(b).value > 0.0;
      forall c | c in r.0
        ensures exists i :: 0 <= i < |budgets| && BudgetEntry(budgets[i], c, r.0[c])
      {
        if added && c == KeyFor(prior.0, Category(b)) {
          TwinTwin(Category(b));
          assert BudgetEntry(budgets[|budgets| - 1], c, r.0[c]);
        } else {
          assert c in prior.0 && r.0[c] == prior.0[c];
          assert c in Utilization(init).0;
          var k :| 0 <= k < |init| && BudgetEntry(init[k], c, prior.0[c]);
          assert budgets[k] == init[k];
        }
      }
    }
  }

  /** When the budget loop completes, every budget with a positive limit has an entry. */
  lemma {:induction false} UtilizationComplete(budgets: seq<Json>)
    ensures var r := Utilization(budgets);
            !r.1 ==> forall i :: 0 <= i < |budgets| && Limit(budgets[i]).value > 0.0 ==>
                      Category(budgets[i]) in r.0 || Twin(Category(budgets[i])) in r.0
    decreases |budgets|
  {
    if budgets != [] {
      var init := budgets[..|budgets| - 1];
      UtilizationComplete(init);
      assert forall k :: 0 <= k < |init| ==> init[k] == budgets[k];
    }
  }

  /**
   * Budgets of the categories `False` and `0` share one entry: it keeps the
   * key `False`, inserted first, and takes the later budget's utilisation.
   */
  lemma {:induction false} UtilizationMergesTwins(b1: Json, b2: Json)
    requires !BudgetRaises(b1) && !BudgetRaises(b2) && Limit(b1).value > 0.0 && Limit(b2).value > 0.0
    requires Category(b1) == Bool(false) && Category(b2) == Num(0.0)
    ensures Utilization([b1, b2]) == (map[Bool(false) := Spent(b2).value / Limit(b2).value * 100.0], false)
  {
    var u1, u2 := Spent(b1).value / Limit(b1).value * 100.0, Spent(b2).value / Limit(b2).value * 100.0;
    assert [b1, b2][..1] == [b1] && [b1][..0] == [];
    assert Utilization([]) == (map[], false);
    assert SetItem(map[], Bool(false), u1) == map[Bool(false) := u1];
    var first := map[Bool(false) := u1];
    assert Utilization([b1]) == (first, false);
    assert KeyFor(first, Num(0.0)) == Bool(false);
    assert SetItem(first, Num(0.0), u2) == map[Bool(false) := u2];
  }

  /** The budget block; `budget_utilization` holds only what this loop writes. */
  function BudgetStep(d: FinancialData, a: Analytics): (o: Outcome)
    requires a.budgetUtilization == map[]
    ensures o.analytics == a.(budgetUtilization := o.analytics.budgetUtilization)
  {
    match Elements(d.budgets)
    case None => Outcome(a, true)
    case Some(budgets) =>
      var r := Utilization(budgets);
      Outcome(a.(budgetUtilization := r.0), r.1)
  }

  /**
   * `_calculate_analytics`: the net worth, the inner `try` over accounts,
   * assets and debts (whose `except` runs the allocation code), the
   * transactions and the budgets, in that order; a step that raises ends
   * the computation and the analytics built so far are returned.
   */
  function AnalyticsOf(d: FinancialData): (a: Analytics)
    ensures a.debtToIncome == 0.0
    ensures a.savingsRate >= 0.0
    ensures a.savingsRate != 0.0 ==> a.monthlyIncome > 0.0
  {
    var o1 := NetWorthStep(d, Defaults);
    if o1.raised then o1.analytics
    else
      var o2 := TotalsStep(d, o1.analytics);
      if o2.raised then o2.analytics
      else
        var o3 := TransactionStep(d, o2.analytics);
        if o3.raised then o3.analytics
        else BudgetStep(d, o3.analytics).analytics
  }

  /** The later steps leave the net worth as the first step read it. */
  lemma {:induction false} NetWorthKept(d: FinancialData)
    ensures AnalyticsOf(d).totalNetWorth == NetWorthStep(d, Defaults).analytics.totalNetWorth
  {
  }

  /** The allocation code runs only when the account, asset and debt aggregation raises. */
  lemma {:induction false} AllocationOnlyAfterAggregationError(d: FinancialData)
    requires Totals(d).Some?
    ensures AnalyticsOf(d).investmentAllocation == map[]
  {
  }

  /** Every budget entry comes from a dict budget of that category with a positive limit, and is its utilisation. */
  lemma {:induction false} BudgetEntriesHavePositiveLimits(d: FinancialData, c: Json)
    requires c in AnalyticsOf(d).budgetUtilization
    ensures Elements(d.budgets).Some?
    ensures exists i :: 0 <= i < |Elements(d.budgets).value|
                        && BudgetEntry(Elements(d.budgets).value[i], c, AnalyticsOf(d).budgetUtilization[c])
  {
    UtilizationEntries(Elements(d.budgets).value);
    var o1 := NetWorthStep(d, Defaults);
    var o2 := TotalsStep(d, o1.analytics);
    var o3 := TransactionStep(d, o2.analytics);
    assert !o1.raised && !o2.raised && !o3.raised;
    assert AnalyticsOf(d) == BudgetStep(d, o3.analytics).analytics;
    assert c in Utilization(Elements(d.budgets).value).0;
  }

  /** When no step raises, every dict budget with a positive limit has an entry. */
  lemma {:induction false} PositiveLimitsHaveEntries(d: FinancialData, i: nat)
    requires Elements(d.budgets).Some? && i < |Elements(d.budgets).value|
    requires !NetWorthStep(d, Defaults).raised && Totals(d).Some?
    requires !TransactionStep(d, TotalsStep(d, NetWorthStep(d, Defaults).analytics).analytics).raised
    requires !Utilization(Elements(d.budgets).value).1
    requires Limit(Elements(d.budgets).value[i]).value > 0.0
    ensures var c := Category(Elements(d.budgets).value[i]);
            c in AnalyticsOf(d).budgetUtilization || Twin(c) in AnalyticsOf(d).budgetUtilization
  {
    UtilizationComplete(Elements(d.budgets).value);
  }

  /** When the three lists iterate, the totals are the sums over their dict entries. */
  lemma {:induction false} AggregatedTotals(d: FinancialData)
    requires !NetWorthStep(d, Defaults).raised && Totals(d).Some?
    ensures var accounts, assets, debts := Elements(Or(d.accounts, Arr([]))).value,
                                           Elements(Or(d.physicalAssets, Arr([]))).value,
                                           Elements(Or(d.debts, Arr([]))).value;
            && AnalyticsOf(d).assetsTotal == Total(Dicts(accounts), AccountBalance) + Total(Dicts(assets), AssetValue)
            && AnalyticsOf(d).liabilitiesTotal == Total(Dicts(debts), DebtBalance)
  {
    var accounts, assets, debts := Elements(Or(d.accounts, Arr([]))).value,
                                   Elements(Or(d.physicalAssets, Arr([]))).value,
                                   Elements(Or(d.debts, Arr([]))).value;
    var o1 := NetWorthStep(d, Defaults);
    var o2 := TotalsStep(d, o1.analytics);
    assert o2.analytics.assetsTotal == Total(accounts, AccountBalance) + Total(assets, AssetValue);
    assert o2.analytics.liabilitiesTotal == Total(debts, DebtBalance);
    TotalOfDicts(accounts, AccountBalance);
    TotalOfDicts(assets, AssetValue);
    TotalOfDicts(debts, DebtBalance);
  }

  /** A transaction of any other type changes neither income nor expenses. */
  lemma {:induction false} OtherTypesIgnored(ts: seq<Json>, t: Json)
    requires IsDict(t) ==> Entry(t).0 != IncomeType && Entry(t).0 != ExpenseType
    ensures Flows(ts + [t]) == Flows(ts)
  {
    NoContribution(t);
    TotalSnoc(ts, t, IncomeOf);
    TotalSnoc(ts, t, ExpenseOf);
  }

  lemma {:induction false} NoContribution(t: Json)
    requires IsDict(t) ==> Entry(t).0 != IncomeType && Entry(t).0 != ExpenseType
    ensures IncomeOf(t) == 0.0 && ExpenseOf(t) == 0.0
  {
    if IsDict(t) {
      ContributionCases(t);
    }
  }

  // ---------------------------------------------------------------- analytics, step by step

  /** An accumulator loop `total += f(x)`. */
  method Accumulate(items: seq<Json>, f: Json -> real) returns (total: real)
    ensures total == Total(items, f)
  {
    total := 0.0;
    var i := 0;
    while i < |items|
      invariant 0 <= i <= |items|
      invariant total == Total(items[..i], f)
    {
      TotalNext(items, i, f);
      total := total + f(items[i]);
      i := i + 1;
    }
    assert items[..|items|] == items;
  }

  /** `sum(h.get("currentValue", 0) for h in holdings)`, or None where it raises. */
  method SumHoldings(holdings: seq<Json>) returns (total: Option<real>)
    ensures total.Some? <==> Summable(holdings)
    ensures total.Some? ==> total.value == HoldingsTotal(holdings)
  {
    var sum := 0.0;
    var i := 0;
    while i < |holdings|
      invariant 0 <= i <= |holdings|
      invariant Summable(holdings[..i]) && sum == HoldingsTotal(holdings[..i])
    {
      assert holdings[..i + 1][..i] == holdings[..i];
      var v := HoldingValue(holdings[i]);
      if v.None? {
        return None;
      }
      sum := sum + v.value;
      i := i + 1;
    }
    assert holdings[..|holdings|] == holdings;
    return Some(sum);
  }

  /** The allocation loop, stopping at the first unhashable asset type. */
  method Allocate(holdings: seq<Json>, total: real) returns (allocation: map<Json, real>, raised: bool)
    requires Summable(holdings) && total > 0.0
    ensures (allocation, raised) == Allocation(holdings, total)
  {
    allocation := map[];
    var i := 0;
    while i < |holdings|
      invariant 0 <= i <= |holdings|
      invariant Summable(holdings[..i]) && Allocation(holdings[..i], total) == (allocation, false)
    {
      AllocationNext(holdings, i, total);
      var h := holdings[i];
      var assetType := GetOr(h, "type", Str("unknown"));
      if !Hashable(assetType) {
        AllocationStops(holdings, i + 1, total);
        return allocation, true;
      }
      allocation := Credit(allocation, assetType, HoldingValue(h).value / total * 100.0);
      i := i + 1;
    }
    assert holdings[..|holdings|] == holdings;
    raised := false;
  }

  /** One more holding, after holdings that did not raise. */
  lemma {:induction false} AllocationNext(holdings: seq<Json>, i: nat, total: real)
    requires Summable(holdings) && total > 0.0 && i < |holdings|
    ensures Summable(holdings[..i]) && Summable(holdings[..i + 1])
    ensures var prior, h := Allocation(holdings[..i], total), holdings[i];
            var t := GetOr(h, "type", Str("unknown"));
            !prior.1 ==>
              Allocation(holdings[..i + 1], total)
              == if !Hashable(t) then (prior.0, true)
                 else (Credit(prior.0, t, HoldingValue(h).value / total * 100.0), false)
  {
    var front := holdings[..i + 1];
    assert front[..i] == holdings[..i];
  }

  /** Once the allocation loop has raised, later holdings change nothing. */
  lemma {:induction false} AllocationStops(holdings: seq<Json>, i: nat, total: real)
    requires Summable(holdings) && total > 0.0 && 0 < i <= |holdings|
    requires Allocation(holdings[..i], total).1
    ensures Allocation(holdings, total) == Allocation(holdings[..i], total)
    decreases |holdings|
  {
    if i < |holdings| {
      var init := holdings[..|holdings| - 1];
      assert init[..i] == holdings[..i];
      AllocationStops(init, i, total);
    } else {
      assert holdings[..i] == holdings;
    }
  }

  /** The transaction loop. */
  method Tally(ts: seq<Json>) returns (income: real, expenses: real)
    ensures (income, expenses) == Flows(ts)
  {
    income, expenses := 0.0, 0.0;
    var i := 0;
    while i < |ts|
      invariant 0 <= i <= |ts|
      invariant income == Total(ts[..i], IncomeOf) && expenses == Total(ts[..i], ExpenseOf)
    {
      TotalNext(ts, i, IncomeOf);
      TotalNext(ts, i, ExpenseOf);
      var t := ts[i];
      if IsDict(t) {
        ContributionCases(t);
        var info := if IsDict(Get(t, "transactionInfo")) then Get(t, "transactionInfo") else Null;
        var amount, kind;
        if Truthy(info) {
          amount, kind := Get(info, "amount"), Get(info, "type");
        } else {
          amount, kind := Get(t, "amount"), Get(t, "type");
        }
        var v := FloatOrZero(amount);
        if kind == IncomeType {
          income := income + (if v > 0.0 then v else 0.0);
        } else if kind == ExpenseType {
          expenses := expenses + (if v < 0.0 then -v else v);
        }
      }
      i := i + 1;
    }
    assert ts[..|ts|] == ts;
  }

  /** The budget loop, stopping at the first budget that raises. */
  method Utilize(budgets: seq<Json>) returns (utilization: map<Json, real>, raised: bool)
    ensures (utilization, raised) == Utilization(budgets)
  {
    utilization := map[];
    var i := 0;
    while i < |budgets|
      invariant 0 <= i <= |budgets|
      invariant Utilization(budgets[..i]) == (utilization, false)
    {
      var b := budgets[i];
      UtilizationNext(budgets, i);
      if BudgetRaises(b) {
        UtilizationStops(budgets, i + 1);
        return utilization, true;
      }
      var limit := Limit(b).value;
      if limit > 0.0 {
        utilization := SetItem(utilization, Category(b), Spent(b).value / limit * 100.0);
      }
      i := i + 1;
    }
    assert budgets[..|budgets|] == budgets;
    raised := false;
  }

  /** One more budget, after budgets that did not raise. */
  lemma {:induction false} UtilizationNext(budgets: seq<Json>, i: nat)
    requires i < |budgets| && !Utilization(budgets[..i]).1
    ensures var prior, b := Utilization(budgets[..i]).0, budgets[i];
            Utilization(budgets[..i + 1])
            == if BudgetRaises(b) then (prior, true)
               else if Limit(b).value > 0.0 then (SetItem(prior, Category(b), Spent(b).value / Limit(b).value * 100.0), false)
               else (prior, false)
  {
    assert budgets[..i + 1][..i] == budgets[..i];
  }

  /** Once the budget loop has raised, later budgets change nothing. */
  lemma {:induction false} UtilizationStops(budgets: seq<Json>, i: nat)
    requires 0 < i <= |budgets| && Utilization(budgets[..i]).1
    ensures Utilization(budgets) == Utilization(budgets[..i])
    decreases |budgets|
  {
    if i < |budgets| {
      var init := budgets[..|budgets| - 1];
      assert init[..i] == budgets[..i];
      UtilizationStops(init, i);
    } else {
      assert budgets[..i] == budgets;
    }
  }

  /** The net-worth block. */
  method NetWorthBlock(d: FinancialData, a: Analytics) returns (o: Outcome)
    ensures o == NetWorthStep(d, a)
  {
    o := Outcome(a, false);
    if Truthy(d.portfolio) {
      if !IsDict(d.portfolio) {
        return Outcome(a, true);
      }
      o := Outcome(a.(totalNetWorth := GetOr(d.portfolio, "totalValue", Num(0.0))), false);
    }
  }

  /** The allocation code of the `except` branch. */
  method AllocationBlock(d: FinancialData, a: Analytics) returns (o: Outcome)
    ensures o == AllocationStep(d, a)
  {
    if !IsDict(d.portfolio) {
      return Outcome(a, true);
    }
    var holdings := Elements(GetOr(d.portfolio, "holdings", Arr([])));
    if holdings.None? {
      return Outcome(a, true);
    }
    var total := SumHoldings(holdings.value);
    if total.None? {
      return Outcome(a, true);
    }
    o := Outcome(a, false);
    if total.value > 0.0 {
      var allocation, raised := Allocate(holdings.value, total.value);
      o := Outcome(a.(investmentAllocation := allocation), raised);
    }
  }

  /** The accounts, assets and debts block, whose `except` runs the allocation code. */
  method TotalsBlock(d: FinancialData, a: Analytics) returns (o: Outcome)
    ensures o == TotalsStep(d, a)
  {
    var accounts, assets, debts := Elements(Or(d.accounts, Arr([]))), Elements(Or(d.physicalAssets, Arr([]))),
                                   Elements(Or(d.debts, Arr([])));
    if accounts.Some? && assets.Some? && debts.Some? {
      var accountsTotal := Accumulate(accounts.value, AccountBalance);
      var assetsTotal := Accumulate(assets.value, AssetValue);
      var debtsTotal := Accumulate(debts.value, DebtBalance);
      o := Outcome(a.(assetsTotal := accountsTotal + assetsTotal, liabilitiesTotal := debtsTotal), false);
    } else {
      o := AllocationBlock(d, a);
    }
  }

  /** The transaction block. */
  method TransactionBlock(d: FinancialData, a: Analytics) returns (o: Outcome)
    ensures o == TransactionStep(d, a)
  {
    o := Outcome(a, false);
    if Truthy(d.transactions) {
      var ts := Elements(d.transactions);
      if ts.None? {
        return Outcome(a, true);
      }
      var income, expenses := Tally(ts.value);
      var b := a.(monthlyIncome := income, monthlyExpenses := expenses);
      if income > 0.0 {
        b := b.(savingsRate := SavingsRate(income, expenses));
      }
      o := Outcome(b, false);
    }
  }

  /** The budget block. */
  method BudgetBlock(d: FinancialData, a: Analytics) returns (o: Outcome)
    requires a.budgetUtilization == map[]
    ensures o == BudgetStep(d, a)
  {
    var budgets := Elements(d.budgets);
    if budgets.None? {
      return Outcome(a, true);
    }
    var utilization, raised := Utilize(budgets.value);
    o := Outcome(a.(budgetUtilization := utilization), raised);
  }

  /**
   * `_calculate_analytics`, writing into the analytics record block by
   * block and returning it as it stands when a block raises.
   */
  method CalculateAnalytics(d: FinancialData) returns (a: Analytics)
    ensures a == AnalyticsOf(d)
  {
    var o := NetWorthBlock(d, Defaults);
    if o.raised {
      return o.analytics;
    }
    o := TotalsBlock(d, o.analytics);
    if o.raised {
      return o.analytics;
    }
    o := TransactionBlock(d, o.analytics);
    if o.raised {
      return o.analytics;
    }
    o := BudgetBlock(d, o.analytics);
    a := o.analytics;
  }

  /** Analytics read only the fetched records, never the analytics or the mirror keys. */
  lemma {:induction false} AnalyticsIgnoresDerived(d: FinancialData, a: Option<Analytics>, up: Option<Json>, rt: Option<Json>)
    ensures AnalyticsOf(d.(analytics := a, userProfile := up, recentTransactions := rt)) == AnalyticsOf(d)
  {
    var e := d.(analytics := a, userProfile := up, recentTransactions := rt);
    assert NetWorthStep(e, Defaults) == NetWorthStep(d, Defaults);
    TotalsIgnoreDerived(d, e);
    TransactionsIgnoreDerived(d, e);
  }

  /** The totals step reads only the fetched records. */
  lemma {:induction false} TotalsIgnoreDerived(d: FinancialData, e: FinancialData)
    requires e == d.(analytics := e.analytics, userProfile := e.userProfile, recentTransactions := e.recentTransactions)
    ensures forall x :: TotalsStep(e, x) == TotalsStep(d, x)
  {
    assert Totals(e) == Totals(d);
  }

  /** The transaction step reads only the fetched records. */
  lemma {:induction false} TransactionsIgnoreDerived(d: FinancialData, e: FinancialData)
    requires e == d.(analytics := e.analytics, userProfile := e.userProfile, recentTransactions := e.recentTransactions)
    ensures forall x :: TransactionStep(e, x) == TransactionStep(d, x)
  {
  }

  // ---------------------------------------------------------------- portfolio from investments

  /** A list of holdings' values: every holding is a dict whose `currentValue` is a number. */
  function Holding(symbol: Json, kind: Json, value: Json): (h: Json)
    ensures IsDict(h) && h.fields.Keys == {"symbol", "type", "currentValue"}
    ensures GetOr(h, "currentValue", Num(0.0)) == value && GetOr(h, "type", Str("unknown")) == kind
  {
    Obj(map["symbol" := symbol, "type" := kind, "currentValue" := value])
  }

  /** `inv.get("securityInfo").get(key)` when that is a dict, else `inv.get(key)`: the synthesis block's lookup. */
  function SecurityField(inv: Json, key: string): Json
    requires IsDict(inv)
  {
    var info := Get(inv, "securityInfo");
    if IsDict(info) then Get(info, key) else Get(inv, key)
  }

  /**
   * The value the synthesis block reads for an investment: a truthy
   * `position`'s `marketValue`, else `currentValue` (default 0); None where
   * the code raises (a truthy non-dict position, or a truthy value that is
   * not a number, which `total_value += ...` refuses).
   */
  function SynthesisValue(inv: Json): (r: Option<Json>)
    requires IsDict(inv)
    ensures r.Some? ==> NumValue(r.value).Some?
  {
    var position := Get(inv, "position");
    if Truthy(position) && !IsDict(position) then None
    else
      var market := if Truthy(position) then Get(position, "marketValue") else Null;
      var value := Or(Or(market, GetOr(inv, "currentValue", Num(0.0))), Num(0.0));
      if NumValue(value).Some? then Some(value) else None
  }

  /**
   * The synthesis loop: the total of the investments' values and one
   * holding per investment; None when an investment is not a dict or its
   * value raises, which abandons the synthesis.
   */
  function Synthesis(investments: seq<Json>): (r: Option<(real, seq<Json>)>)
    ensures r.Some? ==> |r.value.1| == |investments| && Summable(r.value.1)
    ensures r.Some? ==> r.value.0 == HoldingsTotal(r.value.1)
    decreases |investments|
  {
    if investments == [] then Some((0.0, []))
    else
      var init, inv := investments[..|investments| - 1], investments[|investments| - 1];
      match Synthesis(init)
      case None => None
      case Some(prior) =>
        if !IsDict(inv) || SynthesisValue(inv).None? then None
        else
          HoldingsSnoc(prior.1, SynthesisHolding(inv));
          Some(Synthesized(prior, inv))
  }

  /** The holding the synthesis block makes of a dict investment whose value reads. */
  function SynthesisHolding(inv: Json): (h: Json)
    requires IsDict(inv) && SynthesisValue(inv).Some?
    ensures HoldingValue(h) == NumValue(SynthesisValue(inv).value)
  {
    Holding(SecurityField(inv, "symbol"), SecurityField(inv, "type"), SynthesisValue(inv).value)
  }

  /** The synthesis completes exactly when every investment is a dict whose value reads. */
  lemma {:induction false} SynthesisSucceeds(investments: seq<Json>)
    ensures Synthesis(investments).Some?
            <==> forall i :: 0 <= i < |investments| ==> IsDict(investments[i]) && SynthesisValue(investments[i]).Some?
    decreases |investments|
  {
    if investments != [] {
      var init := investments[..|investments| - 1];
      SynthesisSucceeds(init);
      assert forall k :: 0 <= k < |init| ==> init[k] == investments[k];
    }
  }

  /** One synthesis step: the investment's value is added to the total and its holding appended. */
  function Synthesized(prior: (real, seq<Json>), inv: Json): (real, seq<Json>)
    requires IsDict(inv) && SynthesisValue(inv).Some?
  {
    (prior.0 + NumValue(SynthesisValue(inv).value).value, prior.1 + [SynthesisHolding(inv)])
  }

  /** Appending a readable holding keeps a list summable and adds its value to the total. */
  lemma {:induction false} HoldingsSnoc(holdings: seq<Json>, h: Json)
    requires Summable(holdings) && HoldingValue(h).Some?
    ensures Summable(holdings + [h])
    ensures HoldingsTotal(holdings + [h]) == HoldingsTotal(holdings) + HoldingValue(h).value
  {
    assert (holdings + [h])[..|holdings|] == holdings;
  }

  /** The enrichment block's value for a dict investment: `float(...)` of the market or current value, else 0. */
  function EnrichmentValue(inv: Json): real
    requires IsDict(inv)
  {
    var position := Get(inv, "position");
    var value := if IsDict(position) then Get(position, "marketValue") else Null;
    FloatOrZero(if value == Null then Get(inv, "currentValue") else value)
  }

  /** The enrichment block's holding for a dict investment. */
  function EnrichmentHolding(inv: Json): (h: Json)
    requires IsDict(inv)
    ensures HoldingValue(h) == Some(EnrichmentValue(inv))
  {
    var info := Get(inv, "securityInfo");
    var info := if IsDict(info) then info else Obj(map[]);
    Holding(Or(Get(info, "symbol"), Get(inv, "symbol")), Or(Get(info, "type"), Get(inv, "type")),
            Num(EnrichmentValue(inv)))
  }

  /** The enrichment loop: one holding per dict investment (others are skipped) and their total. */
  function Enrichment(investments: seq<Json>): (r: (real, seq<Json>))
    decreases |investments|
  {
    if investments == [] then (0.0, [])
    else
      var prior, inv := Enrichment(investments[..|investments| - 1]), investments[|investments| - 1];
      if !IsDict(inv) then prior
      else (prior.0 + EnrichmentValue(inv), prior.1 + [EnrichmentHolding(inv)])
  }

  /** The enrichment loop makes one holding per dict investment, and its total is the sum of their values. */
  lemma {:induction false} EnrichmentTotals(investments: seq<Json>)
    ensures var r := Enrichment(investments);
            |r.1| == |Dicts(investments)| && Summable(r.1) && r.0 == HoldingsTotal(r.1)
    decreases |investments|
  {
    if investments != [] {
      var init, inv := investments[..|investments| - 1], investments[|investments| - 1];
      EnrichmentTotals(init);
      assert investments == init + [inv];
      DictsAppend(init, inv);
      var prior := Enrichment(init);
      if IsDict(inv) {
        var holdings := prior.1 + [EnrichmentHolding(inv)];
        assert holdings[..|holdings| - 1] == prior.1;
      }
    }
  }

  /** `x in (None, 0)`: None, and whatever equals 0 (`0`, `0.0`, `False`). */
  predicate NoneOrZero(x: Json) {
    x == Null || x == Num(0.0) || x == Bool(false)
  }

  /** The data with the analytics recomputed over its records. */
  function Recomputed(d: FinancialData): (r: FinancialData)
    ensures r.analytics == Some(AnalyticsOf(d)) && r == d.(analytics := r.analytics)
  {
    d.(analytics := Some(AnalyticsOf(d)))
  }

  /**
   * The `try` block that fills in the portfolio. With no (truthy) portfolio
   * and a non-empty list of investments, a portfolio is synthesised from
   * them; with a dict portfolio without holdings, the holdings are derived
   * from the investments and a total value of None or 0 is replaced by
   * theirs. The analytics are recomputed after either; an exception leaves
   * the data as it was.
   */
  function WithPortfolio(d: FinancialData): (r: FinancialData)
    ensures r == d.(portfolio := r.portfolio, analytics := r.analytics)
    ensures r == d || r.analytics == Some(AnalyticsOf(r.(analytics := d.analytics)))
  {
    var investing := d.investments.Arr? && d.investments.items != [];
    if !Truthy(d.portfolio) && investing then
      match Synthesis(d.investments.items)
      case None => d
      case Some(s) => Recomputed(d.(portfolio := Obj(map["totalValue" := Num(s.0), "holdings" := Arr(s.1)])))
    else if d.portfolio != Null && IsDict(d.portfolio) then
      var holdings := Get(d.portfolio, "holdings");
      if Truthy(holdings) && NumValue(holdings).Some? then d   // `len` of a number raises
      else if Truthy(holdings) || !investing then d
      else
        var e := Enrichment(d.investments.items);
        var total := if NoneOrZero(Get(d.portfolio, "totalValue")) then Num(e.0) else Get(d.portfolio, "totalValue");
        Recomputed(d.(portfolio := Obj(d.portfolio.fields["totalValue" := total]["holdings" := Arr(e.1)])))
    else d
  }

  /**
   * A synthesised portfolio holds one holding per investment, and its total
   * value is the sum of the holdings' values.
   */
  lemma {:induction false} SynthesizedPortfolio(d: FinancialData)
    requires !Truthy(d.portfolio) && d.investments.Arr? && d.investments.items != []
    requires Synthesis(d.investments.items).Some?
    ensures var s := Synthesis(d.investments.items).value;
            && WithPortfolio(d).portfolio == Obj(map["totalValue" := Num(HoldingsTotal(s.1)), "holdings" := Arr(s.1)])
            && |s.1| == |d.investments.items|
  {
  }

  /** The total value of a synthesised portfolio becomes the net worth of the recomputed analytics. */
  lemma {:induction false} SynthesizedNetWorth(d: FinancialData)
    requires !Truthy(d.portfolio) && d.investments.Arr? && d.investments.items != []
    requires Synthesis(d.investments.items).Some?
    ensures AnalyticsOf(WithPortfolio(d)).totalNetWorth == Num(HoldingsTotal(Synthesis(d.investments.items).value.1))
  {
    SynthesizedPortfolio(d);
    var s := Synthesis(d.investments.items).value;
    var r := WithPortfolio(d);
    assert "totalValue" in r.portfolio.fields;
    DictNetWorth(r);
  }

  /** A truthy dict portfolio's total value, 0 when absent, is the net worth. */
  lemma {:induction false} DictNetWorth(d: FinancialData)
    requires IsDict(d.portfolio) && Truthy(d.portfolio)
    ensures AnalyticsOf(d).totalNetWorth == GetOr(d.portfolio, "totalValue", Num(0.0))
  {
    NetWorthKept(d);
  }

  /** One investment that is not a dict, or whose value raises, abandons the synthesis. */
  lemma {:induction false} SynthesisAbandoned(d: FinancialData, i: nat)
    requires !Truthy(d.portfolio) && d.investments.Arr? && i < |d.investments.items|
    requires !IsDict(d.investments.items[i]) || SynthesisValue(d.investments.items[i]).None?
    ensures WithPortfolio(d) == d
  {
    SynthesisFails(d.investments.items, i);
  }

  /**
   * Enriching a dict portfolio without holdings: the holdings become one per
   * dict investment, and the total value is theirs only when it was None or 0.
   */
  lemma {:induction false} EnrichedPortfolio(d: FinancialData)
    requires IsDict(d.portfolio) && Truthy(d.portfolio) && !Truthy(Get(d.portfolio, "holdings"))
    requires d.investments.Arr? && d.investments.items != []
    ensures var r, e := WithPortfolio(d), Enrichment(d.investments.items);
            && IsDict(r.portfolio)
            && Get(r.portfolio, "holdings") == Arr(e.1) && |e.1| == |Dicts(d.investments.items)| && Summable(e.1)
            && (NoneOrZero(Get(d.portfolio, "totalValue")) ==> Get(r.portfolio, "totalValue") == Num(HoldingsTotal(e.1)))
            && (!NoneOrZero(Get(d.portfolio, "totalValue")) ==> Get(r.portfolio, "totalValue") == Get(d.portfolio, "totalValue"))
            && r.analytics == Some(AnalyticsOf(r.(analytics := d.analytics)))
  {
    EnrichmentTotals(d.investments.items);
  }

  /** The synthesis loop; None when an investment raises. */
  method Synthesize(investments: seq<Json>) returns (r: Option<(real, seq<Json>)>)
    ensures r == Synthesis(investments)
  {
    var total, holdings := 0.0, [];
    var i := 0;
    while i < |investments|
      invariant 0 <= i <= |investments|
      invariant Synthesis(investments[..i]) == Some((total, holdings))
    {
      var inv := investments[i];
      if !IsDict(inv) {
        SynthesisFails(investments, i);
        return None;
      }
      var value := SynthesisValue(inv);
      if value.None? {
        SynthesisFails(investments, i);
        return None;
      }
      SynthesisNext(investments, i);
      ghost var prior := (total, holdings);
      total, holdings := total + NumValue(value.value).value, holdings + [SynthesisHolding(inv)];
      assert (total, holdings) == Synthesized(prior, inv);
      i := i + 1;
    }
    assert investments[..|investments|] == investments;
    return Some((total, holdings));
  }

  /** The enrichment loop, which skips non-dict investments. */
  method Enrich(investments: seq<Json>) returns (total: real, holdings: seq<Json>)
    ensures (total, holdings) == Enrichment(investments)
  {
    total, holdings := 0.0, [];
    var i := 0;
    while i < |investments|
      invariant 0 <= i <= |investments|
      invariant Enrichment(investments[..i]) == (total, holdings)
    {
      assert investments[..i + 1][..i] == investments[..i];
      var inv := investments[i];
      if IsDict(inv) {
        total := total + EnrichmentValue(inv);
        holdings := holdings + [EnrichmentHolding(inv)];
      }
      i := i + 1;
    }
    assert investments[..|investments|] == investments;
  }

  /**
   * The block that fills in the portfolio: synthesis, or enrichment of a
   * dict portfolio without holdings, each followed by fresh analytics.
   */
  method FillPortfolio(d: FinancialData) returns (r: FinancialData)
    ensures r == WithPortfolio(d)
  {
    var investing := d.investments.Arr? && d.investments.items != [];
    if !Truthy(d.portfolio) && investing {
      var synthesis := Synthesize(d.investments.items);
      if synthesis.None? {
        return d;
      }
      r := d.(portfolio := Obj(map["totalValue" := Num(synthesis.value.0), "holdings" := Arr(synthesis.value.1)]));
    } else if d.portfolio != Null && IsDict(d.portfolio) {
      var current := Get(d.portfolio, "holdings");
      if Truthy(current) && NumValue(current).Some? {
        return d;
      }
      if Truthy(current) || !investing {
        return d;
      }
      var total, holdings := Enrich(d.investments.items);
      var fields := d.portfolio.fields;
      if NoneOrZero(Get(d.portfolio, "totalValue")) {
        fields := fields["totalValue" := Num(total)];
      } else {
        fields := fields["totalValue" := Get(d.portfolio, "totalValue")];
      }
      r := d.(portfolio := Obj(fields["holdings" := Arr(holdings)]));
    } else {
      return d;
    }
    var analytics := CalculateAnalytics(r);
    r := r.(analytics := Some(analytics));
  }

  /** One more investment for the synthesis loop, after investments that did not raise. */
  lemma {:induction false} SynthesisNext(investments: seq<Json>, i: nat)
    requires i < |investments| && Synthesis(investments[..i]).Some?
    ensures var prior, inv := Synthesis(investments[..i]).value, investments[i];
            IsDict(inv) && SynthesisValue(inv).Some? ==> Synthesis(investments[..i + 1]) == Some(Synthesized(prior, inv))
  {
    assert investments[..i + 1][..i] == investments[..i];
  }

  /** An investment that is not a dict, or whose value raises, abandons the whole synthesis. */
  lemma {:induction false} SynthesisFails(investments: seq<Json>, i: nat)
    requires i < |investments|
    requires !IsDict(investments[i]) || SynthesisValue(investments[i]).None?
    ensures Synthesis(investments).None?
  {
    SynthesisSucceeds(investments);
  }

  // ---------------------------------------------------------------- assembling the context

  /** The nine requests, in the order their results arrive. */
  const TaskKeys := ["profile", "portfolio", "transactions", "budgets", "goals", "investments",
                     "accounts", "debts", "physical_assets"]

  /**
   * Storing the result of request `k`: a failed request (None) keeps the
   * key's default, and a profile that is a dict is normalised.
   */
  function Store(d: FinancialData, k: nat, result: Option<Json>): (r: FinancialData)
    requires k < |TaskKeys|
    ensures result.None? ==> r == d
    ensures r.analytics == d.analytics && r.userProfile == d.userProfile && r.recentTransactions == d.recentTransactions
    ensures r.profile == if k == 0 && result.Some? then (if IsDict(result.value) then NormalizeProfile(result.value)
                                                         else result.value) else d.profile
    ensures r.portfolio == if k == 1 && result.Some? then result.value else d.portfolio
    ensures r.transactions == if k == 2 && result.Some? then result.value else d.transactions
    ensures r.investments == if k == 5 && result.Some? then result.value else d.investments
  {
    match result
    case None => d
    case Some(v) =>
      if k == 0 then d.(profile := if IsDict(v) then NormalizeProfile(v) else v)
      else if k == 1 then d.(portfolio := v)
      else if k == 2 then d.(transactions := v)
      else if k == 3 then d.(budgets := v)
      else if k == 4 then d.(goals := v)
      else if k == 5 then d.(investments := v)
      else if k == 6 then d.(accounts := v)
      else if k == 7 then d.(debts := v)
      else d.(physicalAssets := v)
  }

  /** The results of the first `n` requests stored into the initial dict. */
  function Collected(results: seq<Option<Json>>, n: nat): (d: FinancialData)
    requires n <= |results| == |TaskKeys|
    ensures d.analytics.None? && d.userProfile.None? && d.recentTransactions.None?
    ensures d.portfolio == if n > 1 then results[1].GetOr(Null) else Null
    ensures d.transactions == if n > 2 then results[2].GetOr(Arr([])) else Arr([])
    ensures d.investments == if n > 5 then results[5].GetOr(Arr([])) else Arr([])
    ensures d.profile == if n > 0 && results[0].Some? then (if IsDict(results[0].value) then NormalizeProfile(results[0].value)
                                                           else results[0].value) else Null
  {
    if n == 0 then Initial else Store(Collected(results, n - 1), n - 1, results[n - 1])
  }

  /**
   * `get_user_financial_data_with_auth` once the requests have settled:
   * `fetched` is None when the HTTP client itself fails, and otherwise
   * holds one result per request, None for a request that raised. The
   * records are stored, the analytics computed, the portfolio filled in and
   * the legacy keys mirrored.
   */
  method GetUserFinancialData(fetched: Option<seq<Option<Json>>>) returns (d: FinancialData)
    requires fetched.Some? ==> |fetched.value| == |TaskKeys|
    ensures fetched.None? ==> d == Initial
    ensures fetched.Some? ==>
              var c := Collected(fetched.value, |TaskKeys|);
              d == WithPortfolio(c.(analytics := Some(AnalyticsOf(c))))
                     .(userProfile := Some(d.profile), recentTransactions := Some(d.transactions))
    ensures fetched.Some? ==> d.analytics == Some(AnalyticsOf(d))
    ensures fetched.Some? ==> d.userProfile == Some(d.profile) && d.recentTransactions == Some(d.transactions)
  {
    if fetched.None? {
      return Initial;
    }
    var results := fetched.value;
    d := Initial;
    for k := 0 to |TaskKeys|
      invariant d == Collected(results, k)
    {
      d := Store(d, k, results[k]);
    }
    var c := d;
    var analytics := CalculateAnalytics(d);
    d := d.(analytics := Some(analytics));
    var before := d;
    d := FillPortfolio(d);
    d := d.(userProfile := Some(d.profile), recentTransactions := Some(d.transactions));
    Consistent(c, before, WithPortfolio(before), d);
  }

  /** The analytics stay those of the final records through the portfolio block and the mirroring. */
  lemma {:induction false} Consistent(c: FinancialData, before: FinancialData, after: FinancialData, d: FinancialData)
    requires before == c.(analytics := Some(AnalyticsOf(c))) && after == WithPortfolio(before)
    requires d == after.(userProfile := Some(after.profile), recentTransactions := Some(after.transactions))
    ensures d.analytics == Some(AnalyticsOf(d))
  {
    AnalyticsIgnoresDerived(d, after.analytics, after.userProfile, after.recentTransactions);
    if after == before {
      AnalyticsIgnoresDerived(c, Some(AnalyticsOf(c)), c.userProfile, c.recentTransactions);
      assert before == c.(analytics := Some(AnalyticsOf(c)), userProfile := c.userProfile,
                          recentTransactions := c.recentTransactions);
    } else {
      AnalyticsIgnoresDerived(after, before.analytics, after.userProfile, after.recentTransactions);
      assert after.(analytics := before.analytics) ==
             after.(analytics := before.analytics, userProfile := after.userProfile,
                    recentTransactions := after.recentTransactions);
    }
    assert d.(analytics := after.analytics, userProfile := after.userProfile,
              recentTransactions := after.recentTransactions) == after;
  }
}
