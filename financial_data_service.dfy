/**
 * The financial data service: the context it fetches from the backend,
 * given the backend's replies (the monthly income and expenses computed
 * from the fetched transactions among it), the progress of a goal, and the
 * quick insights drawn from a financial context.
 */
module FinancialDataService {
  import opened Maybe
  import opened PyJson
  import RealSeq
  import BackendProxy

  // ---------------------------------------------------------------- income and expenses

  /**
   * `t["amount"]` as the sums read it: None where reading or comparing it
   * raises (a transaction that is not a dict, has no amount, or whose
   * amount is not a number; a boolean counts as 1 or 0).
   */
  function Amount(t: Json): (a: Option<real>)
    ensures a.Some? <==> t.Obj? && "amount" in t.fields && (t.fields["amount"].Num? || t.fields["amount"].Bool?)
    ensures a.Some? && t.fields["amount"].Num? ==> a.value == t.fields["amount"].n
  {
    if t.Obj? && "amount" in t.fields then NumValue(t.fields["amount"]) else None
  }

  /** The amounts of all transactions, or None if any of them cannot be read. */
  function Amounts(transactions: seq<Json>): (r: Option<seq<real>>)
    ensures r.Some? <==> forall i :: 0 <= i < |transactions| ==> Amount(transactions[i]).Some?
    ensures r.Some? ==> |r.value| == |transactions|
                        && forall i :: 0 <= i < |transactions| ==> r.value[i] == Amount(transactions[i]).value
    decreases |transactions|
  {
    if transactions == [] then Some([])
    else
      var init := Amounts(transactions[..|transactions| - 1]);
      var last := Amount(transactions[|transactions| - 1]);
      if init.Some? && last.Some? then Some(init.value + [last.value]) else None
  }

  /** `sum(a for a in amounts if a > 0)`. */
  function MonthlyIncome(amounts: seq<real>): real
    decreases |amounts|
  {
    if amounts == [] then 0.0
    else
      var a := amounts[|amounts| - 1];
      MonthlyIncome(amounts[..|amounts| - 1]) + (if a > 0.0 then a else 0.0)
  }

  /** `sum(abs(a) for a in amounts if a < 0)`. */
  function MonthlyExpenses(amounts: seq<real>): real
    decreases |amounts|
  {
    if amounts == [] then 0.0
    else
      var a := amounts[|amounts| - 1];
      MonthlyExpenses(amounts[..|amounts| - 1]) + (if a < 0.0 then -a else 0.0)
  }

  /** Neither sum is ever negative. */
  lemma {:induction false} FlowsNonNegative(amounts: seq<real>)
    ensures MonthlyIncome(amounts) >= 0.0 && MonthlyExpenses(amounts) >= 0.0
    decreases |amounts|
  {
    if amounts != [] {
      FlowsNonNegative(amounts[..|amounts| - 1]);
    }
  }

  /** Income minus expenses is the net of all amounts: every amount counts toward exactly one side or none. */
  lemma {:induction false} NetFlowIsSum(amounts: seq<real>)
    ensures MonthlyIncome(amounts) - MonthlyExpenses(amounts) == RealSeq.Sum(amounts)
    decreases |amounts|
  {
    if amounts != [] {
      NetFlowIsSum(amounts[..|amounts| - 1]);
    }
  }

  /** A zero amount counts toward neither income nor expenses. */
  lemma {:induction false} ZeroIgnored(amounts: seq<real>)
    ensures MonthlyIncome(amounts + [0.0]) == MonthlyIncome(amounts)
    ensures MonthlyExpenses(amounts + [0.0]) == MonthlyExpenses(amounts)
  {
    assert (amounts + [0.0])[..|amounts|] == amounts;
  }

  /** With no negative amount there are no expenses, and the income is the total. */
  lemma {:induction false} OnlyIncome(amounts: seq<real>)
    requires forall i :: 0 <= i < |amounts| ==> amounts[i] >= 0.0
    ensures MonthlyExpenses(amounts) == 0.0
    ensures MonthlyIncome(amounts) == RealSeq.Sum(amounts)
    decreases |amounts|
  {
    if amounts != [] {
      OnlyIncome(amounts[..|amounts| - 1]);
    }
  }

  /**
   * The monthly income and expenses computed from the fetched
   * transactions, or None where reading an amount raises (the income sum
   * runs first and stops at the first unreadable transaction, so the
   * expenses sum is never reached).
   */
  function CashFlow(transactions: seq<Json>): (r: Option<(real, real)>)
    ensures r.Some? <==> Amounts(transactions).Some?
    ensures r.Some? ==> r.value.0 >= 0.0 && r.value.1 >= 0.0
    ensures r.Some? ==> r.value.0 - r.value.1 == RealSeq.Sum(Amounts(transactions).value)
  {
    match Amounts(transactions)
    case None => None
    case Some(amounts) =>
      FlowsNonNegative(amounts);
      NetFlowIsSum(amounts);
      Some((MonthlyIncome(amounts), MonthlyExpenses(amounts)))
  }

  // ---------------------------------------------------------------- the fetched context

  /**
   * A backend request as the service sees it: the request itself raised, or
   * it answered with a status and a body, None where `.json()` raises.
   */
  datatype Reply = Raised | Answered(status: int, body: Option<Json>)

  /** The six requests of `get_user_financial_context`, in the order it makes them. */
  datatype Replies = Replies(user: Reply, portfolio: Reply, transactions: Reply,
                             budgets: Reply, goals: Reply, investments: Reply)

  /** The context dict `get_user_financial_context` fills, one field per key. */
  datatype Context = Context(
    userProfile: Json, portfolio: Json, recentTransactions: Json, budgets: Json, goals: Json,
    investments: Json, totalNetWorth: Json, monthlyIncome: real, monthlyExpenses: real)

  /** The context before any request: no profile or portfolio, empty lists and zeros. */
  const InitialContext := Context(Null, Null, Arr([]), Arr([]), Arr([]), Arr([]), Num(0.0), 0.0, 0.0)

  /** The context as the dict the insight rules read. */
  function AsDict(c: Context): map<string, Json> {
    map["user_profile" := c.userProfile, "portfolio" := c.portfolio,
        "recent_transactions" := c.recentTransactions, "budgets" := c.budgets, "goals" := c.goals,
        "investments" := c.investments, "total_net_worth" := c.totalNetWorth,
        "monthly_income" := Num(c.monthlyIncome), "monthly_expenses" := Num(c.monthlyExpenses)]
  }

  /** The keys under which a response body is stored as it is. */
  datatype Record = UserProfile | PortfolioRecord | Transactions | Budgets | Goals | Investments

  /** `context[key] = body`. */
  function Put(c: Context, key: Record, body: Json): Context {
    match key
    case UserProfile => c.(userProfile := body)
    case PortfolioRecord => c.(portfolio := body)
    case Transactions => c.(recentTransactions := body)
    case Budgets => c.(budgets := body)
    case Goals => c.(goals := body)
    case Investments => c.(investments := body)
  }

  /** What a request gives the code: Err where it raises, None for a status other than 200, else the body. */
  function Received(r: Reply): Result<Option<Json>> {
    match r
    case Raised => Err("request failed")
    case Answered(status, body) =>
      if status != 200 then Ok(None)
      else if body.None? then Err("invalid JSON")
      else Ok(body)
  }

  /** The context as far as the requests got, and whether one of them raised. */
  datatype Fetch = Fetch(context: Context, raised: bool)

  /** `context[key] = response.json()` for a 200 response; after a raise nothing more runs. */
  function Stored(f: Fetch, key: Record, r: Reply): Fetch {
    if f.raised then f
    else match Received(r)
      case Err(_) => Fetch(f.context, true)
      case Ok(None) => f
      case Ok(Some(body)) => Fetch(Put(f.context, key, body), false)
  }

  /**
   * The portfolio request: the body is stored first, then
   * `portfolio_data.get("totalValue", 0)` becomes the net worth, which
   * raises AttributeError when the body is not a dict.
   */
  function PortfolioFetched(f: Fetch, r: Reply): Fetch {
    var g := Stored(f, PortfolioRecord, r);
    if f.raised || g.raised || Received(r).value.None? then g
    else
      var body := Received(r).value.value;
      if IsDict(body) then Fetch(g.context.(totalNetWorth := GetOr(body, "totalValue", Num(0.0))), false)
      else Fetch(g.context, true)
  }

  /**
   * The transactions request: the body is stored first, then iterated by
   * both sums, which raise when it cannot be iterated or an amount cannot
   * be read; both figures are stored only after both sums are taken.
   */
  function TransactionsFetched(f: Fetch, r: Reply): Fetch {
    var g := Stored(f, Transactions, r);
    if f.raised || g.raised || Received(r).value.None? then g
    else
      match BackendProxy.Elements(Received(r).value.value)
      case None => Fetch(g.context, true)
      case Some(transactions) =>
        match CashFlow(transactions)
        case None => Fetch(g.context, true)
        case Some((income, expenses)) => Fetch(g.context.(monthlyIncome := income, monthlyExpenses := expenses), false)
  }

  /** The fetch as a whole, before the `except` that swallows a raise. */
  function Fetched(rs: Replies): Fetch {
    var user := Stored(Fetch(InitialContext, false), UserProfile, rs.user);
    var portfolio := PortfolioFetched(user, rs.portfolio);
    var transactions := TransactionsFetched(portfolio, rs.transactions);
    var budgets := Stored(transactions, Budgets, rs.budgets);
    var goals := Stored(budgets, Goals, rs.goals);
    Stored(goals, Investments, rs.investments)
  }

  /**
   * `get_user_financial_context`: the context as far as the requests got;
   * an exception anywhere is caught around all of them, so what was stored
   * before it stays and the later keys keep their initial values. The
   * income and expenses are never negative.
   */
  function FetchedContext(rs: Replies): (context: Context)
    ensures context.monthlyIncome >= 0.0 && context.monthlyExpenses >= 0.0
  {
    Fetched(rs).context
  }

  /**
   * `get_user_financial_context` step by step: each 200 body is stored as
   * it arrives, and the first exception ends the requests, keeping what was
   * stored before it.
   */
  method GetUserFinancialContext(rs: Replies) returns (context: Context)
    ensures context == FetchedContext(rs)
  {
    context := InitialContext;
    var user := Received(rs.user);
    if user.Err? {
      return;
    }
    if user.value.Some? {
      context := context.(userProfile := user.value.value);
    }
    var portfolio := Received(rs.portfolio);
    if portfolio.Err? {
      return;
    }
    if portfolio.value.Some? {
      var body := portfolio.value.value;
      context := context.(portfolio := body);
      if !IsDict(body) {
        return;
      }
      context := context.(totalNetWorth := GetOr(body, "totalValue", Num(0.0)));
    }
    var transactions := Received(rs.transactions);
    if transactions.Err? {
      return;
    }
    if transactions.value.Some? {
      var body := transactions.value.value;
      context := context.(recentTransactions := body);
      var items := BackendProxy.Elements(body);
      if items.None? {
        return;
      }
      var flows := CashFlow(items.value);
      if flows.None? {
        return;
      }
      context := context.(monthlyIncome := flows.value.0, monthlyExpenses := flows.value.1);
    }
    var budgets := Received(rs.budgets);
    if budgets.Err? {
      return;
    }
    if budgets.value.Some? {
      context := context.(budgets := budgets.value.value);
    }
    var goals := Received(rs.goals);
    if goals.Err? {
      return;
    }
    if goals.value.Some? {
      context := context.(goals := goals.value.value);
    }
    var investments := Received(rs.investments);
    if investments.Err? {
      return;
    }
    if investments.value.Some? {
      context := context.(investments := investments.value.value);
    }
  }

  /**
   * A portfolio body that is not a dict is stored, but reading its
   * `totalValue` raises, so the transactions are never fetched and every
   * later key, the income and expenses among them, keeps its initial value.
   */
  lemma {:induction false} NonDictPortfolioStops(rs: Replies, body: Json)
    requires Received(rs.user).Ok? && rs.portfolio == Answered(200, Some(body)) && !IsDict(body)
    ensures FetchedContext(rs) == InitialContext.(userProfile := FetchedContext(rs).userProfile, portfolio := body)
  {
  }

  /** Whether the profile and portfolio requests went through without raising. */
  predicate ReachesTransactions(rs: Replies) {
    && Received(rs.user).Ok? && Received(rs.portfolio).Ok?
    && (Received(rs.portfolio).value.Some? ==> IsDict(Received(rs.portfolio).value.value))
  }

  /**
   * A dict portfolio's `totalValue` (default 0) is the net worth, whatever
   * happens afterwards; a missing portfolio leaves the initial 0.
   */
  lemma {:induction false} FetchedNetWorth(rs: Replies)
    requires ReachesTransactions(rs)
    ensures var body := Received(rs.portfolio).value;
            FetchedContext(rs).totalNetWorth == if body.Some? then GetOr(body.value, "totalValue", Num(0.0)) else Num(0.0)
  {
  }

  /**
   * Once the transactions list is fetched, the income and expenses are its
   * sums when every amount reads; otherwise they stay 0 and the budgets,
   * goals and investments are never fetched.
   */
  lemma {:induction false} FetchedFlows(rs: Replies, transactions: seq<Json>)
    requires ReachesTransactions(rs) && rs.transactions == Answered(200, Some(Arr(transactions)))
    ensures var context := FetchedContext(rs);
            && context.recentTransactions == Arr(transactions)
            && (Amounts(transactions).Some? ==>
                  && context.monthlyIncome == MonthlyIncome(Amounts(transactions).value)
                  && context.monthlyExpenses == MonthlyExpenses(Amounts(transactions).value))
            && (Amounts(transactions).None? ==>
                  && context.monthlyIncome == 0.0 && context.monthlyExpenses == 0.0
                  && context.budgets == Arr([]) && context.goals == Arr([]) && context.investments == Arr([]))
  {
    assert BackendProxy.Elements(Arr(transactions)) == Some(transactions);
  }

  /** A request that raises at once leaves the whole initial context. */
  lemma {:induction false} FailedProfileRequest(rs: Replies)
    requires rs.user == Raised
    ensures FetchedContext(rs) == InitialContext
  {
  }

  /**
   * When every request answers 200 with a body, the portfolio is a dict and
   * every transaction amount reads, each body is stored unchanged beside
   * the net worth and the two sums.
   */
  lemma {:induction false} FetchedRecords(user: Json, portfolio: Json, transactions: seq<Json>,
                                          budgets: Json, goals: Json, investments: Json)
    requires IsDict(portfolio) && Amounts(transactions).Some?
    ensures var amounts := Amounts(transactions).value;
            FetchedContext(Replies(Answered(200, Some(user)), Answered(200, Some(portfolio)),
                                   Answered(200, Some(Arr(transactions))), Answered(200, Some(budgets)),
                                   Answered(200, Some(goals)), Answered(200, Some(investments))))
            == Context(user, portfolio, Arr(transactions), budgets, goals, investments,
                       GetOr(portfolio, "totalValue", Num(0.0)), MonthlyIncome(amounts), MonthlyExpenses(amounts))
  {
    assert BackendProxy.Elements(Arr(transactions)) == Some(transactions);
  }

  /**
   * A backend portfolio whose `totalValue` is null is fetched as a null net
   * worth, on which the insight rules raise.
   */
  lemma {:induction false} NullTotalValueRaises(rs: Replies, portfolio: map<string, Json>)
    requires Received(rs.user).Ok? && rs.portfolio == Answered(200, Some(Obj(portfolio)))
    requires "totalValue" in portfolio && portfolio["totalValue"] == Null
    ensures ReadContext(AsDict(FetchedContext(rs))) == Err(TypeError)
  {
    FetchedNetWorth(rs);
    NullNetWorthRaises(AsDict(FetchedContext(rs)));
  }

  // ---------------------------------------------------------------- goals

  /** The progress of a goal in percent; a goal without a positive target has made no progress. */
  function GoalProgress(current: real, target: real): (p: real)
    ensures target <= 0.0 ==> p == 0.0
    ensures target > 0.0 ==> p * target == current * 100.0
  {
    if target > 0.0 then current / target * 100.0 else 0.0
  }

  /** A goal part-way to a positive target is between 0 and 100 percent complete, and 100 when reached. */
  lemma GoalProgressBounds(current: real, target: real)
    requires target > 0.0 && 0.0 <= current <= target
    ensures 0.0 <= GoalProgress(current, target) <= 100.0
    ensures current == target ==> GoalProgress(current, target) == 100.0
  {
    var p := GoalProgress(current, target);
    ScaleOrder(p, 0.0, target);
    ScaleOrder(p, 100.0, target);
  }

  /** Saving more toward the same target never lowers the progress. */
  lemma GoalProgressMonotone(c1: real, c2: real, target: real)
    requires c1 <= c2
    ensures GoalProgress(c1, target) <= GoalProgress(c2, target)
  {
    if target > 0.0 {
      ScaleOrder(GoalProgress(c1, target), GoalProgress(c2, target), target);
    }
  }

  /** Multiplying both sides by a positive factor keeps their order. */
  lemma ScaleOrder(a: real, b: real, t: real)
    requires t > 0.0
    ensures a < b <==> a * t < b * t
    ensures a == b <==> a * t == b * t
  {
    if a < b {
      assert (b - a) * t > 0.0;
    } else if b < a {
      assert (a - b) * t > 0.0;
    }
  }

  // ---------------------------------------------------------------- insights

  /** The parts of a truthy portfolio the diversification insight reads (each 0 when absent). */
  datatype Holdings = Holdings(stocks: real, bonds: real, cash: real)

  /**
   * The financial context the insights read: the net worth, the monthly
   * income and expenses, and the portfolio, None when it is missing or
   * empty.
   */
  datatype InsightContext = InsightContext(netWorth: real, income: real, expenses: real, portfolio: Option<Holdings>)

  /** One insight; the amounts are those the message formats. */
  datatype Insight =
    | StrongNetWorth(netWorth: real)
    | BuildingWealth(netWorth: real)
    | EmergencyFund
    | PositiveCashFlow(surplus: real)
    | Overspending(deficit: real)
    | StockHeavy
    | StockLight

  /** The net-worth insight: above 100000, above 10000, or neither. */
  function NetWorthInsight(netWorth: real): (i: Insight)
    ensures i.StrongNetWorth? <==> netWorth > 100000.0
    ensures i.BuildingWealth? <==> 10000.0 < netWorth <= 100000.0
    ensures i.EmergencyFund? <==> netWorth <= 10000.0
    ensures i.StrongNetWorth? || i.BuildingWealth? ==> i.netWorth == netWorth
  {
    if netWorth > 100000.0 then StrongNetWorth(netWorth)
    else if netWorth > 10000.0 then BuildingWealth(netWorth)
    else EmergencyFund
  }

  /** The cash-flow insight: a surplus when income exceeds expenses, a deficit (possibly zero) otherwise. */
  function CashFlowInsight(income: real, expenses: real): (i: Insight)
    ensures i.PositiveCashFlow? <==> income > expenses
    ensures i.Overspending? <==> income <= expenses
    ensures i.PositiveCashFlow? ==> i.surplus > 0.0 && i.surplus == income - expenses
    ensures i.Overspending? ==> i.deficit >= 0.0 && i.deficit == expenses - income
  {
    if income > expenses then PositiveCashFlow(income - expenses) else Overspending(expenses - income)
  }

  /** The stock share in percent of stocks, bonds and cash, when that total is positive. */
  function StockPercent(h: Holdings): real
    requires h.stocks + h.bonds + h.cash > 0.0
  {
    h.stocks / (h.stocks + h.bonds + h.cash) * 100.0
  }

  /** The diversification insight, if any: over 80% in stocks, or under 30%. */
  function AllocationInsight(portfolio: Option<Holdings>): (i: Option<Insight>)
    ensures i.Some? ==> i.value.StockHeavy? || i.value.StockLight?
    ensures portfolio.None? ==> i.None?
  {
    match portfolio
    case None => None
    case Some(h) =>
      if h.stocks + h.bonds + h.cash > 0.0 then
        var pct := StockPercent(h);
        if pct > 80.0 then Some(StockHeavy) else if pct < 30.0 then Some(StockLight) else None
      else None
  }

  /** The percent thresholds read as shares of the total: heavy above four fifths, light below three tenths. */
  lemma {:induction false} AllocationThresholds(h: Holdings)
    requires h.stocks + h.bonds + h.cash > 0.0
    ensures AllocationInsight(Some(h)) == Some(StockHeavy) <==> 5.0 * h.stocks > 4.0 * (h.stocks + h.bonds + h.cash)
    ensures AllocationInsight(Some(h)) == Some(StockLight) <==> 10.0 * h.stocks < 3.0 * (h.stocks + h.bonds + h.cash)
  {
    var total := h.stocks + h.bonds + h.cash;
    PercentCompare(h.stocks, total, 80.0);
    PercentCompare(h.stocks, total, 30.0);
  }

  /** A percentage of a positive total compared with a threshold, without the division. */
  lemma PercentCompare(x: real, total: real, c: real)
    requires total > 0.0
    ensures x / total * 100.0 > c <==> x * 100.0 > c * total
    ensures x / total * 100.0 < c <==> x * 100.0 < c * total
  {
    var pct := x / total * 100.0;
    assert pct * total == x * 100.0;
    ScaleOrder(c, pct, total);
    ScaleOrder(pct, c, total);
  }

  /** A portfolio with nothing in stocks, bonds or cash draws no diversification insight. */
  lemma {:induction false} EmptyAllocationSilent(h: Holdings)
    requires h.stocks + h.bonds + h.cash <= 0.0
    ensures AllocationInsight(Some(h)).None?
  {
  }

  /** The insights, in the order they are appended. */
  function InsightsOf(ctx: InsightContext): seq<Insight> {
    [NetWorthInsight(ctx.netWorth), CashFlowInsight(ctx.income, ctx.expenses)]
    + match AllocationInsight(ctx.portfolio) { case Some(i) => [i] case None => [] }
  }

  /** Always one net-worth and one cash-flow insight, then at most one about the allocation. */
  lemma {:induction false} InsightsShape(ctx: InsightContext)
    ensures 2 <= |InsightsOf(ctx)| <= 3
    ensures |InsightsOf(ctx)| == 3 <==> AllocationInsight(ctx.portfolio).Some?
    ensures var ins := InsightsOf(ctx);
            (ins[0].StrongNetWorth? || ins[0].BuildingWealth? || ins[0].EmergencyFund?)
            && (ins[1].PositiveCashFlow? || ins[1].Overspending?)
  {
  }

  /**
   * `context.get(key, 0)` as the insight rules use it: a number (a boolean
   * counting as 1 or 0), or None for a value that `>` and `-` against a
   * number reject with TypeError.
   */
  function Figure(context: map<string, Json>, key: string): (r: Option<real>)
    ensures key !in context ==> r == Some(0.0)
    ensures key in context ==> (r.Some? <==> context[key].Num? || context[key].Bool?)
    ensures key in context && context[key].Num? ==> r == Some(context[key].n)
  {
    if key in context then NumValue(context[key]) else Some(0.0)
  }

  /** `portfolio.get(key, 0)` on a dict portfolio, as a number or None when it is not one. */
  function Part(portfolio: Json, key: string): Option<real>
    requires IsDict(portfolio)
  {
    NumValue(GetOr(portfolio, key, Num(0.0)))
  }

  /** The error `get_financial_insights` raises part-way; no insight list is returned then. */
  const TypeError := "TypeError"
  const AttributeError := "AttributeError"

  /**
   * The financial context as the insight rules read it, in their order: the
   * net worth, then income and expenses, then a truthy portfolio, which must
   * be a dict whose stocks, bonds and cash are numbers.
   */
  function ReadContext(context: map<string, Json>): (r: Result<InsightContext>)
    ensures Figure(context, "total_net_worth").None? ==> r == Err(TypeError)
    ensures r.Ok? <==>
              && Figure(context, "total_net_worth").Some?
              && Figure(context, "monthly_income").Some? && Figure(context, "monthly_expenses").Some?
              && var p := if "portfolio" in context then context["portfolio"] else Obj(map[]);
                 Truthy(p) ==> IsDict(p) && Part(p, "stocks").Some? && Part(p, "bonds").Some? && Part(p, "cash").Some?
    ensures r.Ok? ==>
              && r.value.netWorth == Figure(context, "total_net_worth").value
              && r.value.income == Figure(context, "monthly_income").value
              && r.value.expenses == Figure(context, "monthly_expenses").value
              && (r.value.portfolio.Some? <==> "portfolio" in context && Truthy(context["portfolio"]))
  {
    var portfolio := if "portfolio" in context then context["portfolio"] else Obj(map[]);
    match (Figure(context, "total_net_worth"), Figure(context, "monthly_income"), Figure(context, "monthly_expenses"))
    case (None, _, _) => Err(TypeError)
    case (Some(_), None, _) => Err(TypeError)
    case (Some(_), Some(_), None) => Err(TypeError)
    case (Some(nw), Some(income), Some(expenses)) =>
      if !Truthy(portfolio) then Ok(InsightContext(nw, income, expenses, None))
      else if !IsDict(portfolio) then Err(AttributeError)
      else
        match (Part(portfolio, "stocks"), Part(portfolio, "bonds"), Part(portfolio, "cash"))
        case (Some(st), Some(b), Some(c)) => Ok(InsightContext(nw, income, expenses, Some(Holdings(st, b, c))))
        case _ => Err(TypeError)
  }

  /** The context a service stores for given figures: a missing portfolio as an empty dict. */
  function ContextOf(ctx: InsightContext): map<string, Json> {
    map["total_net_worth" := Num(ctx.netWorth), "monthly_income" := Num(ctx.income),
        "monthly_expenses" := Num(ctx.expenses),
        "portfolio" := match ctx.portfolio
                       case None => Obj(map[])
                       case Some(h) => Obj(map["stocks" := Num(h.stocks), "bonds" := Num(h.bonds), "cash" := Num(h.cash)])]
  }

  /** A context of plain numbers and a dict portfolio is read back as those figures. */
  lemma {:induction false} ReadContextOf(ctx: InsightContext)
    ensures ReadContext(ContextOf(ctx)) == Ok(ctx)
  {
    var c := ContextOf(ctx);
    assert c["total_net_worth"] == Num(ctx.netWorth);
    assert c["monthly_income"] == Num(ctx.income);
    assert c["monthly_expenses"] == Num(ctx.expenses);
    match ctx.portfolio
    case None =>
      assert !Truthy(c["portfolio"]);
    case Some(h) =>
      var p := c["portfolio"];
      assert "stocks" in p.fields;
      assert Truthy(p) && Part(p, "stocks") == Some(h.stocks);
      assert Part(p, "bonds") == Some(h.bonds) && Part(p, "cash") == Some(h.cash);
  }

  /** A null net worth, as a backend `"totalValue": null` stores it, makes the rules raise. */
  lemma {:induction false} NullNetWorthRaises(context: map<string, Json>)
    requires "total_net_worth" in context && context["total_net_worth"] == Null
    ensures ReadContext(context) == Err(TypeError)
  {
  }

  /** A truthy portfolio that is not a dict makes the rules raise on `.get`. */
  lemma {:induction false} ListPortfolioRaises(context: map<string, Json>)
    requires Figure(context, "total_net_worth").Some?
    requires Figure(context, "monthly_income").Some? && Figure(context, "monthly_expenses").Some?
    requires "portfolio" in context && context["portfolio"].Arr? && context["portfolio"].items != []
    ensures ReadContext(context) == Err(AttributeError)
  {
  }

  /**
   * `get_financial_insights`: the insights appended one after another, or
   * the error raised on a figure that is not a number or a portfolio that
   * is not a dict.
   */
  method GetFinancialInsights(context: map<string, Json>) returns (r: Result<seq<Insight>>)
    ensures ReadContext(context).Err? ==> r == Err(ReadContext(context).msg)
    ensures ReadContext(context).Ok? ==> r == Ok(InsightsOf(ReadContext(context).value))
  {
    var insights := [];
    var netWorth := Figure(context, "total_net_worth");
    if netWorth.None? {
      return Err(TypeError);
    }
    if netWorth.value > 100000.0 {
      insights := insights + [StrongNetWorth(netWorth.value)];
    } else if netWorth.value > 10000.0 {
      insights := insights + [BuildingWealth(netWorth.value)];
    } else {
      insights := insights + [EmergencyFund];
    }
    var income := Figure(context, "monthly_income");
    var expenses := Figure(context, "monthly_expenses");
    if income.None? || expenses.None? {
      return Err(TypeError);
    }
    if income.value > expenses.value {
      insights := insights + [PositiveCashFlow(income.value - expenses.value)];
    } else {
      insights := insights + [Overspending(expenses.value - income.value)];
    }
    assert insights == [NetWorthInsight(netWorth.value), CashFlowInsight(income.value, expenses.value)];
    ghost var ctx := InsightContext(netWorth.value, income.value, expenses.value, None);
    var portfolio := if "portfolio" in context then context["portfolio"] else Obj(map[]);
    if Truthy(portfolio) {
      if !IsDict(portfolio) {
        return Err(AttributeError);
      }
      var stocks, bonds, cash := Part(portfolio, "stocks"), Part(portfolio, "bonds"), Part(portfolio, "cash");
      if stocks.None? || bonds.None? || cash.None? {
        return Err(TypeError);
      }
      ctx := ctx.(portfolio := Some(Holdings(stocks.value, bonds.value, cash.value)));
      var total := stocks.value + bonds.value + cash.value;
      if total > 0.0 {
        assert StockPercent(ctx.portfolio.value) == stocks.value / total * 100.0;
        var stockPct := stocks.value / total * 100.0;
        if stockPct > 80.0 {
          insights := insights + [StockHeavy];
        } else if stockPct < 30.0 {
          insights := insights + [StockLight];
        }
      }
    }
    assert ReadContext(context) == Ok(ctx);
    assert insights == [NetWorthInsight(netWorth.value), CashFlowInsight(income.value, expenses.value)]
                       + match AllocationInsight(ctx.portfolio) { case Some(i) => [i] case None => [] };
    return Ok(insights);
  }
}
