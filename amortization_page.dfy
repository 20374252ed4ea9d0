/**
 * The amortization screen: the monthly payment derived from the budget, the
 * payment history aggregated by month with running totals, the projection
 * from today's balances, the two joined into one schedule, and the sampled
 * series the chart draws.
 */
module AmortizationPage {
  import opened Money
  import StableSort
  import Text
  import Utils

  // ---------------------------------------------------------------- monthlyPayment

  /** `budget.key || fallback`: a missing or zero setting takes the fallback. */
  function Setting(budget: map<string, real>, key: string, fallback: real): real
  {
    if key in budget && budget[key] != 0.0 then budget[key] else fallback
  }

  function SumReals(xs: seq<real>): real
  {
    if xs == [] then 0.0 else SumReals(xs[..|xs| - 1]) + xs[|xs| - 1]
  }

  /** The share of what is left after expenses that goes to the loans. */
  function ExtraShare(budget: map<string, real>): real
  {
    Setting(budget, "extra_debt_pct", 50.0) / 100.0
  }

  /**
   * `monthlyPayment`: the minimum payment plus the extra share of the
   * monthly net income (after tax, plus other income) less expenses. Tax
   * rate, minimum and extra share default to 25, 1200 and 50 when missing or
   * zero; salary and other income default to 0.
   */
  function MonthlyPayment(budget: map<string, real>, expenses: seq<real>): real
  {
    var grossSalary := Setting(budget, "gross_annual_salary", 0.0);
    var taxRate := Setting(budget, "tax_rate", 25.0) / 100.0;
    var otherIncome := Setting(budget, "other_monthly_income", 0.0);
    var monthlyNet := (grossSalary * (1.0 - taxRate)) / 12.0 + otherIncome;
    var minPayment := Setting(budget, "minimum_loan_payment", 1200.0);
    minPayment + (monthlyNet - SumReals(expenses)) * ExtraShare(budget)
  }

  /** With no budget and no expenses the payment is the default minimum, 1200. */
  lemma MonthlyPaymentDefault()
    ensures MonthlyPayment(map[], []) == 1200.0
  {
  }

  /** A setting of 0 counts as no setting at all. */
  lemma MonthlyPaymentZeroIsMissing(budget: map<string, real>, key: string, expenses: seq<real>)
    ensures MonthlyPayment(budget[key := 0.0], expenses) == MonthlyPayment(budget - {key}, expenses)
  {
  }

  /** Each further expense lowers the payment by the extra share of it. */
  lemma MonthlyPaymentExpense(budget: map<string, real>, expenses: seq<real>, e: real)
    ensures MonthlyPayment(budget, expenses + [e]) == MonthlyPayment(budget, expenses) - e * ExtraShare(budget)
  {
    assert (expenses + [e])[..|expenses|] == expenses;
  }

  /** The payment spelled out from the defaults and the salary alone. */
  lemma MonthlyPaymentFromSalary(salary: real)
    requires salary != 0.0
    ensures MonthlyPayment(map["gross_annual_salary" := salary], []) == 1200.0 + salary * 0.75 / 12.0 * 0.5
  {
  }

  // ---------------------------------------------------------------- actualHistory

  /** A recorded payment. */
  datatype Payment = Payment(paymentDate: string, amount: real, interest: real, principal: real)

  /** The `YYYY-MM` month of an ISO date. */
  function MonthKey(date: string): string
  {
    if |date| >= 7 then date[..7] else date
  }

  datatype Bucket = Bucket(payment: real, interest: real, principal: real)

  function AddTo(b: Bucket, p: Payment): Bucket
  {
    Bucket(b.payment + p.amount, b.interest + p.interest, b.principal + p.principal)
  }

  /** `byMonth`: each month's payments, interest and principal, added up payment by payment. */
  function Buckets(payments: seq<Payment>): map<string, Bucket>
  {
    if payments == [] then map[]
    else
      var m := Buckets(payments[..|payments| - 1]);
      var p := payments[|payments| - 1];
      var key := MonthKey(p.paymentDate);
      m[key := AddTo(if key in m then m[key] else Bucket(0.0, 0.0, 0.0), p)]
  }

  /** The months in the order first seen (`Object.keys` order). */
  function FirstSeenKeys(payments: seq<Payment>): (r: seq<string>)
    ensures Distinct(r)
  {
    if payments == [] then []
    else
      var keys := FirstSeenKeys(payments[..|payments| - 1]);
      var key := MonthKey(payments[|payments| - 1].paymentDate);
      if key in keys then keys else keys + [key]
  }

  predicate Distinct(s: seq<string>)
  {
    forall i, j | 0 <= i < j < |s| :: s[i] != s[j]
  }

  /** Independent reference: the totals of the payments falling in one month. */
  function BucketOf(payments: seq<Payment>, key: string): Bucket
  {
    if payments == [] then Bucket(0.0, 0.0, 0.0)
    else
      var p := payments[|payments| - 1];
      var b := BucketOf(payments[..|payments| - 1], key);
      if MonthKey(p.paymentDate) == key then AddTo(b, p) else b
  }

  /**
   * A month has a bucket exactly when some payment falls in it, it is listed
   * among the keys exactly then, and its bucket holds the totals of that
   * month's payments.
   */
  lemma {:induction false} BucketsSpec(payments: seq<Payment>, key: string)
    ensures key in Buckets(payments) <==> exists i | 0 <= i < |payments| :: MonthKey(payments[i].paymentDate) == key
    ensures key in Buckets(payments) <==> key in FirstSeenKeys(payments)
    ensures key in Buckets(payments) ==> Buckets(payments)[key] == BucketOf(payments, key)
    ensures key !in Buckets(payments) ==> BucketOf(payments, key) == Bucket(0.0, 0.0, 0.0)
  {
    if payments != [] {
      var init := payments[..|payments| - 1];
      BucketsSpec(init, key);
      forall i | 0 <= i < |init| ensures init[i] == payments[i] {
      }
    }
  }

  /** `<` on month keys is a strict weak order. */
  lemma LessWeakOrder(s: seq<string>)
    ensures StableSort.WeakOrderOn(Text.Less, s)
  {
    forall a, b | a in s && b in s ensures Text.Less(a, b) ==> !Text.Less(b, a) {
      Text.LessTrichotomy(a, b);
    }
    forall a, b, c | a in s && b in s && c in s ensures !Text.Less(a, b) && !Text.Less(b, c) ==> !Text.Less(a, c) {
      Text.LessTrichotomy(a, b);
      Text.LessTrichotomy(b, c);
      Text.LessTrichotomy(a, c);
      if Text.Less(b, a) && Text.Less(c, b) {
        Text.LessTransitive(c, b, a);
      }
    }
  }

  /** A month's bucket; every month looked up has one, and an absent month reads as empty. */
  function Get(buckets: map<string, Bucket>, key: string): Bucket
  {
    if key in buckets then buckets[key] else Bucket(0.0, 0.0, 0.0)
  }

  /** The running totals of the months of keys. */
  function CumInterest(keys: seq<string>, buckets: map<string, Bucket>): real
  {
    if keys == [] then 0.0 else CumInterest(keys[..|keys| - 1], buckets) + Get(buckets, keys[|keys| - 1]).interest
  }

  function CumPrincipal(keys: seq<string>, buckets: map<string, Bucket>): real
  {
    if keys == [] then 0.0 else CumPrincipal(keys[..|keys| - 1], buckets) + Get(buckets, keys[|keys| - 1]).principal
  }

  /**
   * One row of the schedule: a month of history, or a projected month with
   * its number and running totals shifted past the history.
   */
  datatype ScheduleRow =
    | Actual(month: nat, date: string, payment: real, interest: real, principal: real,
             totalBalance: real, cumInterest: real, cumPrincipal: real)
    | Projected(month: nat, cumInterest: real, cumPrincipal: real, projected: Utils.Row)

  /** The history row of month number n (from 1), with the running totals up to it. */
  function HistoryRow(n: nat, key: string, b: Bucket, cumInterest: real, cumPrincipal: real, totalBorrowed: real): ScheduleRow
  {
    Actual(n, key + "-01", Round2(b.payment), Round2(b.interest), Round2(b.principal),
           Round2(totalBorrowed - cumPrincipal), Round2(cumInterest), Round2(cumPrincipal))
  }

  function HistoryRows(keys: seq<string>, buckets: map<string, Bucket>, totalBorrowed: real): (r: seq<ScheduleRow>)
    ensures |r| == |keys|
  {
    if keys == [] then []
    else
      var key := keys[|keys| - 1];
      HistoryRows(keys[..|keys| - 1], buckets, totalBorrowed)
        + [HistoryRow(|keys|, key, Get(buckets, key), CumInterest(keys, buckets), CumPrincipal(keys, buckets), totalBorrowed)]
  }

  /** What was borrowed: the active loans' balances plus all principal already repaid. */
  function TotalBorrowed(payments: seq<Payment>, loans: seq<Utils.Loan>): real
  {
    ActiveBalance(loans) + PrincipalPaid(payments)
  }

  function ActiveBalance(loans: seq<Utils.Loan>): real
  {
    if loans == [] then 0.0
    else
      var l := loans[|loans| - 1];
      ActiveBalance(loans[..|loans| - 1]) + (if l.status == "Active" then l.balance else 0.0)
  }

  function PrincipalPaid(payments: seq<Payment>): real
  {
    if payments == [] then 0.0 else PrincipalPaid(payments[..|payments| - 1]) + payments[|payments| - 1].principal
  }

  function SortedMonths(payments: seq<Payment>): seq<string>
  {
    StableSort.Sort(FirstSeenKeys(payments), Text.Less)
  }

  /** The history rows for a given total borrowed: empty without payments, else one row per month, months ascending. */
  function History(payments: seq<Payment>, totalBorrowed: real): seq<ScheduleRow>
  {
    if payments == [] then []
    else HistoryRows(SortedMonths(payments), Buckets(payments), totalBorrowed)
  }

  /** `actualHistory`: the history rows, balances measured from what was borrowed. */
  function ActualHistory(payments: seq<Payment>, loans: seq<Utils.Loan>): seq<ScheduleRow>
  {
    History(payments, TotalBorrowed(payments, loans))
  }

  lemma SortedMonthsKnown(payments: seq<Payment>)
    ensures forall i | 0 <= i < |SortedMonths(payments)| :: SortedMonths(payments)[i] in Buckets(payments)
  {
    var keys := SortedMonths(payments);
    forall i | 0 <= i < |keys| ensures keys[i] in Buckets(payments) {
      assert keys[i] in multiset(FirstSeenKeys(payments));
      BucketsSpec(payments, keys[i]);
    }
  }

  lemma {:induction false} DistinctCount(t: seq<string>, x: string)
    requires Distinct(t)
    ensures multiset(t)[x] <= 1
  {
    if t != [] {
      assert t == [t[0]] + t[1..];
      DistinctCount(t[1..], x);
      if x == t[0] {
        assert x !in t[1..] by {
          forall j | 0 <= j < |t[1..]| ensures t[1..][j] != x {
            assert t[1..][j] == t[j + 1];
          }
        }
      }
    }
  }

  /** A rearrangement of distinct keys is distinct. */
  lemma DistinctPermutation(s: seq<string>, t: seq<string>)
    requires multiset(s) == multiset(t) && Distinct(t)
    ensures Distinct(s)
  {
    forall i, j | 0 <= i < j < |s| ensures s[i] != s[j] {
      DistinctCount(t, s[i]);
      assert s == s[..i] + [s[i]] + s[i + 1..j] + [s[j]] + s[j + 1..];
      assert multiset(s)[s[i]] >= (if s[i] == s[j] then 2 else 1);
    }
  }

  lemma {:induction false} HistoryRowsAt(keys: seq<string>, buckets: map<string, Bucket>, totalBorrowed: real, i: nat)
    requires i < |keys|
    ensures HistoryRows(keys, buckets, totalBorrowed)[i]
         == HistoryRow(i + 1, keys[i], Get(buckets, keys[i]), CumInterest(keys[..i + 1], buckets), CumPrincipal(keys[..i + 1], buckets), totalBorrowed)
  {
    if i < |keys| - 1 {
      var init := keys[..|keys| - 1];
      HistoryRowsAt(init, buckets, totalBorrowed, i);
      assert init[..i + 1] == keys[..i + 1];
    } else {
      assert keys[..i + 1] == keys;
    }
  }

  /** Row i's balance is what was borrowed less the principal of months 1 to i + 1. */
  lemma HistoryRowBalance(keys: seq<string>, buckets: map<string, Bucket>, totalBorrowed: real, i: nat)
    requires i < |keys|
    ensures HistoryRows(keys, buckets, totalBorrowed)[i].Actual?
    ensures HistoryRows(keys, buckets, totalBorrowed)[i].totalBalance == Round2(totalBorrowed - CumPrincipal(keys[..i + 1], buckets))
  {
    HistoryRowsAt(keys, buckets, totalBorrowed, i);
  }

  /** With no negative principal in any month, the running principal never falls. */
  lemma {:induction false} CumPrincipalGrows(keys: seq<string>, buckets: map<string, Bucket>, i: nat, j: nat)
    requires i <= j <= |keys|
    requires forall k | k in buckets :: buckets[k].principal >= 0.0
    ensures CumPrincipal(keys[..i], buckets) <= CumPrincipal(keys[..j], buckets)
  {
    if i < j {
      CumPrincipalGrows(keys, buckets, i, j - 1);
      assert keys[..j][..j - 1] == keys[..j - 1];
    }
  }

  /** With no negative principal, the history's balance never rises from one month to a later one. */
  lemma HistoryBalanceFalls(keys: seq<string>, buckets: map<string, Bucket>, totalBorrowed: real, i: nat, j: nat)
    requires i <= j < |keys|
    requires forall k | k in buckets :: buckets[k].principal >= 0.0
    ensures HistoryRows(keys, buckets, totalBorrowed)[i].Actual? && HistoryRows(keys, buckets, totalBorrowed)[j].Actual?
    ensures HistoryRows(keys, buckets, totalBorrowed)[j].totalBalance <= HistoryRows(keys, buckets, totalBorrowed)[i].totalBalance
  {
    HistoryRowBalance(keys, buckets, totalBorrowed, i);
    HistoryRowBalance(keys, buckets, totalBorrowed, j);
    CumPrincipalGrows(keys, buckets, i + 1, j + 1);
    Round2Monotone(totalBorrowed - CumPrincipal(keys[..j + 1], buckets), totalBorrowed - CumPrincipal(keys[..i + 1], buckets));
  }

  /**
   * The history holds one row per month with a payment, months strictly
   * ascending and every payment's month among them.
   */
  lemma ActualHistoryMonths(payments: seq<Payment>, loans: seq<Utils.Loan>)
    ensures ActualHistory(payments, loans) == [] <==> payments == []
    ensures payments != [] ==> |ActualHistory(payments, loans)| == |SortedMonths(payments)|
    ensures forall i, j | 0 <= i < j < |SortedMonths(payments)| :: Text.Less(SortedMonths(payments)[i], SortedMonths(payments)[j])
    ensures forall k | 0 <= k < |payments| :: MonthKey(payments[k].paymentDate) in SortedMonths(payments)
  {
    var first := FirstSeenKeys(payments);
    var keys := SortedMonths(payments);
    LessWeakOrder(first);
    StableSort.SortSorted(first, Text.Less);
    DistinctPermutation(keys, first);
    forall i, j | 0 <= i < j < |keys| ensures Text.Less(keys[i], keys[j]) {
      Text.LessTrichotomy(keys[i], keys[j]);
    }
    forall k | 0 <= k < |payments| ensures MonthKey(payments[k].paymentDate) in keys {
      BucketsSpec(payments, MonthKey(payments[k].paymentDate));
      assert MonthKey(payments[k].paymentDate) in multiset(first);
    }
    if payments != [] {
      assert MonthKey(payments[0].paymentDate) in keys;
    }
  }

  /**
   * Row i of the history is month i + 1, dated the first of its month; its
   * amounts are that month's totals and its cumulative figures the running
   * sums up to it (its balance: HistoryRowBalance).
   */
  lemma ActualHistoryRow(payments: seq<Payment>, totalBorrowed: real, i: nat)
    requires i < |History(payments, totalBorrowed)|
    ensures var keys := SortedMonths(payments);
      var row := History(payments, totalBorrowed)[i];
      var b := BucketOf(payments, keys[i]);
      var cumPrincipal := CumPrincipal(keys[..i + 1], Buckets(payments));
      && payments != [] && i < |keys| && keys[i] in Buckets(payments)
      && row.Actual? && row.month == i + 1 && row.date == keys[i] + "-01"
      && row.payment == Round2(b.payment) && row.interest == Round2(b.interest) && row.principal == Round2(b.principal)
      && row.cumInterest == Round2(CumInterest(keys[..i + 1], Buckets(payments)))
      && row.cumPrincipal == Round2(cumPrincipal)
  {
    var keys := SortedMonths(payments);
    var buckets := Buckets(payments);
    assert keys[i] in buckets by {
      assert keys[i] in multiset(FirstSeenKeys(payments));
      BucketsSpec(payments, keys[i]);
    }
    HistoryRowsAt(keys, buckets, totalBorrowed, i);
    assert Get(buckets, keys[i]) == BucketOf(payments, keys[i]) by {
      BucketsSpec(payments, keys[i]);
    }
  }

  /** Row i of the history is numbered month i + 1. */
  lemma HistoryMonth(payments: seq<Payment>, totalBorrowed: real, i: nat)
    requires i < |History(payments, totalBorrowed)|
    ensures History(payments, totalBorrowed)[i].month == i + 1
  {
    HistoryRowsAt(SortedMonths(payments), Buckets(payments), totalBorrowed, i);
  }

  /** Each running total is the previous one plus the month's own total. */
  lemma RunningTotals(keys: seq<string>, buckets: map<string, Bucket>, i: nat)
    requires i < |keys|
    ensures CumInterest(keys[..i + 1], buckets) == CumInterest(keys[..i], buckets) + Get(buckets, keys[i]).interest
    ensures CumPrincipal(keys[..i + 1], buckets) == CumPrincipal(keys[..i], buckets) + Get(buckets, keys[i]).principal
  {
    assert keys[..i + 1][..i] == keys[..i];
  }

  /** The `byMonth` loop: payments added into their month's bucket, months noted as first seen. */
  method GroupByMonth(payments: seq<Payment>) returns (byMonth: map<string, Bucket>, keys: seq<string>)
    ensures byMonth == Buckets(payments) && keys == FirstSeenKeys(payments)
  {
    byMonth := map[];
    keys := [];
    for i := 0 to |payments|
      invariant byMonth == Buckets(payments[..i]) && keys == FirstSeenKeys(payments[..i])
    {
      assert payments[..i + 1][..i] == payments[..i];
      var p := payments[i];
      var key := MonthKey(p.paymentDate);
      if key !in byMonth {
        byMonth := byMonth[key := Bucket(0.0, 0.0, 0.0)];
      }
      BucketsSpec(payments[..i], key);
      byMonth := byMonth[key := AddTo(byMonth[key], p)];
      if key !in keys {
        keys := keys + [key];
      }
    }
    assert payments[..|payments|] == payments;
  }

  /** The row loop of `actualHistory`: one row per sorted month, running totals carried along. */
  method HistoryLoop(sorted: seq<string>, byMonth: map<string, Bucket>, totalBorrowed: real) returns (rows: seq<ScheduleRow>)
    requires forall k | 0 <= k < |sorted| :: sorted[k] in byMonth
    ensures rows == HistoryRows(sorted, byMonth, totalBorrowed)
  {
    rows := [];
    var cumInterest, cumPrincipal := 0.0, 0.0;
    for i := 0 to |sorted|
      invariant rows == HistoryRows(sorted[..i], byMonth, totalBorrowed)
      invariant cumInterest == CumInterest(sorted[..i], byMonth) && cumPrincipal == CumPrincipal(sorted[..i], byMonth)
    {
      var m := byMonth[sorted[i]];
      RunningTotals(sorted, byMonth, i);
      assert sorted[..i + 1][..i] == sorted[..i];
      cumInterest := cumInterest + m.interest;
      cumPrincipal := cumPrincipal + m.principal;
      rows := rows + [Actual(i + 1, sorted[i] + "-01", Round2(m.payment), Round2(m.interest), Round2(m.principal),
                             Round2(totalBorrowed - cumPrincipal), Round2(cumInterest), Round2(cumPrincipal))];
    }
    assert sorted[..|sorted|] == sorted;
  }

  /** `actualHistory`: the months grouped and sorted, then one row per month with running totals. */
  method ComputeActualHistory(payments: seq<Payment>, loans: seq<Utils.Loan>) returns (rows: seq<ScheduleRow>)
    ensures rows == ActualHistory(payments, loans)
  {
    if |payments| == 0 {
      return [];
    }
    var totalBorrowed := TotalBorrowed(payments, loans);
    var byMonth, keys := GroupByMonth(payments);
    var sorted := StableSort.Sort(keys, Text.Less);
    assert sorted == SortedMonths(payments);
    SortedMonthsKnown(payments);
    rows := HistoryLoop(sorted, byMonth, totalBorrowed);
  }

  // ---------------------------------------------------------------- projectedSchedule

  /** `projectedSchedule`: the simulator run on the active loans that still owe something. */
  function ProjectedSchedule(loans: seq<Utils.Loan>, monthlyPayment: real): seq<Utils.Row>
  {
    Utils.Amortization(Utils.EligibleLoans(loans), monthlyPayment)
  }

  lemma {:induction false} EligibleAll(loans: seq<Utils.Loan>)
    requires forall i | 0 <= i < |loans| :: Utils.Eligible(loans[i])
    ensures Utils.EligibleLoans(loans) == loans
  {
    if loans != [] {
      EligibleAll(loans[1..]);
    }
  }

  lemma EligibleIdempotent(loans: seq<Utils.Loan>)
    ensures Utils.EligibleLoans(Utils.EligibleLoans(loans)) == Utils.EligibleLoans(loans)
  {
    var e := Utils.EligibleLoans(loans);
    forall i | 0 <= i < |e| ensures Utils.Eligible(e[i]) {
      assert e[i] in e;
    }
    EligibleAll(e);
  }

  /** Filtering before the simulator changes nothing: it already keeps only those loans. */
  lemma ProjectionFilterRedundant(loans: seq<Utils.Loan>, monthlyPayment: real)
    ensures ProjectedSchedule(loans, monthlyPayment) == Utils.Amortization(loans, monthlyPayment)
  {
    var eligible := Utils.EligibleLoans(loans);
    EligibleIdempotent(loans);
    assert Utils.AvalancheOrder(eligible) == Utils.AvalancheOrder(loans);
    if |eligible| == 0 && |loans| > 0 && monthlyPayment > 0.0 {
      var order := Utils.AvalancheOrder(loans);
      assert |order| == 0;
      assert Utils.Balances(order) == [];
      assert Utils.Months(loans, monthlyPayment) == [];
    }
    assert Utils.Months(eligible, monthlyPayment) == Utils.Months(loans, monthlyPayment);
  }

  // ---------------------------------------------------------------- combinedSchedule

  /** The last history row's cumulative interest and principal, 0 without history. */
  function LastTotals(history: seq<ScheduleRow>): (real, real)
  {
    if history == [] then (0.0, 0.0)
    else (history[|history| - 1].cumInterest, history[|history| - 1].cumPrincipal)
  }

  /** A projected row moved past the history: month and running totals offset. */
  function Shift(row: Utils.Row, months: nat, totals: (real, real)): ScheduleRow
  {
    Projected(months + row.month, Round2(totals.0 + row.cumInterest), Round2(totals.1 + row.cumPrincipal), row)
  }

  /** `combinedSchedule`: the history, then the projection shifted past it. */
  function Combined(history: seq<ScheduleRow>, projected: seq<Utils.Row>): seq<ScheduleRow>
  {
    history + seq(|projected|, k requires 0 <= k < |projected| => Shift(projected[k], |history|, LastTotals(history)))
  }

  /**
   * The combined schedule is the history followed by one row per projected
   * month: lengths add up, history rows are actual and projected rows are
   * not, projected months are renumbered after the history and their
   * running totals continue from its last row.
   */
  lemma CombinedSpec(history: seq<ScheduleRow>, projected: seq<Utils.Row>)
    requires forall i | 0 <= i < |history| :: history[i].Actual?
    ensures var r := Combined(history, projected);
      && |r| == |history| + |projected|
      && r[..|history|] == history
      && (forall i | 0 <= i < |r| :: r[i].Actual? <==> i < |history|)
      && (forall k | 0 <= k < |projected| ::
            && r[|history| + k].month == |history| + projected[k].month
            && r[|history| + k].cumInterest == Round2(LastTotals(history).0 + projected[k].cumInterest)
            && r[|history| + k].cumPrincipal == Round2(LastTotals(history).1 + projected[k].cumPrincipal)
            && r[|history| + k].projected == projected[k])
  {
  }

  /**
   * On the screen's own inputs the combined schedule is numbered 1, 2, 3, …
   * without gap: history months first, then the projected months.
   */
  lemma CombinedNumbering(payments: seq<Payment>, loans: seq<Utils.Loan>, monthlyPayment: real)
    ensures var r := Combined(ActualHistory(payments, loans), ProjectedSchedule(loans, monthlyPayment));
      && |r| <= |ActualHistory(payments, loans)| + 360
      && forall i | 0 <= i < |r| :: r[i].month == i + 1
  {
    var history := ActualHistory(payments, loans);
    var projected := ProjectedSchedule(loans, monthlyPayment);
    Utils.AmortizationMonths(Utils.EligibleLoans(loans), monthlyPayment);
    forall i | 0 <= i < |history| ensures history[i].month == i + 1 {
      HistoryMonth(payments, TotalBorrowed(payments, loans), i);
    }
    CombinedMonths(history, projected);
  }

  /** Numbered histories and projections combine into a schedule numbered without gap. */
  lemma CombinedMonths(history: seq<ScheduleRow>, projected: seq<Utils.Row>)
    requires forall i | 0 <= i < |history| :: history[i].month == i + 1
    requires forall k | 0 <= k < |projected| :: projected[k].month == k + 1
    ensures forall i | 0 <= i < |Combined(history, projected)| :: Combined(history, projected)[i].month == i + 1
  {
    var r := Combined(history, projected);
    forall i | 0 <= i < |r| ensures r[i].month == i + 1 {
      if i >= |history| {
        assert r[i] == Shift(projected[i - |history|], |history|, LastTotals(history));
      }
    }
  }

  // ---------------------------------------------------------------- chartSchedule

  /** The chart keeps the first row, the last row and every row at an even index. */
  predicate Kept(i: nat, n: nat)
  {
    i == 0 || i == n - 1 || i % 2 == 0
  }

  function SampleUpTo<T>(rows: seq<T>, k: nat): seq<T>
    requires k <= |rows|
  {
    if k == 0 then [] else SampleUpTo(rows, k - 1) + (if Kept(k - 1, |rows|) then [rows[k - 1]] else [])
  }

  /** `chartSchedule`. */
  function ChartSample<T>(rows: seq<T>): seq<T>
  {
    SampleUpTo(rows, |rows|)
  }

  lemma {:induction false} SampleUpToEven<T>(rows: seq<T>, k: nat)
    requires k < |rows|
    ensures |SampleUpTo(rows, k)| == (k + 1) / 2
    ensures forall j | 0 <= j < (k + 1) / 2 :: SampleUpTo(rows, k)[j] == rows[2 * j]
  {
    if k > 0 {
      SampleUpToEven(rows, k - 1);
    }
  }

  /**
   * The sample is the rows at even indices in order, followed by the last
   * row when its index is odd; so it starts with the first row, ends with
   * the last, and has about half the rows.
   */
  lemma ChartSampleSpec<T>(rows: seq<T>)
    ensures var n := |rows|; var r := ChartSample(rows);
      && |r| == (if n > 0 && n % 2 == 0 then n / 2 + 1 else (n + 1) / 2)
      && (forall j | 0 <= j < (n + 1) / 2 :: r[j] == rows[2 * j])
      && (n > 0 ==> r[0] == rows[0] && r[|r| - 1] == rows[n - 1])
  {
    var n := |rows|;
    if n > 0 {
      SampleUpToEven(rows, n - 1);
    }
  }
}
