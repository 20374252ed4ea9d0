/**
 * The debt-payoff engine of src/lib/utils.js: the weighted average rate, the
 * avalanche amortization simulator and the scenario summary.
 *
 * The simulator keeps one balance per loan, in avalanche order (highest rate
 * first, fixed once for the run). Each month it accrues interest on every
 * loan with a positive balance, caps the payment at balance plus interest,
 * debits the interest and pays the rest as principal in avalanche order. The
 * unrounded month is a `MonthStep`; the emitted record is a `Row`, rounded to
 * cents. The run date is not modelled: a row is identified by its month number.
 */
module Utils {
  import opened Money
  import StableSort

  /** A row of the `loans` table: `current_balance` and `interest_rate` (annual percent). */
  datatype Loan = Loan(loanId: string, loanType: string, status: string, balance: real, rate: real)

  // ---------------------------------------------------------------- weightedAvgRate

  function BalanceSum(loans: seq<Loan>): real
  {
    if loans == [] then 0.0 else BalanceSum(loans[..|loans| - 1]) + loans[|loans| - 1].balance
  }

  function RateWeightedSum(loans: seq<Loan>): real
  {
    if loans == [] then 0.0
    else RateWeightedSum(loans[..|loans| - 1]) + loans[|loans| - 1].balance * loans[|loans| - 1].rate
  }

  /** `weightedAvgRate`: the balance-weighted mean rate, 0 when the balances sum to 0. */
  function WeightedAvgRate(loans: seq<Loan>): (r: real)
  {
    Average(RateWeightedSum(loans), BalanceSum(loans))
  }

  /** `weighted / totalBal`, with 0 for an empty total. */
  function Average(weighted: real, total: real): real
  {
    if total == 0.0 then 0.0 else weighted / total
  }

  lemma WeightedTerm(b: real, r: real, lo: real, hi: real)
    requires b >= 0.0 && lo <= r <= hi
    ensures lo * b <= b * r <= hi * b
  {
    assert b * (r - lo) >= 0.0;
    assert b * (hi - r) >= 0.0;
  }

  lemma {:induction false} WeightedSumBetween(loans: seq<Loan>, lo: real, hi: real)
    requires forall i | 0 <= i < |loans| :: loans[i].balance >= 0.0 && lo <= loans[i].rate <= hi
    ensures lo * BalanceSum(loans) <= RateWeightedSum(loans) <= hi * BalanceSum(loans)
  {
    if loans != [] {
      var init, last := loans[..|loans| - 1], loans[|loans| - 1];
      assert forall i | 0 <= i < |init| :: init[i] == loans[i];
      WeightedSumBetween(init, lo, hi);
      WeightedTerm(last.balance, last.rate, lo, hi);
      var b0, w0 := BalanceSum(init), RateWeightedSum(init);
      assert BalanceSum(loans) == b0 + last.balance;
      assert RateWeightedSum(loans) == w0 + last.balance * last.rate;
      assert lo * (b0 + last.balance) == lo * b0 + lo * last.balance;
      assert hi * (b0 + last.balance) == hi * b0 + hi * last.balance;
      assert w0 <= hi * b0;
      assert w0 + last.balance * last.rate <= hi * b0 + hi * last.balance;
    }
  }

  /**
   * With non-negative balances the weighted average lies between the lowest
   * and the highest rate; with balances summing to 0 it is 0.
   */
  lemma WeightedAvgRateBetween(loans: seq<Loan>, lo: real, hi: real)
    requires forall i | 0 <= i < |loans| :: loans[i].balance >= 0.0 && lo <= loans[i].rate <= hi
    ensures BalanceSum(loans) == 0.0 ==> WeightedAvgRate(loans) == 0.0
    ensures BalanceSum(loans) != 0.0 ==> lo <= WeightedAvgRate(loans) <= hi
  {
    var w, total := RateWeightedSum(loans), BalanceSum(loans);
    assert total >= 0.0 && lo * total <= w <= hi * total by {
      WeightedSumBetween(loans, lo, hi);
      BalanceSumNonNegative(loans);
    }
    AverageBetween(w, total, lo, hi);
  }

  lemma AverageBetween(w: real, total: real, lo: real, hi: real)
    requires total >= 0.0 && lo * total <= w <= hi * total
    ensures total == 0.0 ==> Average(w, total) == 0.0
    ensures total != 0.0 ==> lo <= Average(w, total) <= hi
  {
    if total != 0.0 {
      var q := w / total;
      assert q * total == w;
      assert (q - lo) * total >= 0.0;
      assert (hi - q) * total >= 0.0;
    }
  }

  lemma {:induction false} BalanceSumNonNegative(loans: seq<Loan>)
    requires forall i | 0 <= i < |loans| :: loans[i].balance >= 0.0
    ensures BalanceSum(loans) >= 0.0
  {
    if loans != [] {
      assert forall i | 0 <= i < |loans| - 1 :: loans[..|loans| - 1][i] == loans[i];
      BalanceSumNonNegative(loans[..|loans| - 1]);
    }
  }

  // ---------------------------------------------------------------- avalanche order

  /** Only active loans that still owe something are simulated. */
  predicate Eligible(l: Loan)
  {
    l.status == "Active" && l.balance > 0.0
  }

  function EligibleLoans(loans: seq<Loan>): (r: seq<Loan>)
    ensures forall l | l in r :: Eligible(l) && l in loans
    ensures forall l | l in loans && Eligible(l) :: l in r
    ensures |r| <= |loans|
  {
    if loans == [] then []
    else (if Eligible(loans[0]) then [loans[0]] else []) + EligibleLoans(loans[1..])
  }

  /** The comparator `(a, b) => b.interest_rate - a.interest_rate` puts a first when its rate is higher. */
  predicate HigherRate(a: Loan, b: Loan)
  {
    a.rate > b.rate
  }

  /** The avalanche order: eligible loans by rate descending, equal rates in the caller's order. */
  function AvalancheOrder(loans: seq<Loan>): seq<Loan>
  {
    StableSort.Sort(EligibleLoans(loans), HigherRate)
  }

  lemma HigherRateWeakOrder(s: seq<Loan>)
    ensures StableSort.WeakOrderOn(HigherRate, s)
  {
  }

  /** Loans with the same rate as x, in their order in s. */
  function SameRate(s: seq<Loan>, x: Loan): seq<Loan>
  {
    if s == [] then [] else (if s[0].rate == x.rate then [s[0]] else []) + SameRate(s[1..], x)
  }

  lemma {:induction false} SameRateIsTied(s: seq<Loan>, x: Loan)
    ensures SameRate(s, x) == StableSort.TiedWith(s, x, HigherRate)
  {
    if s != [] {
      SameRateIsTied(s[1..], x);
    }
  }

  /**
   * The avalanche order holds exactly the active loans with a positive
   * balance, with rates descending, and loans of equal rate keep the order
   * the caller gave them (JavaScript's sort is stable).
   */
  lemma AvalancheOrderSpec(loans: seq<Loan>)
    ensures multiset(AvalancheOrder(loans)) == multiset(EligibleLoans(loans))
    ensures forall l | l in AvalancheOrder(loans) :: Eligible(l) && l in loans
    ensures forall l | l in loans && Eligible(l) :: l in AvalancheOrder(loans)
    ensures forall i, j | 0 <= i < j < |AvalancheOrder(loans)| :: AvalancheOrder(loans)[i].rate >= AvalancheOrder(loans)[j].rate
    ensures forall x :: SameRate(AvalancheOrder(loans), x) == SameRate(EligibleLoans(loans), x)
  {
    var e := EligibleLoans(loans);
    var r := AvalancheOrder(loans);
    HigherRateWeakOrder(e);
    StableSort.SortSorted(e, HigherRate);
    forall l | l in r ensures Eligible(l) && l in loans {
      assert l in multiset(r);
    }
    forall l | l in loans && Eligible(l) ensures l in r {
      assert l in multiset(e);
    }
    forall x: Loan ensures SameRate(r, x) == SameRate(e, x) {
      HigherRateWeakOrder(e + [x]);
      StableSort.SortStable(e, x, HigherRate);
      SameRateIsTied(r, x);
      SameRateIsTied(e, x);
    }
  }

  // ---------------------------------------------------------------- one month

  /** `Math.max(0, balance)` summed over the loans. */
  function TotalOf(bals: seq<real>): real
  {
    if bals == [] then 0.0 else TotalOf(bals[..|bals| - 1]) + Max(0.0, bals[|bals| - 1])
  }

  /** A month's interest on one loan; `rate` is the annual rate as a fraction (percent / 100). */
  function LoanInterest(balance: real, rate: real): real
  {
    if balance > 0.0 then balance * rate / 12.0 else 0.0
  }

  /** Interest accrued in a month over all loans with a positive balance. */
  function InterestOf(bals: seq<real>, rates: seq<real>): real
    requires |bals| == |rates|
  {
    if bals == [] then 0.0
    else InterestOf(bals[..|bals| - 1], rates[..|rates| - 1]) + LoanInterest(bals[|bals| - 1], rates[|rates| - 1])
  }

  /** The principal pass: walk the loans in order, each absorbing min(balance, remaining). */
  function PayPrincipal(bals: seq<real>, remaining: real): (r: seq<real>)
    ensures |r| == |bals|
  {
    if bals == [] then []
    else if bals[0] > 0.0 && remaining > 0.0 then
      var pay := Min(bals[0], remaining);
      [bals[0] - pay] + PayPrincipal(bals[1..], remaining - pay)
    else [bals[0]] + PayPrincipal(bals[1..], remaining)
  }

  predicate NonNegative(bals: seq<real>)
  {
    forall i | 0 <= i < |bals| :: bals[i] >= 0.0
  }

  /** Avalanche: any loan whose balance dropped has every loan before it in the order at zero. */
  predicate PaidInOrder(before: seq<real>, after: seq<real>)
    requires |after| == |before|
  {
    forall j | 0 <= j < |before| && after[j] < before[j] :: forall i | 0 <= i < j :: after[i] == 0.0
  }

  /** Balance by balance, `after` owes no more than `before`. */
  predicate NoneRose(before: seq<real>, after: seq<real>)
  {
    |after| == |before| && forall i | 0 <= i < |before| :: after[i] <= before[i]
  }

  lemma {:induction false} TotalOfAppend(a: seq<real>, b: seq<real>)
    ensures TotalOf(a + b) == TotalOf(a) + TotalOf(b)
    decreases |b|
  {
    if b == [] {
      assert a + b == a;
    } else {
      assert (a + b)[..|a + b| - 1] == a + b[..|b| - 1];
      TotalOfAppend(a, b[..|b| - 1]);
    }
  }

  lemma TotalOfCons(x: real, s: seq<real>)
    ensures TotalOf([x] + s) == Max(0.0, x) + TotalOf(s)
  {
    TotalOfAppend([x], s);
    assert [x][..0] == [];
  }

  lemma {:induction false} TotalOfNonNegative(s: seq<real>)
    ensures TotalOf(s) >= 0.0
  {
    if s != [] {
      TotalOfNonNegative(s[..|s| - 1]);
    }
  }

  /** The principal pass never raises a balance nor takes one below zero. */
  lemma {:induction false} PayPrincipalFalls(bals: seq<real>, remaining: real)
    requires NonNegative(bals)
    ensures NonNegative(PayPrincipal(bals, remaining))
    ensures NoneRose(bals, PayPrincipal(bals, remaining))
  {
    if bals != [] {
      var b, rest := bals[0], bals[1..];
      var rem' := if b > 0.0 && remaining > 0.0 then remaining - Min(b, remaining) else remaining;
      var b' := if b > 0.0 && remaining > 0.0 then b - Min(b, remaining) else b;
      PayPrincipalFalls(rest, rem');
      assert PayPrincipal(bals, remaining) == [b'] + PayPrincipal(rest, rem');
    }
  }

  /** With a positive amount left, the principal pass takes min(remaining, total) off the total. */
  lemma {:induction false} PayPrincipalTotal(bals: seq<real>, remaining: real)
    requires NonNegative(bals)
    ensures TotalOf(PayPrincipal(bals, remaining)) == TotalOf(bals) - Max(0.0, Min(remaining, TotalOf(bals)))
  {
    if bals != [] {
      var b, rest := bals[0], bals[1..];
      assert bals == [b] + rest;
      TotalOfCons(b, rest);
      TotalOfNonNegative(rest);
      var rem' := if b > 0.0 && remaining > 0.0 then remaining - Min(b, remaining) else remaining;
      var b' := if b > 0.0 && remaining > 0.0 then b - Min(b, remaining) else b;
      PayPrincipalTotal(rest, rem');
      assert PayPrincipal(bals, remaining) == [b'] + PayPrincipal(rest, rem');
      TotalOfCons(b', PayPrincipal(rest, rem'));
    }
  }

  /** With nothing left after interest, the principal pass changes no balance. */
  lemma {:induction false} PayPrincipalNothing(bals: seq<real>, remaining: real)
    requires remaining <= 0.0
    ensures PayPrincipal(bals, remaining) == bals
  {
    if bals != [] {
      PayPrincipalNothing(bals[1..], remaining);
      assert bals == [bals[0]] + bals[1..];
    }
  }

  /**
   * Avalanche: a loan whose balance drops in the pass has every loan before it
   * in the order paid down to zero.
   */
  lemma {:induction false} PayPrincipalAvalanche(bals: seq<real>, remaining: real, j: nat)
    requires NonNegative(bals)
    requires j < |bals| && PayPrincipal(bals, remaining)[j] < bals[j]
    ensures forall i | 0 <= i < j :: PayPrincipal(bals, remaining)[i] == 0.0
  {
    var b := bals[0];
    if j > 0 {
      if b > 0.0 && remaining > 0.0 {
        var pay := Min(b, remaining);
        var tail := PayPrincipal(bals[1..], remaining - pay);
        assert tail[j - 1] < bals[1..][j - 1];
        if remaining < b {
          PayPrincipalNothing(bals[1..], remaining - pay);
          assert false;
        }
        PayPrincipalAvalanche(bals[1..], remaining - pay, j - 1);
      } else {
        var tail := PayPrincipal(bals[1..], remaining);
        assert tail[j - 1] < bals[1..][j - 1];
        if remaining <= 0.0 {
          PayPrincipalNothing(bals[1..], remaining);
          assert false;
        }
        PayPrincipalAvalanche(bals[1..], remaining, j - 1);
      }
    }
  }

  // ---------------------------------------------------------------- the run

  /**
   * `totalBal + totalInterest`: everything owed once the month's interest is
   * added. Named, like `Applied`, so that the month's figures are compared by
   * name rather than re-derived by arithmetic.
   */
  function Payable(total: real, interest: real): real { total + interest }

  /** `actualPayment - totalInterest`: what is left of the payment for principal; negative when it does not cover the interest. */
  function Applied(payment: real, interest: real): real { payment - interest }

  /** One simulated month before rounding: balances before and after, interest, payment and running totals. */
  datatype MonthStep = MonthStep(
    month: nat, before: seq<real>, after: seq<real>,
    interest: real, payment: real, cumInterest: real, cumPrincipal: real)
  {
    /** The principal paid in the month (see `Applied`). */
    function Principal(): real { Applied(payment, interest) }
  }

  /** The loop body for `month`, from balances `bals` and the running totals so far. */
  function Step(rates: seq<real>, payment: real, bals: seq<real>, month: nat, cumInterest: real, cumPrincipal: real): MonthStep
    requires |bals| == |rates|
  {
    var interest := InterestOf(bals, rates);
    var actual := Min(payment, Payable(TotalOf(bals), interest));
    var after := PayPrincipal(bals, Applied(actual, interest));
    MonthStep(month, bals, after, interest, actual, cumInterest + interest, cumPrincipal + Applied(actual, interest))
  }

  /** The months from `month` on, starting from balances `bals`, until payoff or month 360. */
  function Run(rates: seq<real>, payment: real, bals: seq<real>, month: nat, cumInterest: real, cumPrincipal: real): (ms: seq<MonthStep>)
    requires |bals| == |rates| && 1 <= month <= 361
    ensures |ms| <= 361 - month
    decreases 361 - month
  {
    if month > 360 || TotalOf(bals) <= 0.01 then []
    else
      var m := Step(rates, payment, bals, month, cumInterest, cumPrincipal);
      [m] + Run(rates, payment, m.after, month + 1, m.cumInterest, m.cumPrincipal)
  }

  /** m is one month of the loop body applied to m.before, which owes more than a cent. */
  predicate IsStep(m: MonthStep, rates: seq<real>, payment: real)
  {
    && |m.before| == |rates|
    && TotalOf(m.before) > 0.01
    && m.interest == InterestOf(m.before, rates)
    && m.payment == Min(payment, Payable(TotalOf(m.before), m.interest))
    && m.after == PayPrincipal(m.before, m.Principal())
  }

  /** Every month of a run is the loop body applied to a balance owing more than a cent. */
  lemma RunSteps(rates: seq<real>, payment: real, bals: seq<real>, month: nat, cumI: real, cumP: real)
    requires |bals| == |rates| && 1 <= month <= 361
    ensures var ms := Run(rates, payment, bals, month, cumI, cumP);
      forall k | 0 <= k < |ms| :: IsStep(ms[k], rates, payment)
  {
    var ms := Run(rates, payment, bals, month, cumI, cumP);
    forall k | 0 <= k < |ms| ensures IsStep(ms[k], rates, payment) {
      RunStepAt(rates, payment, bals, month, cumI, cumP, k);
    }
  }

  /** The k-th month of a run is the loop body applied to its starting balances. */
  lemma {:induction false} RunStepAt(rates: seq<real>, payment: real, bals: seq<real>, month: nat, cumI: real, cumP: real, k: nat)
    requires |bals| == |rates| && 1 <= month <= 361
    requires k < |Run(rates, payment, bals, month, cumI, cumP)|
    ensures IsStep(Run(rates, payment, bals, month, cumI, cumP)[k], rates, payment)
    decreases k
  {
    var m := Step(rates, payment, bals, month, cumI, cumP);
    RunUnfold(rates, payment, bals, month, cumI, cumP);
    if k > 0 {
      var rest := Run(rates, payment, m.after, month + 1, m.cumInterest, m.cumPrincipal);
      RunStepAt(rates, payment, m.after, month + 1, m.cumInterest, m.cumPrincipal, k - 1);
      assert Run(rates, payment, bals, month, cumI, cumP)[k] == rest[k - 1];
    } else {
      StepIsStep(rates, payment, bals, month, cumI, cumP);
    }
  }

  lemma StepIsStep(rates: seq<real>, payment: real, bals: seq<real>, month: nat, cumI: real, cumP: real)
    requires |bals| == |rates| && TotalOf(bals) > 0.01
    ensures IsStep(Step(rates, payment, bals, month, cumI, cumP), rates, payment)
  {
  }

  /**
   * The months of a run are chained: the first starts from the given balances
   * and totals, each later one starts where the previous ended, and the
   * running interest and principal add up month by month.
   */
  lemma RunLinks(rates: seq<real>, payment: real, bals: seq<real>, month: nat, cumI: real, cumP: real)
    requires |bals| == |rates| && 1 <= month <= 361
    ensures var ms := Run(rates, payment, bals, month, cumI, cumP);
      && (ms != [] ==> ms[0].before == bals && ms[0].cumInterest == cumI + ms[0].interest
                       && ms[0].cumPrincipal == cumP + ms[0].Principal())
      && (forall k | 0 <= k < |ms| - 1 ::
            && ms[k + 1].before == ms[k].after
            && ms[k + 1].cumInterest == ms[k].cumInterest + ms[k + 1].interest
            && ms[k + 1].cumPrincipal == ms[k].cumPrincipal + ms[k + 1].Principal())
  {
    var ms := Run(rates, payment, bals, month, cumI, cumP);
    if ms != [] {
      RunUnfold(rates, payment, bals, month, cumI, cumP);
    }
    forall k | 0 <= k < |ms| - 1
      ensures && ms[k + 1].before == ms[k].after
              && ms[k + 1].cumInterest == ms[k].cumInterest + ms[k + 1].interest
              && ms[k + 1].cumPrincipal == ms[k].cumPrincipal + ms[k + 1].Principal()
    {
      RunLinkAt(rates, payment, bals, month, cumI, cumP, k);
    }
  }

  /** Month k + 1 of a run starts from the balances and running totals month k ended with. */
  lemma {:induction false} RunLinkAt(rates: seq<real>, payment: real, bals: seq<real>, month: nat, cumI: real, cumP: real, k: nat)
    requires |bals| == |rates| && 1 <= month <= 361
    requires k + 1 < |Run(rates, payment, bals, month, cumI, cumP)|
    ensures var ms := Run(rates, payment, bals, month, cumI, cumP);
      && ms[k + 1].before == ms[k].after
      && ms[k + 1].cumInterest == ms[k].cumInterest + ms[k + 1].interest
      && ms[k + 1].cumPrincipal == ms[k].cumPrincipal + ms[k + 1].Principal()
    decreases k
  {
    var m := Step(rates, payment, bals, month, cumI, cumP);
    var rest := Run(rates, payment, m.after, month + 1, m.cumInterest, m.cumPrincipal);
    RunUnfold(rates, payment, bals, month, cumI, cumP);
    var ms := Run(rates, payment, bals, month, cumI, cumP);
    assert ms[k + 1] == rest[k];
    if k > 0 {
      RunLinkAt(rates, payment, m.after, month + 1, m.cumInterest, m.cumPrincipal, k - 1);
      assert ms[k] == rest[k - 1];
    } else {
      assert ms[0] == m;
      RunUnfold(rates, payment, m.after, month + 1, m.cumInterest, m.cumPrincipal);
    }
  }

  /**
   * The run stops exactly at payoff or at month 360: it is empty only when the
   * start owes at most a cent or the cap is reached, every month but the last
   * leaves more than a cent owed, and a run that ends before the cap ends with
   * at most a cent owed.
   */
  lemma {:induction false} RunStops(rates: seq<real>, payment: real, bals: seq<real>, month: nat, cumI: real, cumP: real)
    requires |bals| == |rates| && 1 <= month <= 361
    ensures var ms := Run(rates, payment, bals, month, cumI, cumP);
      && (ms == [] <==> month == 361 || TotalOf(bals) <= 0.01)
      && (forall k | 0 <= k < |ms| - 1 :: TotalOf(ms[k].after) > 0.01)
      && (ms != [] && |ms| < 361 - month ==> TotalOf(ms[|ms| - 1].after) <= 0.01)
  {
    var ms := Run(rates, payment, bals, month, cumI, cumP);
    forall k | 0 <= k < |ms| - 1 ensures TotalOf(ms[k].after) > 0.01 {
      RunOwesBeforeEnd(rates, payment, bals, month, cumI, cumP, k);
    }
    RunEndsPaidOff(rates, payment, bals, month, cumI, cumP);
  }

  /** Every month of a run but the last leaves more than a cent owed. */
  lemma {:induction false} RunOwesBeforeEnd(rates: seq<real>, payment: real, bals: seq<real>, month: nat, cumI: real, cumP: real, k: nat)
    requires |bals| == |rates| && 1 <= month <= 361
    requires k + 1 < |Run(rates, payment, bals, month, cumI, cumP)|
    ensures TotalOf(Run(rates, payment, bals, month, cumI, cumP)[k].after) > 0.01
    decreases k
  {
    var m := Step(rates, payment, bals, month, cumI, cumP);
    var rest := Run(rates, payment, m.after, month + 1, m.cumInterest, m.cumPrincipal);
    RunUnfold(rates, payment, bals, month, cumI, cumP);
    if k > 0 {
      RunOwesBeforeEnd(rates, payment, m.after, month + 1, m.cumInterest, m.cumPrincipal, k - 1);
      assert Run(rates, payment, bals, month, cumI, cumP)[k] == rest[k - 1];
    } else {
      assert rest != [];
    }
  }

  /** A run that ends before the month cap ends with at most a cent owed. */
  lemma {:induction false} RunEndsPaidOff(rates: seq<real>, payment: real, bals: seq<real>, month: nat, cumI: real, cumP: real)
    requires |bals| == |rates| && 1 <= month <= 361
    ensures var ms := Run(rates, payment, bals, month, cumI, cumP);
      ms != [] && |ms| < 361 - month ==> TotalOf(ms[|ms| - 1].after) <= 0.01
    decreases 361 - month
  {
    var ms := Run(rates, payment, bals, month, cumI, cumP);
    if ms != [] && |ms| < 361 - month {
      var m := Step(rates, payment, bals, month, cumI, cumP);
      var rest := Run(rates, payment, m.after, month + 1, m.cumInterest, m.cumPrincipal);
      RunUnfold(rates, payment, bals, month, cumI, cumP);
      if rest != [] {
        RunEndsPaidOff(rates, payment, m.after, month + 1, m.cumInterest, m.cumPrincipal);
        assert ms[|ms| - 1] == rest[|rest| - 1];
      }
    }
  }

  /** Every balance in the run stays non-negative and never rises from one month to the next. */
  lemma RunBalancesFall(rates: seq<real>, payment: real, bals: seq<real>, month: nat, cumI: real, cumP: real)
    requires |bals| == |rates| && 1 <= month <= 361
    requires NonNegative(bals)
    ensures var ms := Run(rates, payment, bals, month, cumI, cumP);
      forall k | 0 <= k < |ms| :: NonNegative(ms[k].before) && NonNegative(ms[k].after) && NoneRose(ms[k].before, ms[k].after)
  {
    var ms := Run(rates, payment, bals, month, cumI, cumP);
    forall k | 0 <= k < |ms|
      ensures NonNegative(ms[k].before) && NonNegative(ms[k].after) && NoneRose(ms[k].before, ms[k].after)
    {
      RunBalancesFallAt(rates, payment, bals, month, cumI, cumP, k);
    }
  }

  /** The k-th month of a run from non-negative balances keeps them non-negative and raises none. */
  lemma {:induction false} RunBalancesFallAt(rates: seq<real>, payment: real, bals: seq<real>, month: nat, cumI: real, cumP: real, k: nat)
    requires |bals| == |rates| && 1 <= month <= 361
    requires NonNegative(bals)
    requires k < |Run(rates, payment, bals, month, cumI, cumP)|
    ensures var m := Run(rates, payment, bals, month, cumI, cumP)[k];
      NonNegative(m.before) && NonNegative(m.after) && NoneRose(m.before, m.after)
    decreases k
  {
    var m := Step(rates, payment, bals, month, cumI, cumP);
    RunUnfold(rates, payment, bals, month, cumI, cumP);
    PayPrincipalFalls(bals, m.Principal());
    if k > 0 {
      var rest := Run(rates, payment, m.after, month + 1, m.cumInterest, m.cumPrincipal);
      RunBalancesFallAt(rates, payment, m.after, month + 1, m.cumInterest, m.cumPrincipal, k - 1);
      assert Run(rates, payment, bals, month, cumI, cumP)[k] == rest[k - 1];
    } else {
      assert Run(rates, payment, bals, month, cumI, cumP)[0] == m;
    }
  }

  /**
   * One month of the loop body, on non-negative balances: no balance rises
   * (unpaid interest is never added to a balance), the payment is capped at
   * what is owed plus interest, and the total falls by exactly
   * max(0, payment - interest).
   */
  lemma StepBalances(m: MonthStep, rates: seq<real>, payment: real)
    requires IsStep(m, rates, payment) && NonNegative(m.before)
    ensures NonNegative(m.after) && NoneRose(m.before, m.after)
    ensures m.payment <= TotalOf(m.before) + m.interest
    ensures TotalOf(m.after) == TotalOf(m.before) - Max(0.0, m.payment - m.interest)
  {
    PayPrincipalFalls(m.before, m.Principal());
    PayPrincipalTotal(m.before, m.Principal());
  }

  /** A payment below the month's interest leaves every balance as it was and records negative principal. */
  lemma StepShortfall(m: MonthStep, rates: seq<real>, payment: real)
    requires IsStep(m, rates, payment) && m.payment < m.interest
    ensures m.after == m.before && m.Principal() < 0.0
  {
    PayPrincipalNothing(m.before, m.Principal());
  }

  /** Avalanche: a loan that receives principal in a month has every loan before it in the order paid off. */
  lemma StepAvalanche(m: MonthStep, rates: seq<real>, payment: real)
    requires IsStep(m, rates, payment) && NonNegative(m.before)
    ensures PaidInOrder(m.before, m.after)
  {
    forall j | 0 <= j < |m.before| && m.after[j] < m.before[j]
      ensures forall i | 0 <= i < j :: m.after[i] == 0.0
    {
      PayPrincipalAvalanche(m.before, m.Principal(), j);
    }
  }

  lemma {:induction false} InterestOfNonNegative(bals: seq<real>, rates: seq<real>)
    requires |bals| == |rates|
    requires forall i | 0 <= i < |rates| :: rates[i] >= 0.0
    ensures InterestOf(bals, rates) >= 0.0
  {
    if bals != [] {
      InterestOfNonNegative(bals[..|bals| - 1], rates[..|rates| - 1]);
      var b, r := bals[|bals| - 1], rates[|rates| - 1];
      if b > 0.0 {
        assert b * r >= 0.0;
      }
    }
  }

  // ---------------------------------------------------------------- emitted rows

  /** One schedule record as `computeAmortization` pushes it (the date is not modelled). */
  datatype Row = Row(
    month: nat, payment: real, interest: real, principal: real, totalBalance: real,
    cumInterest: real, cumPrincipal: real,
    gradPlusBal: real, unsubBal: real, subBal: real,
    loansRemaining: nat, pctPaid: real)

  /** Balance still owed on the loans of type t (`byType[t]`). */
  function TypeTotal(bals: seq<real>, types: seq<string>, t: string): real
  {
    if bals == [] then 0.0
    else
      var i := |bals| - 1;
      TypeTotal(bals[..i], types, t) + (if i < |types| && types[i] == t then Max(0.0, bals[i]) else 0.0)
  }

  /** `order.filter(id => balances[id] > 0.01).length`. */
  function CountAbove(bals: seq<real>, eps: real): nat
  {
    if bals == [] then 0 else CountAbove(bals[..|bals| - 1], eps) + (if bals[|bals| - 1] > eps then 1 else 0)
  }

  function EmitRow(m: MonthStep, types: seq<string>, origTotal: real): Row
    requires origTotal > 0.0
  {
    Row(m.month, Round2(m.payment), Round2(m.interest), Round2(m.Principal()), Round2(TotalOf(m.after)),
        Round2(m.cumInterest), Round2(m.cumPrincipal),
        Round2(TypeTotal(m.after, types, "Grad PLUS")), Round2(TypeTotal(m.after, types, "Unsubsidized")),
        Round2(TypeTotal(m.after, types, "Subsidized")),
        CountAbove(m.after, 0.01), RoundPct(1.0 - TotalOf(m.after) / origTotal))
  }

  function Emit(ms: seq<MonthStep>, types: seq<string>, origTotal: real): (rows: seq<Row>)
    requires ms != [] ==> origTotal > 0.0
    ensures |rows| == |ms|
  {
    if ms == [] then [] else [EmitRow(ms[0], types, origTotal)] + Emit(ms[1..], types, origTotal)
  }

  /** Each emitted record is its month, rounded. */
  lemma {:induction false} EmitAt(ms: seq<MonthStep>, types: seq<string>, origTotal: real, k: nat)
    requires origTotal > 0.0 && k < |ms|
    ensures Emit(ms, types, origTotal)[k] == EmitRow(ms[k], types, origTotal)
  {
    if k > 0 {
      EmitAt(ms[1..], types, origTotal, k - 1);
    }
  }

  function Balances(order: seq<Loan>): (r: seq<real>)
    ensures |r| == |order| && forall i | 0 <= i < |order| :: r[i] == order[i].balance
  {
    seq(|order|, i requires 0 <= i < |order| => order[i].balance)
  }

  /** `Number(l.interest_rate) / 100`. */
  function Rates(order: seq<Loan>): (r: seq<real>)
    ensures |r| == |order| && forall i | 0 <= i < |order| :: r[i] == order[i].rate / 100.0
  {
    seq(|order|, i requires 0 <= i < |order| => order[i].rate / 100.0)
  }

  function Types(order: seq<Loan>): (r: seq<string>)
    ensures |r| == |order| && forall i | 0 <= i < |order| :: r[i] == order[i].loanType
  {
    seq(|order|, i requires 0 <= i < |order| => order[i].loanType)
  }

  /** Starting balances of a run are positive, so their plain sum is the clamped total. */
  lemma {:induction false} SumOfPositive(bals: seq<real>)
    requires forall i | 0 <= i < |bals| :: bals[i] > 0.0
    ensures Sum(bals) == TotalOf(bals)
  {
    if bals != [] {
      SumOfPositive(bals[..|bals| - 1]);
    }
  }

  /** The months `computeAmortization` simulates, before rounding. */
  function Months(loans: seq<Loan>, monthlyPayment: real): seq<MonthStep>
  {
    if |loans| == 0 || monthlyPayment <= 0.0 then []
    else
      var order := AvalancheOrder(loans);
      Run(Rates(order), monthlyPayment, Balances(order), 1, 0.0, 0.0)
  }

  /** `computeAmortization(loans, monthlyPayment)` without the date column. */
  function Amortization(loans: seq<Loan>, monthlyPayment: real): (rows: seq<Row>)
  {
    var order := AvalancheOrder(loans);
    var ms := Months(loans, monthlyPayment);
    var origTotal := Sum(Balances(order));
    StartingTotal(loans, monthlyPayment);
    Emit(ms, Types(order), origTotal)
  }

  /** A run that emits anything started above one cent, so the percentage paid off is well defined. */
  lemma StartingTotal(loans: seq<Loan>, monthlyPayment: real)
    ensures Months(loans, monthlyPayment) != [] ==> Sum(Balances(AvalancheOrder(loans))) > 0.01
  {
    var order := AvalancheOrder(loans);
    AvalancheOrderSpec(loans);
    forall i | 0 <= i < |order| ensures Balances(order)[i] > 0.0 {
      assert order[i] in order;
    }
    SumOfPositive(Balances(order));
    if |loans| != 0 && monthlyPayment > 0.0 {
      RunStops(Rates(order), monthlyPayment, Balances(order), 1, 0.0, 0.0);
    }
  }

  /** Months of a run are numbered consecutively from `month`. */
  lemma {:induction false} RunNumbered(rates: seq<real>, payment: real, bals: seq<real>, month: nat, cumI: real, cumP: real)
    requires |bals| == |rates| && 1 <= month <= 361
    ensures var ms := Run(rates, payment, bals, month, cumI, cumP);
      forall k | 0 <= k < |ms| :: ms[k].month == month + k
    decreases 361 - month
  {
    var ms := Run(rates, payment, bals, month, cumI, cumP);
    if ms != [] {
      var m := Step(rates, payment, bals, month, cumI, cumP);
      RunNumbered(rates, payment, m.after, month + 1, m.cumInterest, m.cumPrincipal);
      assert ms == [m] + Run(rates, payment, m.after, month + 1, m.cumInterest, m.cumPrincipal);
      forall k | 1 <= k < |ms| ensures ms[k].month == month + k {
        assert ms[k] == Run(rates, payment, m.after, month + 1, m.cumInterest, m.cumPrincipal)[k - 1];
      }
    }
  }

  /** Record k of the schedule is month k of the simulation, rounded. */
  lemma AmortizationRow(loans: seq<Loan>, monthlyPayment: real, k: nat)
    requires k < |Amortization(loans, monthlyPayment)|
    ensures Sum(Balances(AvalancheOrder(loans))) > 0.01
    ensures Amortization(loans, monthlyPayment)[k]
         == EmitRow(Months(loans, monthlyPayment)[k], Types(AvalancheOrder(loans)), Sum(Balances(AvalancheOrder(loans))))
  {
    StartingTotal(loans, monthlyPayment);
    EmitAt(Months(loans, monthlyPayment), Types(AvalancheOrder(loans)), Sum(Balances(AvalancheOrder(loans))), k);
  }

  /** The recorded figures of record k: the balance still owed and the running interest, rounded. */
  lemma AmortizationFigures(loans: seq<Loan>, monthlyPayment: real, k: nat)
    requires k < |Amortization(loans, monthlyPayment)|
    ensures Amortization(loans, monthlyPayment)[k].totalBalance == Round2(TotalOf(Months(loans, monthlyPayment)[k].after))
    ensures Amortization(loans, monthlyPayment)[k].cumInterest == Round2(Months(loans, monthlyPayment)[k].cumInterest)
  {
    AmortizationRow(loans, monthlyPayment, k);
  }

  /** The months of a non-empty schedule are the run from the avalanche-ordered balances. */
  lemma MonthsRun(loans: seq<Loan>, monthlyPayment: real)
    requires Amortization(loans, monthlyPayment) != []
    ensures Months(loans, monthlyPayment)
         == Run(Rates(AvalancheOrder(loans)), monthlyPayment, Balances(AvalancheOrder(loans)), 1, 0.0, 0.0)
  {
  }

  /** What the run starts from: positive balances, one per loan in avalanche order. */
  lemma RunStart(loans: seq<Loan>)
    ensures |Balances(AvalancheOrder(loans))| == |Rates(AvalancheOrder(loans))|
    ensures NonNegative(Balances(AvalancheOrder(loans)))
  {
    var order := AvalancheOrder(loans);
    AvalancheOrderSpec(loans);
    forall i | 0 <= i < |order| ensures Balances(order)[i] >= 0.0 {
      assert order[i] in order;
    }
  }

  /**
   * The schedule is empty exactly when there are no loans, the payment is not
   * positive, or the active loans owe at most a cent in all; otherwise it has
   * at most 360 records, numbered 1, 2, 3, ... in order.
   */
  lemma AmortizationMonths(loans: seq<Loan>, monthlyPayment: real)
    ensures Amortization(loans, monthlyPayment) == []
        <==> |loans| == 0 || monthlyPayment <= 0.0 || TotalOf(Balances(AvalancheOrder(loans))) <= 0.01
    ensures |Amortization(loans, monthlyPayment)| <= 360
    ensures forall k | 0 <= k < |Amortization(loans, monthlyPayment)| :: Amortization(loans, monthlyPayment)[k].month == k + 1
  {
    var order := AvalancheOrder(loans);
    var rows := Amortization(loans, monthlyPayment);
    if |loans| != 0 && monthlyPayment > 0.0 {
      RunStops(Rates(order), monthlyPayment, Balances(order), 1, 0.0, 0.0);
      RunNumbered(Rates(order), monthlyPayment, Balances(order), 1, 0.0, 0.0);
    }
    forall k | 0 <= k < |rows| ensures rows[k].month == k + 1 {
      AmortizationRow(loans, monthlyPayment, k);
    }
  }

  /**
   * Avalanche over a whole run: in any month, a loan that receives principal
   * has every higher-priority loan already at zero.
   */
  lemma RunAvalanche(rates: seq<real>, payment: real, bals: seq<real>, k: nat)
    requires |bals| == |rates| && NonNegative(bals)
    requires k < |Run(rates, payment, bals, 1, 0.0, 0.0)|
    ensures var m := Run(rates, payment, bals, 1, 0.0, 0.0)[k];
      |m.after| == |m.before| && PaidInOrder(m.before, m.after)
  {
    var m := Run(rates, payment, bals, 1, 0.0, 0.0)[k];
    RunSteps(rates, payment, bals, 1, 0.0, 0.0);
    RunBalancesFall(rates, payment, bals, 1, 0.0, 0.0);
    assert IsStep(m, rates, payment) && NonNegative(m.before);
    StepAvalanche(m, rates, payment);
  }

  /** In a run from non-negative balances, the total owed after each month never exceeds the month before's. */
  lemma RunTotalsFall(rates: seq<real>, payment: real, bals: seq<real>)
    requires |bals| == |rates| && NonNegative(bals)
    ensures var ms := Run(rates, payment, bals, 1, 0.0, 0.0);
      forall k | 0 <= k < |ms| - 1 :: TotalOf(ms[k + 1].after) <= TotalOf(ms[k].after)
  {
    var ms := Run(rates, payment, bals, 1, 0.0, 0.0);
    RunSteps(rates, payment, bals, 1, 0.0, 0.0);
    RunLinks(rates, payment, bals, 1, 0.0, 0.0);
    RunBalancesFall(rates, payment, bals, 1, 0.0, 0.0);
    forall k | 0 <= k < |ms| - 1 ensures TotalOf(ms[k + 1].after) <= TotalOf(ms[k].after) {
      StepBalances(ms[k + 1], rates, payment);
    }
  }

  /** Month after month the balance still owed, as recorded, never rises. */
  lemma AmortizationBalanceFalls(loans: seq<Loan>, monthlyPayment: real)
    ensures var rows := Amortization(loans, monthlyPayment);
      forall k | 0 <= k < |rows| - 1 :: rows[k + 1].totalBalance <= rows[k].totalBalance
  {
    var rows := Amortization(loans, monthlyPayment);
    if rows != [] {
      var order := AvalancheOrder(loans);
      var ms := Months(loans, monthlyPayment);
      RunStart(loans);
      MonthsRun(loans, monthlyPayment);
      RunTotalsFall(Rates(order), monthlyPayment, Balances(order));
      forall k | 0 <= k < |rows| - 1 ensures rows[k + 1].totalBalance <= rows[k].totalBalance {
        AmortizationFigures(loans, monthlyPayment, k);
        AmortizationFigures(loans, monthlyPayment, k + 1);
        Round2Monotone(TotalOf(ms[k + 1].after), TotalOf(ms[k].after));
      }
    }
  }

  /**
   * The schedule stops at payoff: every record but the last leaves at least
   * a cent owed, and a schedule shorter than 360 months ends with at most a
   * cent owed.
   */
  lemma AmortizationPayoff(loans: seq<Loan>, monthlyPayment: real)
    ensures var rows := Amortization(loans, monthlyPayment);
      && (forall k | 0 <= k < |rows| - 1 :: rows[k].totalBalance >= 0.01)
      && (rows != [] && |rows| < 360 ==> rows[|rows| - 1].totalBalance <= 0.01)
  {
    var rows := Amortization(loans, monthlyPayment);
    if rows != [] {
      var order := AvalancheOrder(loans);
      var ms := Months(loans, monthlyPayment);
      RunStops(Rates(order), monthlyPayment, Balances(order), 1, 0.0, 0.0);
      assert Round2(0.01) == 0.01;
      forall k | 0 <= k < |rows| - 1 ensures rows[k].totalBalance >= 0.01 {
        AmortizationRow(loans, monthlyPayment, k);
        Round2Monotone(0.01, TotalOf(ms[k].after));
      }
      AmortizationMonths(loans, monthlyPayment);
      if |rows| < 360 {
        var last := |rows| - 1;
        AmortizationRow(loans, monthlyPayment, last);
        Round2Monotone(TotalOf(ms[last].after), 0.01);
      }
    }
  }

  /** With no negative rate, the interest paid so far never falls from one record to the next. */
  lemma AmortizationInterestGrows(loans: seq<Loan>, monthlyPayment: real)
    requires forall l | l in loans :: l.rate >= 0.0
    ensures var rows := Amortization(loans, monthlyPayment);
      forall k | 0 <= k < |rows| - 1 :: rows[k].cumInterest <= rows[k + 1].cumInterest
  {
    var rows := Amortization(loans, monthlyPayment);
    if rows != [] {
      var order := AvalancheOrder(loans);
      var rates, bals := Rates(order), Balances(order);
      var ms := Months(loans, monthlyPayment);
      RunStart(loans);
      AvalancheOrderSpec(loans);
      forall i | 0 <= i < |rates| ensures rates[i] >= 0.0 {
        assert order[i] in order;
      }
      RunSteps(rates, monthlyPayment, bals, 1, 0.0, 0.0);
      RunLinks(rates, monthlyPayment, bals, 1, 0.0, 0.0);
      forall k | 0 <= k < |rows| - 1 ensures rows[k].cumInterest <= rows[k + 1].cumInterest {
        AmortizationRow(loans, monthlyPayment, k);
        AmortizationRow(loans, monthlyPayment, k + 1);
        InterestOfNonNegative(ms[k + 1].before, rates);
        Round2Monotone(ms[k].cumInterest, ms[k + 1].cumInterest);
      }
    }
  }

  // ---------------------------------------------------------------- computeScenarioSummary

  /** The summary of a payoff scenario (its payoff date is not modelled). */
  datatype Summary = Summary(months: nat, totalInterest: real, totalPaid: real)

  function ScenarioSummary(loans: seq<Loan>, monthlyPayment: real): Summary
  {
    var schedule := Amortization(loans, monthlyPayment);
    if |schedule| == 0 then Summary(0, 0.0, 0.0)
    else
      var last := schedule[|schedule| - 1];
      Summary(last.month, last.cumInterest, last.cumInterest + last.cumPrincipal)
  }

  /**
   * The summary's month count is the number of records in the schedule (at
   * most 360), and its totals are the last record's running totals.
   */
  lemma ScenarioSummarySpec(loans: seq<Loan>, monthlyPayment: real)
    ensures ScenarioSummary(loans, monthlyPayment).months == |Amortization(loans, monthlyPayment)| <= 360
    ensures var rows := Amortization(loans, monthlyPayment);
      rows != [] ==> ScenarioSummary(loans, monthlyPayment).totalPaid
                     == rows[|rows| - 1].cumInterest + rows[|rows| - 1].cumPrincipal
    ensures var rows := Amortization(loans, monthlyPayment);
      rows == [] ==> ScenarioSummary(loans, monthlyPayment) == Summary(0, 0.0, 0.0)
    ensures var rows := Amortization(loans, monthlyPayment);
      rows != [] ==> ScenarioSummary(loans, monthlyPayment).totalInterest == rows[|rows| - 1].cumInterest
  {
    AmortizationMonths(loans, monthlyPayment);
  }

  // ---------------------------------------------------------------- the imperative simulator

  /** `order.reduce((s, id) => s + Math.max(0, balances[id]), 0)`. */
  method SumClamped(balances: array<real>) returns (total: real)
    ensures total == TotalOf(balances[..])
  {
    total := 0.0;
    for i := 0 to balances.Length
      invariant total == TotalOf(balances[..i])
    {
      assert balances[..i + 1][..i] == balances[..i];
      total := total + Max(0.0, balances[i]);
    }
    assert balances[..balances.Length] == balances[..];
  }

  /** The month's interest, accrued on every loan with a positive balance. */
  method AccrueInterest(balances: array<real>, rates: seq<real>) returns (totalInterest: real)
    requires balances.Length == |rates|
    ensures totalInterest == InterestOf(balances[..], rates)
  {
    totalInterest := 0.0;
    for i := 0 to balances.Length
      invariant totalInterest == InterestOf(balances[..i], rates[..i])
    {
      assert balances[..i + 1][..i] == balances[..i] && rates[..i + 1][..i] == rates[..i];
      if balances[i] > 0.0 {
        totalInterest := totalInterest + balances[i] * rates[i] / 12.0;
      }
    }
    assert balances[..balances.Length] == balances[..] && rates[..balances.Length] == rates;
  }

  /** The first pass over the loans: the payment pays each loan's accrued interest. */
  method DebitInterest(balances: array<real>, rates: seq<real>, payment: real) returns (remaining: real)
    requires balances.Length == |rates|
    ensures remaining == payment - InterestOf(balances[..], rates)
  {
    remaining := payment;
    for i := 0 to balances.Length
      invariant remaining == payment - InterestOf(balances[..i], rates[..i])
    {
      assert balances[..i + 1][..i] == balances[..i] && rates[..i + 1][..i] == rates[..i];
      if balances[i] > 0.0 {
        var interest := balances[i] * rates[i] / 12.0;
        remaining := remaining - interest;
      }
    }
    assert balances[..balances.Length] == balances[..] && rates[..balances.Length] == rates;
  }

  /** The second pass: principal in avalanche order, each loan absorbing what it can. */
  method PayDown(balances: array<real>, remaining: real)
    modifies balances
    ensures balances[..] == PayPrincipal(old(balances[..]), remaining)
  {
    ghost var init := balances[..];
    var rem := remaining;
    assert balances[..0] == [] && init[0..] == init;
    for i := 0 to balances.Length
      invariant balances[i..] == init[i..]
      invariant PaidFrom(balances[..i], init[i..], rem) == PayPrincipal(init, remaining)
    {
      ghost var prefix, before := balances[..i], rem;
      var b := balances[i];
      if b > 0.0 && rem > 0.0 {
        var pay := Min(b, rem);
        balances[i] := b - pay;
        rem := rem - pay;
      }
      PaidFromStep(prefix, init[i..], before, balances[i], rem);
      assert init[i..][1..] == init[i + 1..];
      assert balances[..i + 1] == prefix + [balances[i]];
    }
    assert balances[..balances.Length] == balances[..];
    assert init[balances.Length..] == [];
  }

  /** The principal pass with the balances of done already handled and those of rest still to come. */
  ghost function PaidFrom(done: seq<real>, rest: seq<real>, remaining: real): seq<real>
  {
    done + PayPrincipal(rest, remaining)
  }

  lemma AppendAssociative<T>(a: seq<T>, b: seq<T>, c: seq<T>)
    ensures a + (b + c) == (a + b) + c
  {
  }

  /** One step of the pass: the first balance of rest paid down, the pass continued on the others. */
  lemma PaidFromStep(done: seq<real>, rest: seq<real>, remaining: real, balance: real, left: real)
    requires rest != []
    requires rest[0] > 0.0 && remaining > 0.0 ==>
      balance == rest[0] - Min(rest[0], remaining) && left == remaining - Min(rest[0], remaining)
    requires !(rest[0] > 0.0 && remaining > 0.0) ==> balance == rest[0] && left == remaining
    ensures PaidFrom(done, rest, remaining) == PaidFrom(done + [balance], rest[1..], left)
  {
    var tail := PayPrincipal(rest[1..], left);
    assert PayPrincipal(rest, remaining) == [balance] + tail;
    AppendAssociative(done, [balance], tail);
  }

  /** `byType`: what is still owed per loan type. */
  method BalancesByType(balances: array<real>, types: seq<string>) returns (gradPlus: real, unsub: real, sub: real)
    requires balances.Length == |types|
    ensures gradPlus == TypeTotal(balances[..], types, "Grad PLUS")
    ensures unsub == TypeTotal(balances[..], types, "Unsubsidized")
    ensures sub == TypeTotal(balances[..], types, "Subsidized")
  {
    gradPlus, unsub, sub := 0.0, 0.0, 0.0;
    for i := 0 to balances.Length
      invariant gradPlus == TypeTotal(balances[..i], types, "Grad PLUS")
      invariant unsub == TypeTotal(balances[..i], types, "Unsubsidized")
      invariant sub == TypeTotal(balances[..i], types, "Subsidized")
    {
      assert balances[..i + 1][..i] == balances[..i];
      var owed := Max(0.0, balances[i]);
      if types[i] == "Grad PLUS" {
        gradPlus := gradPlus + owed;
      } else if types[i] == "Unsubsidized" {
        unsub := unsub + owed;
      } else if types[i] == "Subsidized" {
        sub := sub + owed;
      }
    }
    assert balances[..balances.Length] == balances[..];
  }

  /** `loansRemaining`: loans still owing more than a cent. */
  method CountRemaining(balances: array<real>) returns (count: nat)
    ensures count == CountAbove(balances[..], 0.01)
  {
    count := 0;
    for i := 0 to balances.Length
      invariant count == CountAbove(balances[..i], 0.01)
    {
      assert balances[..i + 1][..i] == balances[..i];
      if balances[i] > 0.01 {
        count := count + 1;
      }
    }
    assert balances[..balances.Length] == balances[..];
  }

  /** `Object.values(balances).reduce((s, b) => s + b, 0)`. */
  method SumAll(balances: array<real>) returns (total: real)
    ensures total == Sum(balances[..])
  {
    total := 0.0;
    for i := 0 to balances.Length
      invariant total == Sum(balances[..i])
    {
      assert balances[..i + 1][..i] == balances[..i];
      total := total + balances[i];
    }
    assert balances[..balances.Length] == balances[..];
  }

  /** One run month unrolled: the step for `month`, followed by the run from its balances. */
  lemma RunUnfold(rates: seq<real>, payment: real, bals: seq<real>, month: nat, cumI: real, cumP: real)
    requires |bals| == |rates| && 1 <= month <= 360 && TotalOf(bals) > 0.01
    ensures var m := Step(rates, payment, bals, month, cumI, cumP);
      Run(rates, payment, bals, month, cumI, cumP) == [m] + Run(rates, payment, m.after, month + 1, m.cumInterest, m.cumPrincipal)
  {
  }

  lemma EmitCons(m: MonthStep, rest: seq<MonthStep>, types: seq<string>, origTotal: real)
    requires origTotal > 0.0
    ensures Emit([m] + rest, types, origTotal) == [EmitRow(m, types, origTotal)] + Emit(rest, types, origTotal)
  {
    assert ([m] + rest)[1..] == rest;
  }

  /** The per-loan dictionaries `balances`, `rates` and `types`, indexed by position in the avalanche order. */
  method LoadLoans(sorted: seq<Loan>) returns (balances: array<real>, rates: seq<real>, types: seq<string>)
    ensures fresh(balances)
    ensures balances[..] == Balances(sorted) && rates == Rates(sorted) && types == Types(sorted)
  {
    var n := |sorted|;
    balances := new real[n];
    var rateArr := new real[n];
    var typeArr := new string[n];
    for i := 0 to n
      invariant forall j | 0 <= j < i :: balances[j] == sorted[j].balance
      invariant forall j | 0 <= j < i :: rateArr[j] == sorted[j].rate / 100.0
      invariant forall j | 0 <= j < i :: typeArr[j] == sorted[j].loanType
    {
      balances[i] := sorted[i].balance;
      rateArr[i] := sorted[i].rate / 100.0;
      typeArr[i] := sorted[i].loanType;
    }
    rates, types := rateArr[..], typeArr[..];
  }

  /**
   * The first half of the month loop's body: interest accrued, the payment
   * capped at what is owed, interest debited and the rest paid down in place.
   */
  method PayMonth(balances: array<real>, rates: seq<real>, monthlyPayment: real, totalBal: real)
    returns (totalInterest: real, actualPayment: real)
    requires balances.Length == |rates|
    requires totalBal == TotalOf(balances[..])
    modifies balances
    ensures var step := Step(rates, monthlyPayment, old(balances[..]), 1, 0.0, 0.0);
      balances[..] == step.after && totalInterest == step.interest && actualPayment == step.payment
  {
    ghost var step := Step(rates, monthlyPayment, balances[..], 1, 0.0, 0.0);
    totalInterest := AccrueInterest(balances, rates);
    actualPayment := Min(monthlyPayment, totalBal + totalInterest);
    var remaining := DebitInterest(balances, rates, actualPayment);
    assert remaining == step.payment - step.interest;
    PayDown(balances, remaining);
  }

  /** The second half: the month's record, read off the paid-down balances. */
  method MonthRecord(balances: array<real>, types: seq<string>, month: nat, payment: real, interest: real,
                     cumInterest: real, cumPrincipal: real, origTotal: real)
    returns (row: Row, newTotal: real)
    requires balances.Length == |types| && origTotal > 0.0
    ensures row == EmitRow(MonthStep(month, [], balances[..], interest, payment, cumInterest, cumPrincipal), types, origTotal)
    ensures newTotal == TotalOf(balances[..])
  {
    newTotal := SumClamped(balances);
    var gradPlus, unsub, sub := BalancesByType(balances, types);
    var loansRemaining := CountRemaining(balances);
    var pctPaid := 1.0 - newTotal / origTotal;
    row := Row(month, Round2(payment), Round2(interest), Round2(payment - interest),
               Round2(newTotal), Round2(cumInterest), Round2(cumPrincipal),
               Round2(gradPlus), Round2(unsub), Round2(sub), loansRemaining, RoundPct(pctPaid));
  }

  /**
   * The body of the month loop once the total is known to exceed a cent: it
   * updates the balances in place and returns the month's record, the new
   * running totals and the new total owed.
   */
  method SimulateMonth(balances: array<real>, rates: seq<real>, types: seq<string>, monthlyPayment: real,
                       month: nat, totalBal: real, cumI: real, cumP: real, origTotal: real)
    returns (row: Row, cumInterest: real, cumPrincipal: real, newTotal: real)
    requires balances.Length == |rates| == |types|
    requires totalBal == TotalOf(balances[..]) && origTotal > 0.0
    modifies balances
    ensures var step := Step(rates, monthlyPayment, old(balances[..]), month, cumI, cumP);
      && balances[..] == step.after
      && cumInterest == step.cumInterest && cumPrincipal == step.cumPrincipal
      && row == EmitRow(step, types, origTotal)
      && newTotal == TotalOf(balances[..])
  {
    var totalInterest, actualPayment := PayMonth(balances, rates, monthlyPayment, totalBal);
    cumInterest := cumI + totalInterest;
    cumPrincipal := cumP + (actualPayment - totalInterest);
    row, newTotal := MonthRecord(balances, types, month, actualPayment, totalInterest, cumInterest, cumPrincipal, origTotal);
  }

  /** The records emitted so far followed by those of the rest of the run. */
  ghost function Pending(done: seq<Row>, rates: seq<real>, payment: real, bals: seq<real>, month: nat,
                         cumI: real, cumP: real, types: seq<string>, origTotal: real): seq<Row>
    requires |bals| == |rates| && 1 <= month <= 361
    requires origTotal > 0.01 || TotalOf(bals) <= 0.01
  {
    done + Emit(Run(rates, payment, bals, month, cumI, cumP), types, origTotal)
  }

  /** Emitting one more month moves its record from the rest of the run onto the schedule. */
  lemma EmitNextMonth(done: seq<Row>, row: Row, rates: seq<real>, payment: real, bals: seq<real>, month: nat,
                      cumI: real, cumP: real, types: seq<string>, origTotal: real)
    requires |bals| == |rates| == |types| && 1 <= month <= 360 && TotalOf(bals) > 0.01 && origTotal > 0.01
    requires row == EmitRow(Step(rates, payment, bals, month, cumI, cumP), types, origTotal)
    ensures var m := Step(rates, payment, bals, month, cumI, cumP);
      Pending(done, rates, payment, bals, month, cumI, cumP, types, origTotal)
      == Pending(done + [row], rates, payment, m.after, month + 1, m.cumInterest, m.cumPrincipal, types, origTotal)
  {
    var m := Step(rates, payment, bals, month, cumI, cumP);
    var rest := Run(rates, payment, m.after, month + 1, m.cumInterest, m.cumPrincipal);
    RunUnfold(rates, payment, bals, month, cumI, cumP);
    EmitCons(m, rest, types, origTotal);
    AppendAssociative(done, [row], Emit(rest, types, origTotal));
  }

  /** Before any month is emitted, everything is still to come. */
  lemma PendingStart(rates: seq<real>, payment: real, bals: seq<real>, types: seq<string>, origTotal: real)
    requires |bals| == |rates| && (origTotal > 0.01 || TotalOf(bals) <= 0.01)
    ensures Pending([], rates, payment, bals, 1, 0.0, 0.0, types, origTotal) == Emit(Run(rates, payment, bals, 1, 0.0, 0.0), types, origTotal)
  {
    assert [] + Emit(Run(rates, payment, bals, 1, 0.0, 0.0), types, origTotal) == Emit(Run(rates, payment, bals, 1, 0.0, 0.0), types, origTotal);
  }

  /** With at most a cent owed, or past month 360, nothing more is emitted. */
  lemma PendingDone(done: seq<Row>, rates: seq<real>, payment: real, bals: seq<real>, month: nat,
                    cumI: real, cumP: real, types: seq<string>, origTotal: real)
    requires |bals| == |rates| && 1 <= month <= 361 && (TotalOf(bals) <= 0.01 || month > 360)
    requires origTotal > 0.01 || TotalOf(bals) <= 0.01
    ensures Pending(done, rates, payment, bals, month, cumI, cumP, types, origTotal) == done
  {
    assert done + [] == done;
  }

  /** One pass of the month loop: the balances updated in place and the month's record appended. */
  method AdvanceMonth(balances: array<real>, rates: seq<real>, types: seq<string>, monthlyPayment: real, month: nat,
                      totalBal: real, cumI: real, cumP: real, origTotal: real, done: seq<Row>, ghost full: seq<Row>)
    returns (schedule: seq<Row>, cumInterest: real, cumPrincipal: real, newTotal: real)
    requires balances.Length == |rates| == |types| && 1 <= month <= 360
    requires totalBal == TotalOf(balances[..]) && totalBal > 0.01 && origTotal > 0.01
    requires Pending(done, rates, monthlyPayment, balances[..], month, cumI, cumP, types, origTotal) == full
    modifies balances
    ensures newTotal == TotalOf(balances[..])
    ensures Pending(schedule, rates, monthlyPayment, balances[..], month + 1, cumInterest, cumPrincipal, types, origTotal) == full
  {
    ghost var bals := balances[..];
    EmitNextMonth(done, EmitRow(Step(rates, monthlyPayment, bals, month, cumI, cumP), types, origTotal),
                  rates, monthlyPayment, bals, month, cumI, cumP, types, origTotal);
    var row;
    row, cumInterest, cumPrincipal, newTotal :=
      SimulateMonth(balances, rates, types, monthlyPayment, month, totalBal, cumI, cumP, origTotal);
    schedule := done + [row];
  }

  /**
   * The month loop: from the loaded balances, emit one record per month until
   * the total owed is at most a cent or 360 months have been simulated.
   */
  method MonthLoop(balances: array<real>, rates: seq<real>, types: seq<string>, monthlyPayment: real, origTotal: real)
    returns (schedule: seq<Row>)
    requires balances.Length == |rates| == |types|
    requires origTotal > 0.01 || TotalOf(balances[..]) <= 0.01
    modifies balances
    ensures schedule == Emit(Run(rates, monthlyPayment, old(balances[..]), 1, 0.0, 0.0), types, origTotal)
  {
    PendingStart(rates, monthlyPayment, balances[..], types, origTotal);
    schedule := EmitMonths(balances, rates, types, monthlyPayment, origTotal,
                           Emit(Run(rates, monthlyPayment, balances[..], 1, 0.0, 0.0), types, origTotal));
  }

  /** The loop itself, emitting exactly the records `full` still pending at month 1. */
  method EmitMonths(balances: array<real>, rates: seq<real>, types: seq<string>, monthlyPayment: real, origTotal: real,
                    ghost full: seq<Row>)
    returns (schedule: seq<Row>)
    requires balances.Length == |rates| == |types|
    requires origTotal > 0.01 || TotalOf(balances[..]) <= 0.01
    requires Pending([], rates, monthlyPayment, balances[..], 1, 0.0, 0.0, types, origTotal) == full
    modifies balances
    ensures schedule == full
  {
    schedule := [];
    var cumInterest, cumPrincipal := 0.0, 0.0;
    var month := 1;
    while month <= 360
      invariant 1 <= month <= 361
      invariant origTotal > 0.01 || TotalOf(balances[..]) <= 0.01
      invariant Pending(schedule, rates, monthlyPayment, balances[..], month, cumInterest, cumPrincipal, types, origTotal) == full
      decreases 361 - month
    {
      var totalBal := SumClamped(balances);
      if totalBal <= 0.01 {
        break;
      }
      var newTotal;
      schedule, cumInterest, cumPrincipal, newTotal :=
        AdvanceMonth(balances, rates, types, monthlyPayment, month, totalBal, cumInterest, cumPrincipal, origTotal, schedule, full);
      month := month + 1;
      if newTotal <= 0.01 {
        break;
      }
    }
    PendingDone(schedule, rates, monthlyPayment, balances[..], month, cumInterest, cumPrincipal, types, origTotal);
  }
  /**
   * `computeAmortization`: the schedule built with the balances held in an
   * array that the month loop updates in place equals the specification.
   */
  method ComputeAmortization(loans: seq<Loan>, monthlyPayment: real) returns (schedule: seq<Row>)
    ensures schedule == Amortization(loans, monthlyPayment)
  {
    if |loans| == 0 || monthlyPayment <= 0.0 {
      return [];
    }
    var sorted := AvalancheOrder(loans);
    var balances, rates, types := LoadLoans(sorted);
    var origTotal := SumAll(balances);
    assert origTotal > 0.01 || TotalOf(balances[..]) <= 0.01 by {
      StartingTotal(loans, monthlyPayment);
      RunStops(rates, monthlyPayment, balances[..], 1, 0.0, 0.0);
    }
    schedule := MonthLoop(balances, rates, types, monthlyPayment, origTotal);
  }
}
