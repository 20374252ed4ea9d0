/**
 * The payment advisor of src/app/advisor/page.js: the per-loan figures it
 * derives from the active loans, and the allocation engine that splits one
 * payment into interest (covered in full, or proportionally when the payment
 * falls short) and principal (highest rate first), then rounds to cents.
 */
module Advisor {
  import opened Money
  import opened Wrappers
  import StableSort
  import Utils

  // ---------------------------------------------------------------- loanData

  /** A loan as the advisor shows it; `monthlyInterest` is balance * rate / 100 / 12. */
  datatype LoanLine = LoanLine(
    loanId: string, loanType: string, balance: real, rate: real,
    monthlyInterest: real, dailyInterest: real)

  function ToLine(l: Utils.Loan): LoanLine
  {
    LoanLine(l.loanId, l.loanType, l.balance, l.rate, l.balance * l.rate / 100.0 / 12.0, l.balance * l.rate / 100.0 / 365.0)
  }

  /** `filter(l => balance > 0).map(...)`: the loans that still owe something, as lines. */
  function OwingLines(loans: seq<Utils.Loan>): (r: seq<LoanLine>)
    ensures |r| <= |loans|
  {
    if loans == [] then []
    else (if loans[0].balance > 0.0 then [ToLine(loans[0])] else []) + OwingLines(loans[1..])
  }

  predicate HigherRate(a: LoanLine, b: LoanLine)
  {
    a.rate > b.rate
  }

  /** `loanData`: the owing loans, highest rate first, equal rates in the order loaded. */
  function LoanData(loans: seq<Utils.Loan>): seq<LoanLine>
  {
    StableSort.Sort(OwingLines(loans), HigherRate)
  }

  lemma {:induction false} OwingLinesSpec(loans: seq<Utils.Loan>)
    ensures forall x | x in OwingLines(loans) :: x.balance > 0.0 && x.monthlyInterest == x.balance * x.rate / 1200.0
    ensures forall l | l in loans && l.balance > 0.0 :: ToLine(l) in OwingLines(loans)
  {
    if loans != [] {
      OwingLinesSpec(loans[1..]);
      assert forall l | l in loans :: l == loans[0] || l in loans[1..];
    }
  }

  /**
   * `loanData` holds one line per loan with a positive balance, each with its
   * monthly interest, ordered by rate descending; loans of equal rate keep
   * their order.
   */
  lemma LoanDataSpec(loans: seq<Utils.Loan>)
    ensures multiset(LoanData(loans)) == multiset(OwingLines(loans))
    ensures forall x | x in LoanData(loans) :: x.balance > 0.0 && x.monthlyInterest == x.balance * x.rate / 1200.0
    ensures forall l | l in loans && l.balance > 0.0 :: ToLine(l) in LoanData(loans)
    ensures forall i, j | 0 <= i < j < |LoanData(loans)| :: LoanData(loans)[i].rate >= LoanData(loans)[j].rate
    ensures forall x :: StableSort.TiedWith(LoanData(loans), x, HigherRate) == StableSort.TiedWith(OwingLines(loans), x, HigherRate)
  {
    var o := OwingLines(loans);
    var r := LoanData(loans);
    OwingLinesSpec(loans);
    assert StableSort.WeakOrderOn(HigherRate, o);
    StableSort.SortSorted(o, HigherRate);
    forall x | x in r ensures x in o {
      assert x in multiset(r);
    }
    forall l | l in loans && l.balance > 0.0 ensures ToLine(l) in r {
      assert ToLine(l) in multiset(o);
    }
    forall x: LoanLine ensures StableSort.TiedWith(r, x, HigherRate) == StableSort.TiedWith(o, x, HigherRate) {
      assert StableSort.WeakOrderOn(HigherRate, o + [x]);
      StableSort.SortStable(o, x, HigherRate);
    }
  }

  // ---------------------------------------------------------------- allocation records

  /** One loan's share of the payment, as the engine builds it up. */
  datatype Allocation = Allocation(
    loanId: string, loanType: string, rate: real, currentBalance: real,
    interestDue: real, principalPayment: real, totalPayment: real,
    newBalance: real, isPaidOff: bool)

  /** The record for a loan before any money is assigned to it. */
  function Fresh(l: LoanLine): Allocation
  {
    Allocation(l.loanId, l.loanType, l.rate, l.balance, l.monthlyInterest, 0.0, 0.0, l.balance, false)
  }

  function Initial(lines: seq<LoanLine>): (r: seq<Allocation>)
    ensures |r| == |lines| && forall i | 0 <= i < |lines| :: r[i] == Fresh(lines[i])
  {
    seq(|lines|, i requires 0 <= i < |lines| => Fresh(lines[i]))
  }

  function InterestDue(a: Allocation): real { a.interestDue }
  function TotalPayment(a: Allocation): real { a.totalPayment }
  function PrincipalPayment(a: Allocation): real { a.principalPayment }
  function NewBalance(a: Allocation): real { a.newBalance }
  function CurrentBalance(a: Allocation): real { a.currentBalance }

  /** `allocs.reduce((s, a) => s + f(a), 0)`. */
  function SumBy(allocs: seq<Allocation>, f: Allocation -> real): real
  {
    if allocs == [] then 0.0 else SumBy(allocs[..|allocs| - 1], f) + f(allocs[|allocs| - 1])
  }

  lemma {:induction false} SumByAppend(a: seq<Allocation>, b: seq<Allocation>, f: Allocation -> real)
    ensures SumBy(a + b, f) == SumBy(a, f) + SumBy(b, f)
    decreases |b|
  {
    if b == [] {
      assert a + b == a;
    } else {
      assert (a + b)[..|a + b| - 1] == a + b[..|b| - 1];
      SumByAppend(a, b[..|b| - 1], f);
    }
  }

  lemma SumByCons(x: Allocation, s: seq<Allocation>, f: Allocation -> real)
    ensures SumBy([x] + s, f) == f(x) + SumBy(s, f)
  {
    SumByAppend([x], s, f);
    assert [x][..0] == [];
  }

  // ---------------------------------------------------------------- step 2: interest

  /** Enough to cover all interest: each loan's payment starts with its interest due. */
  function Cover(a: Allocation): Allocation
  {
    a.(totalPayment := a.totalPayment + a.interestDue)
  }

  /** Too little: each loan gets its proportional share of the payment as interest. */
  function Share(a: Allocation, totalInterest: real, remaining: real): Allocation
  {
    var share := if totalInterest > 0.0 then (a.interestDue / totalInterest) * remaining else 0.0;
    a.(interestDue := share, totalPayment := a.totalPayment + share)
  }

  function CoverAll(allocs: seq<Allocation>): (r: seq<Allocation>)
    ensures |r| == |allocs|
  {
    if allocs == [] then [] else CoverAll(allocs[..|allocs| - 1]) + [Cover(allocs[|allocs| - 1])]
  }

  function ShareAll(allocs: seq<Allocation>, totalInterest: real, remaining: real): (r: seq<Allocation>)
    ensures |r| == |allocs|
  {
    if allocs == [] then []
    else ShareAll(allocs[..|allocs| - 1], totalInterest, remaining) + [Share(allocs[|allocs| - 1], totalInterest, remaining)]
  }

  /** Step 2: the records after the interest pass, and what is left for principal. */
  function InterestPhase(allocs: seq<Allocation>, amount: real): (r: (seq<Allocation>, real))
    ensures |r.0| == |allocs|
  {
    var totalInterest := SumBy(allocs, InterestDue);
    if amount >= totalInterest then (CoverAll(allocs), amount - totalInterest)
    else (ShareAll(allocs, totalInterest, amount), 0.0)
  }

  /** Covering the interest adds exactly the interest due to the amounts paid. */
  lemma {:induction false} CoverAllPays(allocs: seq<Allocation>)
    ensures SumBy(CoverAll(allocs), TotalPayment) == SumBy(allocs, TotalPayment) + SumBy(allocs, InterestDue)
    ensures SumBy(CoverAll(allocs), InterestDue) == SumBy(allocs, InterestDue)
  {
    if allocs != [] {
      var init := allocs[..|allocs| - 1];
      CoverAllPays(init);
      SumByAppend(CoverAll(init), [Cover(allocs[|allocs| - 1])], TotalPayment);
      SumByAppend(CoverAll(init), [Cover(allocs[|allocs| - 1])], InterestDue);
      assert [Cover(allocs[|allocs| - 1])][..0] == [];
    }
  }

  /** The proportional shares are the interest due scaled by remaining / totalInterest, and they are what is paid. */
  lemma ShareAllPays(allocs: seq<Allocation>, totalInterest: real, remaining: real)
    requires totalInterest > 0.0
    ensures SumBy(ShareAll(allocs, totalInterest, remaining), InterestDue) == SumBy(allocs, InterestDue) / totalInterest * remaining
    ensures SumBy(ShareAll(allocs, totalInterest, remaining), TotalPayment)
         == SumBy(allocs, TotalPayment) + SumBy(ShareAll(allocs, totalInterest, remaining), InterestDue)
    ensures forall i | 0 <= i < |allocs| ::
      && ShareAll(allocs, totalInterest, remaining)[i].interestDue == allocs[i].interestDue / totalInterest * remaining
      && ShareAll(allocs, totalInterest, remaining)[i].totalPayment
         == allocs[i].totalPayment + allocs[i].interestDue / totalInterest * remaining
  {
    ShareAllScales(allocs, totalInterest, remaining);
    ShareAllAdds(allocs, totalInterest, remaining);
    forall i | 0 <= i < |allocs| {
      ShareAllAt(allocs, totalInterest, remaining, i);
    }
  }

  lemma {:induction false} ShareAllScales(allocs: seq<Allocation>, totalInterest: real, remaining: real)
    requires totalInterest > 0.0
    ensures SumBy(ShareAll(allocs, totalInterest, remaining), InterestDue) == SumBy(allocs, InterestDue) / totalInterest * remaining
  {
    if allocs != [] {
      var init, last := allocs[..|allocs| - 1], allocs[|allocs| - 1];
      var x := Share(last, totalInterest, remaining);
      var shared := ShareAll(init, totalInterest, remaining);
      ShareAllScales(init, totalInterest, remaining);
      assert ShareAll(allocs, totalInterest, remaining) == shared + [x];
      SumByAppend(shared, [x], InterestDue);
      assert [x][..0] == [];
      var a, b := SumBy(init, InterestDue), last.interestDue;
      assert SumBy(allocs, InterestDue) == a + b;
      assert SumBy(shared, InterestDue) == a / totalInterest * remaining;
      assert x.interestDue == b / totalInterest * remaining;
      ScaleSum(a, b, totalInterest, remaining);
    }
  }

  lemma {:induction false} ShareAllAdds(allocs: seq<Allocation>, totalInterest: real, remaining: real)
    ensures SumBy(ShareAll(allocs, totalInterest, remaining), TotalPayment)
         == SumBy(allocs, TotalPayment) + SumBy(ShareAll(allocs, totalInterest, remaining), InterestDue)
  {
    if allocs != [] {
      var init, last := allocs[..|allocs| - 1], allocs[|allocs| - 1];
      var x := Share(last, totalInterest, remaining);
      ShareAllAdds(init, totalInterest, remaining);
      SumByAppend(ShareAll(init, totalInterest, remaining), [x], TotalPayment);
      SumByAppend(ShareAll(init, totalInterest, remaining), [x], InterestDue);
      assert [x][..0] == [];
    }
  }

  /** Scaling distributes over a sum. */
  lemma ScaleSum(a: real, b: real, t: real, r: real)
    requires t > 0.0
    ensures (a + b) / t * r == a / t * r + b / t * r
  {
  }

  // ---------------------------------------------------------------- step 3: principal

  /** One loan of the principal pass: it absorbs min(remaining, balance). */
  function PayLoan(a: Allocation, remaining: real): Allocation
  {
    var pay := Min(remaining, a.currentBalance);
    var nb := Max(0.0, a.currentBalance - pay);
    a.(principalPayment := pay, totalPayment := a.totalPayment + pay, newBalance := nb, isPaidOff := nb < 0.01)
  }

  /** Step 3: principal in order until the money runs out (the loop breaks once remaining <= 0). */
  function PrincipalPhase(allocs: seq<Allocation>, remaining: real): (r: (seq<Allocation>, real))
    ensures |r.0| == |allocs|
  {
    if allocs == [] || remaining <= 0.0 then (allocs, remaining)
    else
      var pay := Min(remaining, allocs[0].currentBalance);
      var rest := PrincipalPhase(allocs[1..], remaining - pay);
      ([PayLoan(allocs[0], remaining)] + rest.0, rest.1)
  }

  // ---------------------------------------------------------------- rounding and result

  function RoundAllocation(a: Allocation): Allocation
  {
    a.(interestDue := Round2(a.interestDue), principalPayment := Round2(a.principalPayment),
       totalPayment := Round2(a.totalPayment), newBalance := Round2(a.newBalance))
  }

  /** The records the screen lists: those paying more than half a cent. */
  function Reported(allocs: seq<Allocation>): (r: seq<Allocation>)
    ensures forall a | a in r :: a in allocs && a.totalPayment > 0.005
    ensures forall a | a in allocs && a.totalPayment > 0.005 :: a in r
  {
    if allocs == [] then []
    else (if allocs[0].totalPayment > 0.005 then [allocs[0]] else []) + Reported(allocs[1..])
  }

  function PaidOff(allocs: seq<Allocation>): (r: seq<Allocation>)
    ensures forall a | a in r :: a in allocs && a.isPaidOff
    ensures forall a | a in allocs && a.isPaidOff :: a in r
  {
    if allocs == [] then [] else (if allocs[0].isPaidOff then [allocs[0]] else []) + PaidOff(allocs[1..])
  }

  datatype AllocationResult = AllocationResult(
    allocations: seq<Allocation>, totalPrincipal: real, totalInterestPaid: real,
    loansPaidOff: seq<Allocation>, newTotalBalance: real, leftover: real)

  /** The records after both passes, before rounding, and the money left over. */
  function Unrounded(lines: seq<LoanLine>, amount: real): (seq<Allocation>, real)
  {
    var interest := InterestPhase(Initial(lines), amount);
    PrincipalPhase(interest.0, interest.1)
  }

  function Summarize(allocs: seq<Allocation>, remaining: real): AllocationResult
  {
    var rounded := seq(|allocs|, i requires 0 <= i < |allocs| => RoundAllocation(allocs[i]));
    AllocationResult(
      Reported(rounded),
      Round2(SumBy(rounded, PrincipalPayment)),
      Round2(SumBy(rounded, InterestDue)),
      PaidOff(rounded),
      Round2(SumBy(rounded, NewBalance)),
      Round2(remaining))
  }

  /**
   * The allocation engine: nothing for a non-positive amount or when no loan
   * owes anything; otherwise the rounded records and totals.
   */
  function Allocate(lines: seq<LoanLine>, amount: real): Option<AllocationResult>
  {
    if amount <= 0.0 || |lines| == 0 then None
    else
      var u := Unrounded(lines, amount);
      Some(Summarize(u.0, u.1))
  }

  // ---------------------------------------------------------------- properties

  /** The principal pass only moves money from what remains onto the loans. */
  lemma {:induction false} PrincipalPhasePays(allocs: seq<Allocation>, remaining: real)
    ensures SumBy(PrincipalPhase(allocs, remaining).0, TotalPayment) + PrincipalPhase(allocs, remaining).1
         == SumBy(allocs, TotalPayment) + remaining
  {
    if allocs != [] && remaining > 0.0 {
      var a := allocs[0];
      var pay := Min(remaining, a.currentBalance);
      var rest := PrincipalPhase(allocs[1..], remaining - pay);
      assert PrincipalPhase(allocs, remaining) == ([PayLoan(a, remaining)] + rest.0, rest.1);
      PrincipalPhasePays(allocs[1..], remaining - pay);
      SumByCons(PayLoan(a, remaining), rest.0, TotalPayment);
      assert allocs == [a] + allocs[1..];
      SumByCons(a, allocs[1..], TotalPayment);
    }
  }

  /** Records the principal pass has not reached yet. */
  predicate Untouched(allocs: seq<Allocation>)
  {
    forall i | 0 <= i < |allocs| :: allocs[i].principalPayment == 0.0 && allocs[i].newBalance == allocs[i].currentBalance
  }

  /**
   * From records it has not touched and a non-negative amount, the principal
   * pass leaves every loan with new balance = balance - principal, and a
   * principal between 0 and the balance.
   */
  lemma {:induction false} PrincipalPhaseBalances(allocs: seq<Allocation>, remaining: real, i: nat)
    requires Untouched(allocs) && remaining >= 0.0 && i < |allocs|
    requires forall k | 0 <= k < |allocs| :: allocs[k].currentBalance > 0.0
    ensures var x := PrincipalPhase(allocs, remaining).0[i];
      && x.currentBalance == allocs[i].currentBalance
      && x.newBalance == x.currentBalance - x.principalPayment
      && 0.0 <= x.principalPayment <= x.currentBalance
  {
    if remaining > 0.0 && i > 0 {
      var pay := Min(remaining, allocs[0].currentBalance);
      PrincipalPhaseBalances(allocs[1..], remaining - pay, i - 1);
    }
  }

  /** Avalanche: a loan that receives principal has every loan before it paid off. */
  lemma {:induction false} PrincipalPhaseAvalanche(allocs: seq<Allocation>, remaining: real, j: nat)
    requires Untouched(allocs) && j < |allocs|
    requires PrincipalPhase(allocs, remaining).0[j].principalPayment > 0.0
    ensures forall i | 0 <= i < j :: PrincipalPhase(allocs, remaining).0[i].newBalance == 0.0
                                  && PrincipalPhase(allocs, remaining).0[i].isPaidOff
  {
    if j > 0 {
      var a := allocs[0];
      var pay := Min(remaining, a.currentBalance);
      var rest := PrincipalPhase(allocs[1..], remaining - pay);
      var r := PrincipalPhase(allocs, remaining);
      assert r.0 == [PayLoan(a, remaining)] + rest.0;
      assert rest.0[j - 1] == r.0[j];
      PrincipalPhaseAvalanche(allocs[1..], remaining - pay, j - 1);
      forall i | 1 <= i < j ensures r.0[i] == rest.0[i - 1] {
      }
    }
  }

  /**
   * Money is left over only when every loan is paid off, and then it is what
   * remained less all the balances.
   */
  lemma {:induction false} PrincipalPhaseLeftover(allocs: seq<Allocation>, remaining: real)
    requires PrincipalPhase(allocs, remaining).1 > 0.0
    ensures forall i | 0 <= i < |allocs| :: PrincipalPhase(allocs, remaining).0[i].newBalance == 0.0
                                         && PrincipalPhase(allocs, remaining).0[i].isPaidOff
    ensures PrincipalPhase(allocs, remaining).1 == remaining - SumBy(allocs, CurrentBalance)
  {
    if allocs != [] {
      var a := allocs[0];
      var pay := Min(remaining, a.currentBalance);
      var rest := PrincipalPhase(allocs[1..], remaining - pay);
      var r := PrincipalPhase(allocs, remaining);
      assert r == ([PayLoan(a, remaining)] + rest.0, rest.1);
      PrincipalPhaseLeftover(allocs[1..], remaining - pay);
      forall i | 1 <= i < |allocs| ensures r.0[i] == rest.0[i - 1] {
      }
      assert allocs == [a] + allocs[1..];
      SumByCons(a, allocs[1..], CurrentBalance);
    }
  }

  /** The interest pass on a positive amount moves all of it onto the loans or leaves it for principal. */
  lemma InterestPhasePays(allocs: seq<Allocation>, amount: real)
    requires amount > 0.0
    ensures SumBy(InterestPhase(allocs, amount).0, TotalPayment) + InterestPhase(allocs, amount).1
         == SumBy(allocs, TotalPayment) + amount
  {
    var t := SumBy(allocs, InterestDue);
    if amount >= t {
      CoverAllPays(allocs);
    } else {
      ShareAllPays(allocs, t, amount);
      assert t / t == 1.0;
    }
  }

  /**
   * Conservation: before rounding, what the loans receive plus what is left
   * over is exactly the amount entered.
   */
  lemma AllocationConserves(lines: seq<LoanLine>, amount: real)
    requires amount > 0.0
    ensures SumBy(Unrounded(lines, amount).0, TotalPayment) + Unrounded(lines, amount).1 == amount
    ensures forall i | 0 <= i < |lines| ::
      Unrounded(lines, amount).0[i].totalPayment
      == Unrounded(lines, amount).0[i].interestDue + Unrounded(lines, amount).0[i].principalPayment
  {
    var init := Initial(lines);
    ZeroSum(init, TotalPayment);
    InterestPhasePays(init, amount);
    var mid := InterestPhase(init, amount);
    PrincipalPhasePays(mid.0, mid.1);
    forall i | 0 <= i < |lines| {
      AllocationLine(lines, amount, i);
    }
  }

  lemma {:induction false} ZeroSum(allocs: seq<Allocation>, f: Allocation -> real)
    requires forall i | 0 <= i < |allocs| :: f(allocs[i]) == 0.0
    ensures SumBy(allocs, f) == 0.0
  {
    if allocs != [] {
      ZeroSum(allocs[..|allocs| - 1], f);
    }
  }

  /**
   * A payment below the month's total interest is spread over the loans in
   * proportion to their interest due: the shares add up to the payment,
   * nothing goes to principal and nothing is left over.
   */
  lemma InterestShortfall(allocs: seq<Allocation>, amount: real)
    requires 0.0 < amount < SumBy(allocs, InterestDue)
    ensures var r := InterestPhase(allocs, amount);
      && SumBy(r.0, InterestDue) == amount && r.1 == 0.0
      && PrincipalPhase(r.0, r.1) == r
      && forall i | 0 <= i < |allocs| :: r.0[i].principalPayment == allocs[i].principalPayment
  {
    var t := SumBy(allocs, InterestDue);
    assert t > amount;
    var r := InterestPhase(allocs, amount);
    assert r == (ShareAll(allocs, t, amount), 0.0);
    ShareAllPays(allocs, t, amount);
    DivideSelf(t, amount);
    ShareAllKeepsPrincipal(allocs, t, amount);
  }

  lemma DivideSelf(t: real, x: real)
    requires t > 0.0
    ensures t / t * x == x
  {
    assert t / t == 1.0;
  }

  /**
   * A payment that covers the interest leaves every loan's interest due as it
   * was, adds it to that loan's payment, and leaves the rest for principal.
   */
  lemma InterestCovered(allocs: seq<Allocation>, amount: real)
    requires amount >= SumBy(allocs, InterestDue)
    ensures var r := InterestPhase(allocs, amount);
      SumBy(r.0, InterestDue) == SumBy(allocs, InterestDue) && r.1 == amount - SumBy(allocs, InterestDue)
    ensures var r := InterestPhase(allocs, amount);
      forall i | 0 <= i < |allocs| ::
        r.0[i].interestDue == allocs[i].interestDue && r.0[i].totalPayment == allocs[i].totalPayment + allocs[i].interestDue
  {
    CoverAllPays(allocs);
    forall i | 0 <= i < |allocs| {
      CoverAllAt(allocs, i);
    }
  }

  /** The two cases of the interest pass for the engine's own starting records. */
  lemma AllocationShortfall(lines: seq<LoanLine>, amount: real)
    requires amount > 0.0
    ensures var t := SumBy(Initial(lines), InterestDue);
      var u := Unrounded(lines, amount);
      && (amount < t ==> SumBy(u.0, InterestDue) == amount && u.1 == 0.0
                         && forall i | 0 <= i < |u.0| :: u.0[i].principalPayment == 0.0)
      && (amount >= t ==> SumBy(InterestPhase(Initial(lines), amount).0, InterestDue) == t)
  {
    var init := Initial(lines);
    if amount < SumBy(init, InterestDue) {
      InterestShortfall(init, amount);
    } else {
      InterestCovered(init, amount);
    }
  }

  lemma {:induction false} ShareAllKeepsPrincipal(allocs: seq<Allocation>, totalInterest: real, remaining: real)
    ensures forall i | 0 <= i < |allocs| :: ShareAll(allocs, totalInterest, remaining)[i].principalPayment == allocs[i].principalPayment
  {
    if allocs != [] {
      ShareAllKeepsPrincipal(allocs[..|allocs| - 1], totalInterest, remaining);
    }
  }

  /**
   * The listed records are exactly the rounded records paying more than half
   * a cent, which are those whose exact payment is at least half a cent.
   */
  lemma SummarizeReports(allocs: seq<Allocation>, remaining: real)
    ensures var r := Summarize(allocs, remaining);
      && (forall a | a in r.allocations :: a.totalPayment > 0.005)
      && (forall i | 0 <= i < |allocs| && allocs[i].totalPayment >= 0.005 :: RoundAllocation(allocs[i]) in r.allocations)
      && (forall i | 0 <= i < |allocs| && allocs[i].totalPayment < 0.005 :: RoundAllocation(allocs[i]) !in r.allocations)
      && r.leftover == Round2(remaining)
  {
    var rounded := seq(|allocs|, i requires 0 <= i < |allocs| => RoundAllocation(allocs[i]));
    var listed := Reported(rounded);
    assert Summarize(allocs, remaining).allocations == listed;
    forall i | 0 <= i < |allocs|
      ensures allocs[i].totalPayment >= 0.005 ==> RoundAllocation(allocs[i]) in listed
      ensures allocs[i].totalPayment < 0.005 ==> RoundAllocation(allocs[i]) !in listed
    {
      Round2AboveHalfCent(allocs[i].totalPayment);
      assert rounded[i] == RoundAllocation(allocs[i]);
    }
  }

  /** The result exists exactly for a positive amount and at least one owing loan. */
  lemma AllocateReports(lines: seq<LoanLine>, amount: real)
    ensures Allocate(lines, amount).Some? <==> amount > 0.0 && |lines| > 0
    ensures Allocate(lines, amount).Some? ==>
      var u := Unrounded(lines, amount);
      var r := Allocate(lines, amount).value;
      && (forall a | a in r.allocations :: a.totalPayment > 0.005)
      && (forall i | 0 <= i < |u.0| && u.0[i].totalPayment >= 0.005 :: RoundAllocation(u.0[i]) in r.allocations)
      && r.leftover == Round2(u.1)
  {
    if amount > 0.0 && |lines| > 0 {
      var u := Unrounded(lines, amount);
      SummarizeReports(u.0, u.1);
    }
  }

  lemma {:induction false} CoverAllAt(allocs: seq<Allocation>, i: nat)
    requires i < |allocs|
    ensures CoverAll(allocs)[i] == Cover(allocs[i])
  {
    if i < |allocs| - 1 {
      CoverAllAt(allocs[..|allocs| - 1], i);
    }
  }

  lemma {:induction false} ShareAllAt(allocs: seq<Allocation>, totalInterest: real, remaining: real, i: nat)
    requires i < |allocs|
    ensures ShareAll(allocs, totalInterest, remaining)[i] == Share(allocs[i], totalInterest, remaining)
  {
    if i < |allocs| - 1 {
      ShareAllAt(allocs[..|allocs| - 1], totalInterest, remaining, i);
    }
  }

  /** The interest pass touches neither balances nor principal, and leaves a non-negative remainder. */
  lemma InterestPhaseKeepsBalances(lines: seq<LoanLine>, amount: real)
    requires amount > 0.0
    ensures var r := InterestPhase(Initial(lines), amount);
      && Untouched(r.0) && r.1 >= 0.0
      && forall i | 0 <= i < |lines| :: r.0[i].currentBalance == lines[i].balance
  {
    var init := Initial(lines);
    var t := SumBy(init, InterestDue);
    var r := InterestPhase(init, amount);
    forall i | 0 <= i < |lines|
      ensures r.0[i].principalPayment == 0.0 && r.0[i].newBalance == r.0[i].currentBalance == lines[i].balance
    {
      if amount >= t {
        CoverAllAt(init, i);
      } else {
        ShareAllAt(init, t, amount, i);
      }
    }
  }

  /**
   * For owing loans, each record's new balance is its balance less the
   * principal it receives, and that principal lies between 0 and the balance.
   */
  lemma AllocationBalances(lines: seq<LoanLine>, amount: real, i: nat)
    requires amount > 0.0 && i < |lines|
    requires forall k | 0 <= k < |lines| :: lines[k].balance > 0.0
    ensures var x := Unrounded(lines, amount).0[i];
      && x.currentBalance == lines[i].balance
      && x.newBalance == lines[i].balance - x.principalPayment
      && 0.0 <= x.principalPayment <= lines[i].balance
    ensures var x := Unrounded(lines, amount).0[i];
      && (x.principalPayment == 0.0 ==> x.newBalance == lines[i].balance && !x.isPaidOff)
      && (x.principalPayment > 0.0 ==> (x.isPaidOff <==> x.newBalance < 0.01))
  {
    var r := InterestPhase(Initial(lines), amount);
    InterestPhaseKeepsBalances(lines, amount);
    PrincipalPhaseBalances(r.0, r.1, i);
    AllocationLine(lines, amount, i);
  }

  /** A record about to enter the principal pass: its payment so far is its interest, and nothing else has moved. */
  predicate Ready(a: Allocation)
  {
    a.totalPayment == a.interestDue && a.principalPayment == 0.0 && a.newBalance == a.currentBalance && !a.isPaidOff
  }

  /** Every record leaves the interest pass ready for the principal pass. */
  lemma InterestPhaseReady(lines: seq<LoanLine>, amount: real)
    ensures var r := InterestPhase(Initial(lines), amount);
      forall i | 0 <= i < |lines| :: Ready(r.0[i]) && r.0[i].currentBalance == lines[i].balance
  {
    var init := Initial(lines);
    var t := SumBy(init, InterestDue);
    forall i | 0 <= i < |lines|
      ensures Ready(InterestPhase(init, amount).0[i]) && InterestPhase(init, amount).0[i].currentBalance == lines[i].balance
    {
      if amount >= t {
        CoverAllAt(init, i);
      } else {
        ShareAllAt(init, t, amount, i);
      }
    }
  }

  /**
   * The principal pass, one record at a time: a record's payment is its
   * interest plus its principal; a record that receives principal is paid
   * off exactly when less than a cent remains; an owing record that receives
   * none is left as it was.
   */
  lemma {:induction false} PrincipalPhaseLine(allocs: seq<Allocation>, remaining: real, i: nat)
    requires i < |allocs| && forall k | 0 <= k < |allocs| :: Ready(allocs[k])
    ensures var x := PrincipalPhase(allocs, remaining).0[i];
      && x.totalPayment == x.interestDue + x.principalPayment
      && (x.principalPayment > 0.0 ==> (x.isPaidOff <==> x.newBalance < 0.01))
      && (allocs[i].currentBalance > 0.0 && x.principalPayment == 0.0 ==> x == allocs[i])
    decreases i
  {
    if allocs != [] && remaining > 0.0 {
      var pay := Min(remaining, allocs[0].currentBalance);
      var rest := PrincipalPhase(allocs[1..], remaining - pay);
      assert PrincipalPhase(allocs, remaining).0 == [PayLoan(allocs[0], remaining)] + rest.0;
      if i > 0 {
        PrincipalPhaseLine(allocs[1..], remaining - pay, i - 1);
      }
    }
  }

  /**
   * Each loan's record after both passes: its payment is its interest plus
   * its principal; with principal it is paid off exactly when less than a
   * cent remains; an owing loan without principal keeps its balance and is
   * not paid off.
   */
  lemma AllocationLine(lines: seq<LoanLine>, amount: real, i: nat)
    requires i < |lines|
    ensures var x := Unrounded(lines, amount).0[i];
      && x.totalPayment == x.interestDue + x.principalPayment
      && (x.principalPayment > 0.0 ==> (x.isPaidOff <==> x.newBalance < 0.01))
      && (lines[i].balance > 0.0 && x.principalPayment == 0.0 ==> x.newBalance == lines[i].balance && !x.isPaidOff)
  {
    var r := InterestPhase(Initial(lines), amount);
    InterestPhaseReady(lines, amount);
    PrincipalPhaseLine(r.0, r.1, i);
  }

  /** Avalanche: a loan that receives principal has every higher-rate loan paid off. */
  lemma AllocationAvalanche(lines: seq<LoanLine>, amount: real, j: nat)
    requires amount > 0.0 && j < |lines|
    requires Unrounded(lines, amount).0[j].principalPayment > 0.0
    ensures forall i | 0 <= i < j :: Unrounded(lines, amount).0[i].newBalance == 0.0
                                  && Unrounded(lines, amount).0[i].isPaidOff
  {
    var r := InterestPhase(Initial(lines), amount);
    InterestPhaseKeepsBalances(lines, amount);
    PrincipalPhaseAvalanche(r.0, r.1, j);
  }

  /**
   * Money is left over only when every loan is paid off, and it is then the
   * amount less all interest and all balances.
   */
  lemma AllocationLeftover(lines: seq<LoanLine>, amount: real)
    requires Unrounded(lines, amount).1 > 0.0
    ensures forall i | 0 <= i < |lines| :: Unrounded(lines, amount).0[i].isPaidOff
    ensures Unrounded(lines, amount).1
         == amount - SumBy(Initial(lines), InterestDue) - SumBy(Initial(lines), CurrentBalance)
  {
    var init := Initial(lines);
    var r := InterestPhase(init, amount);
    PrincipalPhaseLeftover(r.0, r.1);
    assert r.1 > 0.0;
    assert r.0 == CoverAll(init);
    forall i | 0 <= i < |lines| ensures r.0[i].currentBalance == init[i].currentBalance {
      CoverAllAt(init, i);
    }
    SameSum(r.0, init, CurrentBalance);
  }

  lemma {:induction false} SameSum(a: seq<Allocation>, b: seq<Allocation>, f: Allocation -> real)
    requires |a| == |b| && forall i | 0 <= i < |a| :: f(a[i]) == f(b[i])
    ensures SumBy(a, f) == SumBy(b, f)
  {
    if a != [] {
      SameSum(a[..|a| - 1], b[..|b| - 1], f);
    }
  }

  // ---------------------------------------------------------------- the imperative engine

  /** The full-coverage branch of step 2, in place: returns the interest it took from the payment. */
  method CoverInterest(alloc: array<Allocation>) returns (paid: real)
    modifies alloc
    ensures alloc[..] == CoverAll(old(alloc[..]))
    ensures paid == SumBy(old(alloc[..]), InterestDue)
  {
    ghost var init := alloc[..];
    paid := 0.0;
    for i := 0 to alloc.Length
      invariant alloc[..i] == CoverAll(init[..i]) && alloc[i..] == init[i..]
      invariant paid == SumBy(init[..i], InterestDue)
    {
      assert init[..i + 1][..i] == init[..i];
      alloc[i] := alloc[i].(totalPayment := alloc[i].totalPayment + alloc[i].interestDue);
      paid := paid + alloc[i].interestDue;
      assert alloc[..i + 1] == alloc[..i] + [alloc[i]];
    }
    assert init[..alloc.Length] == init && alloc[..alloc.Length] == alloc[..];
  }

  /** The proportional branch of step 2, in place. */
  method ShareInterest(alloc: array<Allocation>, totalInterest: real, remaining: real)
    modifies alloc
    ensures alloc[..] == ShareAll(old(alloc[..]), totalInterest, remaining)
  {
    ghost var init := alloc[..];
    for i := 0 to alloc.Length
      invariant alloc[..i] == ShareAll(init[..i], totalInterest, remaining) && alloc[i..] == init[i..]
    {
      assert init[..i + 1][..i] == init[..i];
      var a := alloc[i];
      assert a == init[i];
      var share := if totalInterest > 0.0 then (a.interestDue / totalInterest) * remaining else 0.0;
      alloc[i] := a.(interestDue := share, totalPayment := a.totalPayment + share);
      assert alloc[i] == Share(init[i], totalInterest, remaining);
      assert alloc[..i + 1] == alloc[..i] + [alloc[i]];
    }
    assert init[..alloc.Length] == init && alloc[..alloc.Length] == alloc[..];
  }

  /** Step 3 in place: principal in order, stopping once nothing remains. */
  method PayPrincipal(alloc: array<Allocation>, remaining: real) returns (left: real)
    modifies alloc
    ensures (alloc[..], left) == PrincipalPhase(old(alloc[..]), remaining)
  {
    ghost var init := alloc[..];
    left := remaining;
    var i := 0;
    assert init[0..] == init && alloc[..0] == [];
    ResumeStart(init, left);
    while i < alloc.Length
      invariant 0 <= i <= alloc.Length
      invariant alloc[i..] == init[i..]
      invariant PrincipalPhase(init, remaining) == Resume(alloc[..i], init[i..], left)
    {
      if left <= 0.0 {
        break;
      }
      ghost var prefix, before := alloc[..i], left;
      var a := alloc[i];
      var principalPay := Min(left, a.currentBalance);
      var newBalance := Max(0.0, a.currentBalance - principalPay);
      alloc[i] := a.(principalPayment := principalPay, totalPayment := a.totalPayment + principalPay,
                     newBalance := newBalance, isPaidOff := newBalance < 0.01);
      left := left - principalPay;
      ResumeStep(prefix, init[i..], before);
      assert init[i..][1..] == init[i + 1..];
      assert alloc[..i + 1] == prefix + [PayLoan(a, before)];
      i := i + 1;
    }
    ResumeDone(alloc[..i], init[i..], left);
    assert alloc[..i] + alloc[i..] == alloc[..];
  }

  /** The principal phase with the records of done already handled and those of rest still to come. */
  ghost function Resume(done: seq<Allocation>, rest: seq<Allocation>, remaining: real): (seq<Allocation>, real)
  {
    (done + PrincipalPhase(rest, remaining).0, PrincipalPhase(rest, remaining).1)
  }

  /** One step of the principal loop: the first record paid, the phase continued on the rest. */
  lemma ResumeStep(done: seq<Allocation>, rest: seq<Allocation>, remaining: real)
    requires rest != [] && remaining > 0.0
    ensures Resume(done, rest, remaining)
         == Resume(done + [PayLoan(rest[0], remaining)], rest[1..], remaining - Min(remaining, rest[0].currentBalance))
  {
    var tail := PrincipalPhase(rest[1..], remaining - Min(remaining, rest[0].currentBalance));
    assert PrincipalPhase(rest, remaining) == ([PayLoan(rest[0], remaining)] + tail.0, tail.1);
    assert done + ([PayLoan(rest[0], remaining)] + tail.0) == (done + [PayLoan(rest[0], remaining)]) + tail.0;
  }

  /** Before the loop nothing is done. */
  lemma ResumeStart(rest: seq<Allocation>, remaining: real)
    ensures Resume([], rest, remaining) == PrincipalPhase(rest, remaining)
  {
    assert [] + PrincipalPhase(rest, remaining).0 == PrincipalPhase(rest, remaining).0;
  }

  /** The loop ends with nothing left to pay or no record left: the rest stays as it is. */
  lemma ResumeDone(done: seq<Allocation>, rest: seq<Allocation>, remaining: real)
    requires rest == [] || remaining <= 0.0
    ensures Resume(done, rest, remaining) == (done + rest, remaining)
  {
  }

  /** Every amount of every record rounded to cents, in place. */
  method RoundAll(alloc: array<Allocation>)
    modifies alloc
    ensures alloc[..] == seq(alloc.Length, i requires 0 <= i < alloc.Length => RoundAllocation(old(alloc[i])))
  {
    for k := 0 to alloc.Length
      invariant forall j | 0 <= j < k :: alloc[j] == RoundAllocation(old(alloc[j]))
      invariant forall j | k <= j < alloc.Length :: alloc[j] == old(alloc[j])
    {
      var a := alloc[k];
      alloc[k] := a.(interestDue := Round2(a.interestDue), principalPayment := Round2(a.principalPayment),
                     totalPayment := Round2(a.totalPayment), newBalance := Round2(a.newBalance));
    }
  }

  /**
   * The `allocation` memo: the records live in an array whose entries the
   * three passes update in place; the result equals `Allocate`.
   */
  method ComputeAllocation(lines: seq<LoanLine>, amount: real) returns (result: Option<AllocationResult>)
    ensures result == Allocate(lines, amount)
  {
    if amount <= 0.0 || |lines| == 0 {
      return None;
    }
    var n := |lines|;
    var alloc := new Allocation[n](i requires 0 <= i < n => Fresh(lines[i]));
    assert alloc[..] == Initial(lines);

    var remaining := amount;
    var totalInterest := SumBy(alloc[..], InterestDue);
    if remaining >= totalInterest {
      var paid := CoverInterest(alloc);
      remaining := remaining - paid;
    } else {
      ShareInterest(alloc, totalInterest, remaining);
      remaining := 0.0;
    }
    assert (alloc[..], remaining) == InterestPhase(Initial(lines), amount);

    remaining := PayPrincipal(alloc, remaining);
    ghost var unrounded := alloc[..];
    assert (unrounded, remaining) == Unrounded(lines, amount);

    RoundAll(alloc);
    var rounded := alloc[..];
    assert rounded == seq(n, j requires 0 <= j < n => RoundAllocation(unrounded[j]));
    result := Some(AllocationResult(
      Reported(rounded),
      Round2(SumBy(rounded, PrincipalPayment)),
      Round2(SumBy(rounded, InterestDue)),
      PaidOff(rounded),
      Round2(SumBy(rounded, NewBalance)),
      Round2(remaining)));
  }
}
