/** The payments on a bill or credit note and the lines of the bank statements are made apart from
    each other, from the same card and balance payments: their amounts agree. */
module StatementsMatch {
  import opened Basics
  import opened NumberConversion
  import opened Documents
  import opened Ledgers
  import opened XeroEntities
  import opened ExpenseExport
  import BankFeeds

  lemma {:induction false} ZeroAddsNothing(xs: seq<real>, ys: seq<real>)
    ensures SumAmounts(xs + [0.0] + ys) == SumAmounts(xs + ys)
  {
    SumMyriadthsConcat(xs + [0.0], ys);
    SumMyriadthsConcat(xs, [0.0]);
    SumMyriadthsConcat(xs, ys);
    assert [0.0][1..] == [];
    MyriadthsAreRounded(0.0);
  }

  lemma {:induction false} CardSums(amount: real, fx: real, pos: real)
    ensures SumAmounts([amount, fx, 0.0, pos]) == SumAmounts([amount, fx, pos])
  {
    ZeroAddsNothing([amount, fx], [pos]);
    assert [amount, fx] + [0.0] + [pos] == [amount, fx, 0.0, pos];
    assert [amount, fx] + [pos] == [amount, fx, pos];
  }

  lemma {:induction false} BalanceSums(amount: real, bank: real)
    ensures SumAmounts([amount, 0.0, bank, 0.0]) == SumAmounts([amount, bank])
  {
    ZeroAddsNothing([amount], [bank, 0.0]);
    ZeroAddsNothing([amount, bank], []);
    assert [amount] + [0.0] + [bank, 0.0] == [amount, 0.0, bank, 0.0];
    assert [amount] + [bank, 0.0] == [amount, bank] + [0.0] + [];
    assert [amount, bank] + [] == [amount, bank];
  }

  /** Settled purchases: the bill's payments are those of the statements, one by one. */
  lemma {:induction false} PurchasesMatch(e: Expense, c: Context, b: NewBill, infos: seq<PaymentInfo>)
    requires PlanOf(e, c) == Ok(BillPlan(b)) && ShowsPayments(infos, b.payments, false)
    requires e.transactions != [] && forall t <- e.transactions :: t.settlementDate.Some? && t.cardAmount > 0.0
    ensures |infos| >= |e.transactions|
    ensures forall i :: 0 <= i < |e.transactions| ==> infos[i].amount == BankFeeds.CardStatementAmount(e.transactions[i])
  {
    PlanMeaning(e, c);
    forall i | 0 <= i < |e.transactions|
      ensures infos[i].amount == BankFeeds.CardStatementAmount(e.transactions[i])
    {
      var t := e.transactions[i];
      assert b.payments[..CardPaymentCount(e.transactions)][i] == b.payments[i];
      CardSums(t.cardAmount, t.fxFee, t.posFee);
    }
  }

  /** Settled refunds: the same for a credit note, whose payments have no sign. */
  lemma {:induction false} RefundsMatchStatements(e: Expense, c: Context, n: NewCreditNote, infos: seq<PaymentInfo>)
    requires PlanOf(e, c) == Ok(CreditNotePlan(n)) && ShowsPayments(infos, n.payments, true)
    requires e.transactions != [] && forall t <- e.transactions :: t.settlementDate.Some? && t.cardAmount < 0.0
    ensures |infos| == |e.transactions|
    ensures forall i :: 0 <= i < |infos| ==> infos[i].amount == Abs(BankFeeds.CardStatementAmount(e.transactions[i]))
  {
    PlanMeaning(e, c);
    forall i | 0 <= i < |infos|
      ensures infos[i].amount == Abs(BankFeeds.CardStatementAmount(e.transactions[i]))
    {
      var t := e.transactions[i];
      CardSums(t.cardAmount, t.fxFee, t.posFee);
    }
  }

  /** One settled balance payment: for this expense alone, the bill is paid what the statement says,
      fees included; for several expenses, it is paid its own total. */
  lemma {:induction false} BalancePaymentMatches(e: Expense, c: Context, b: NewBill, infos: seq<PaymentInfo>, k: nat)
    requires PlanOf(e, c) == Ok(BillPlan(b)) && ShowsPayments(infos, b.payments, false)
    requires e.transactions == [] && e.isPaid && e.sourceType == Some(Balance) && e.hasSource
    requires IsOnlySettled(e.balancePayments, k) && e.balancePayments[k].currency == e.currency
    ensures var p := e.balancePayments[k];
            && |infos| == 1 && p.amount >= e.total
            && infos[0].date == p.date && infos[0].account == c.bankAccountOf(p.currency)
            && infos[0].amount == if p.amount == e.total then BankFeeds.BalanceStatementAmount(p) else SumAmounts([e.total])
  {
    PlanMeaning(e, c);
    var p := e.balancePayments[k];
    assert b.payments[0..] == b.payments;
    BalanceSums(p.amount, p.fees);
    BalanceSums(e.total, 0.0);
    ZeroAddsNothing([e.total], []);
    assert [e.total] + [0.0] + [] == [e.total, 0.0] && [e.total] + [] == [e.total];
  }

  /** In whole cents these amounts are exact. */
  lemma {:induction false} BalancePaymentInCents(e: Expense, c: Context, b: NewBill, infos: seq<PaymentInfo>, k: nat)
    requires PlanOf(e, c) == Ok(BillPlan(b)) && ShowsPayments(infos, b.payments, false)
    requires e.transactions == [] && e.isPaid && e.sourceType == Some(Balance) && e.hasSource
    requires IsOnlySettled(e.balancePayments, k) && e.balancePayments[k].currency == e.currency
    requires WholeCents(e.total) && WholeCents(e.balancePayments[k].fees)
    ensures var p := e.balancePayments[k];
            |infos| == 1 && infos[0].amount == if p.amount == e.total then p.amount + p.fees else e.total
  {
    var p := e.balancePayments[k];
    BalancePaymentMatches(e, c, b, infos, k);
    SumAmountsExactOnCents([e.total]);
    assert Sum([e.total]) == e.total + Sum([]);
    if p.amount == e.total {
      SumAmountsExactOnCents([p.amount, p.fees]);
      assert [p.amount, p.fees][1..] == [p.fees];
      assert Sum([p.fees]) == p.fees + Sum([]);
    }
  }

  /** The fees of such a payment are charged on a line of their own. */
  lemma {:induction false} BankFeesAreCharged(e: Expense, c: Context, b: NewBill, settings: Settings, m: Model, k: nat)
    requires PlanOf(e, c) == Ok(BillPlan(b)) && ShowsBill(m, b, settings) && settings.fees.code != ""
    requires e.transactions == [] && e.isPaid && e.sourceType == Some(Balance) && e.hasSource
    requires IsOnlySettled(e.balancePayments, k) && e.balancePayments[k].currency == e.currency
    requires e.balancePayments[k].amount == e.total && WholeCents(e.balancePayments[k].fees) && e.balancePayments[k].fees > 0.0
    ensures |m.lines| == |b.lineItems| + 1
    ensures var fees := m.lines[|b.lineItems|];
            fees.unitAmount == e.balancePayments[k].fees && fees.accountCode == settings.fees.code && fees.description == "Bank transfer fees"
  {
    var fees := e.balancePayments[k].fees;
    OneBalancePayment(e, c, b, k);
    assert seq(|b.payments|, i requires 0 <= i < |b.payments| => b.payments[i].bankFees) == [fees];
    assert seq(|b.payments|, i requires 0 <= i < |b.payments| => b.payments[i].posFees) == [0.0];
    assert seq(|b.payments|, i requires 0 <= i < |b.payments| => b.payments[i].fxFees) == [0.0];
    assert WholeCents(0.0);
    SumOfOneInCents(fees);
    SumOfOneInCents(0.0);
    FeesOnly(fees);
    assert b.lineItems != [];
  }

  lemma {:induction false} OneBalancePayment(e: Expense, c: Context, b: NewBill, k: nat)
    requires PlanOf(e, c) == Ok(BillPlan(b))
    requires e.transactions == [] && e.isPaid && e.sourceType == Some(Balance) && e.hasSource
    requires IsOnlySettled(e.balancePayments, k) && e.balancePayments[k].currency == e.currency
    requires e.balancePayments[k].amount == e.total
    ensures |b.payments| == 1 && b.payments[0].bankFees == e.balancePayments[k].fees
    ensures b.payments[0].posFees == 0.0 && b.payments[0].fxFees == 0.0 && b.lineItems != []
  {
    PlanMeaning(e, c);
    assert b.payments[0..] == b.payments;
  }

  lemma {:induction false} FeesOnly(fees: real)
    requires WholeCents(fees)
    ensures SumAmounts([fees, 0.0, 0.0]) == fees
  {
    ZeroAddsNothing([fees], [0.0]);
    ZeroAddsNothing([fees], []);
    assert [fees] + [0.0] + [0.0] == [fees, 0.0, 0.0] && [fees] + [0.0] == [fees] + [0.0] + [] && [fees] + [] == [fees];
    SumOfOneInCents(fees);
  }

  lemma {:induction false} SumOfOneInCents(x: real)
    requires WholeCents(x)
    ensures SumAmounts([x]) == x
  {
    SumAmountsExactOnCents([x]);
    assert Sum([x]) == x + Sum([]);
  }
}
