/** When the payments of an export add up to the lines of its document. Amounts reach the two
    totals along different ways: lines plus fees by kind, and one sum per payment. */
module Balance {
  import opened Basics
  import opened NumberConversion
  import opened Documents
  import opened Ledgers
  import opened XeroEntities
  import opened ReExport
  import opened ExpenseExport

  function LineAmounts(lines: seq<NewLine>): seq<real> {
    seq(|lines|, i requires 0 <= i < |lines| => lines[i].amount)
  }

  ghost predicate InCents(ps: seq<NewPayment>) {
    AllWholeCents(PaymentAmounts(ps)) && AllWholeCents(FxFees(ps)) && AllWholeCents(PosFees(ps)) && AllWholeCents(BankFees(ps))
  }

  function FeesOf(ps: seq<NewPayment>): real {
    Sum(FxFees(ps)) + Sum(PosFees(ps)) + Sum(BankFees(ps))
  }

  // ---- Sums ----

  lemma SumOfOne(x: real)
    ensures Sum([x]) == x
  {
    assert Sum([x]) == x + Sum([]);
  }

  lemma SumOfThree(a: real, b: real, c: real)
    requires WholeCents(a) && WholeCents(b) && WholeCents(c)
    ensures SumAmounts([a, b, c]) == a + b + c
  {
    SumAmountsExactOnCents([a, b, c]);
    SumOfOne(c);
    SumConcat([b], [c]);
    SumOfOne(b);
    assert [a, b, c][1..] == [b] + [c];
  }

  lemma SumOfFour(a: real, b: real, c: real, d: real)
    requires WholeCents(a) && WholeCents(b) && WholeCents(c) && WholeCents(d)
    ensures SumAmounts([a, b, c, d]) == a + b + c + d
  {
    SumAmountsExactOnCents([a, b, c, d]);
    SumOfThree(b, c, d);
    SumAmountsExactOnCents([b, c, d]);
    assert [a, b, c, d][1..] == [b, c, d];
  }

  /** The heads and tails of the lists made from a list of payments. */
  lemma {:induction false} PaymentsTail(ps: seq<NewPayment>)
    requires ps != []
    ensures PaymentAmounts(ps)[1..] == PaymentAmounts(ps[1..])
    ensures FxFees(ps)[1..] == FxFees(ps[1..]) && PosFees(ps)[1..] == PosFees(ps[1..]) && BankFees(ps)[1..] == BankFees(ps[1..])
    ensures Paid(BillPayments(ps))[1..] == Paid(BillPayments(ps[1..]))
    ensures Paid(CreditNotePayments(ps))[1..] == Paid(CreditNotePayments(ps[1..]))
    ensures InCents(ps) ==> InCents(ps[1..]) && WholeCents(ps[0].amount) && WholeCents(ps[0].fxFees)
                            && WholeCents(ps[0].posFees) && WholeCents(ps[0].bankFees)
  {
    if InCents(ps) {
      assert WholeCents(PaymentAmounts(ps)[0]) && WholeCents(FxFees(ps)[0]) && WholeCents(PosFees(ps)[0]) && WholeCents(BankFees(ps)[0]);
    }
  }

  /** Fees summed per payment are the fees summed by kind. */
  lemma {:induction false} BillPaymentsTotal(ps: seq<NewPayment>)
    requires InCents(ps)
    ensures Sum(Paid(BillPayments(ps))) == Sum(PaymentAmounts(ps)) + FeesOf(ps)
  {
    if ps == [] {
    } else {
      PaymentsTail(ps);
      BillPaymentsTotal(ps[1..]);
      SumOfFour(ps[0].amount, ps[0].fxFees, ps[0].bankFees, ps[0].posFees);
    }
  }

  /** What each payment moves: its amount and its fees. */
  function Nets(ps: seq<NewPayment>): (r: seq<real>) {
    seq(|ps|, i requires 0 <= i < |ps| => ps[i].amount + ps[i].fxFees + ps[i].bankFees + ps[i].posFees)
  }

  lemma {:induction false} NetsTotal(ps: seq<NewPayment>)
    ensures Sum(Nets(ps)) == Sum(PaymentAmounts(ps)) + FeesOf(ps)
  {
    if ps == [] {
    } else {
      PaymentsTail(ps);
      assert Nets(ps)[1..] == Nets(ps[1..]);
      NetsTotal(ps[1..]);
    }
  }

  /** The payments of a credit note are worth the sizes of what its payments move. */
  lemma {:induction false} CreditNotePaymentsTotal(ps: seq<NewPayment>)
    requires InCents(ps)
    ensures Sum(Paid(CreditNotePayments(ps))) == Sum(AbsAll(Nets(ps)))
  {
    if ps == [] {
    } else {
      PaymentsTail(ps);
      assert AbsAll(Nets(ps))[1..] == AbsAll(Nets(ps[1..]));
      CreditNotePaymentsTotal(ps[1..]);
      SumOfFour(ps[0].amount, ps[0].fxFees, ps[0].bankFees, ps[0].posFees);
    }
  }

  lemma {:induction false} BillFeesTotal(b: NewBill, settings: Settings)
    requires InCents(b.payments)
    ensures FeesTotal(GetBillData(b, settings)) == FeesOf(b.payments)
  {
    SumAmountsExactOnCents(FxFees(b.payments));
    SumAmountsExactOnCents(PosFees(b.payments));
    SumAmountsExactOnCents(BankFees(b.payments));
    SumAmountsError(FxFees(b.payments));
    SumAmountsError(PosFees(b.payments));
    SumAmountsError(BankFees(b.payments));
    SumOfThree(Sum(BankFees(b.payments)), Sum(PosFees(b.payments)), Sum(FxFees(b.payments)));
  }

  lemma {:induction false} LineItemsKeepAmounts(lines: seq<NewLine>, general: Account)
    ensures ItemAmounts(LineItems(lines, general)) == LineAmounts(lines)
  {
  }

  /** A paid bill is balanced exactly when its payments, fees left out, add up to its line items. */
  lemma {:induction false} BillIsBalancedIff(b: NewBill, settings: Settings)
    requires b.isPaid && InCents(b.payments) && b.lineItems != []
    requires FeesOf(b.payments) >= 0.0 && settings.fees.code != ""
    ensures Balanced(BillRequest(b, settings)) <==> Sum(PaymentAmounts(b.payments)) == Sum(LineAmounts(b.lineItems))
  {
    BillPaymentsTotal(b.payments);
    BillFeesTotal(b, settings);
    ModelTotal(GetBillData(b, settings), settings.trackingOnFees);
    LineItemsKeepAmounts(b.lineItems, settings.general);
  }

  /** A credit note has no fees line: its payments as they are must add up to its line items. */
  lemma {:induction false} CreditNoteIsBalancedIff(n: NewCreditNote, settings: Settings)
    requires n.lineItems != []
    ensures Balanced(CreditNoteRequest(n, settings)) <==> Sum(Paid(CreditNotePayments(n.payments))) == Sum(LineAmounts(n.lineItems))
  {
    var data := GetCreditNoteData(n, settings);
    assert WholeCents(0.0);
    SumOfThree(0.0, 0.0, 0.0);
    assert FeesTotal(data) == 0.0;
    ModelTotal(data, settings.trackingOnFees);
    LineItemsKeepAmounts(n.lineItems, settings.general);
  }

  // ---- Line items of an expense ----

  ghost predicate OneSign(xs: seq<real>) {
    || (forall i :: 0 <= i < |xs| ==> xs[i] >= 0.0)
    || (forall i :: 0 <= i < |xs| ==> xs[i] <= 0.0)
  }

  lemma {:induction false} AbsSumBounds(xs: seq<real>)
    ensures Sum(AbsAll(xs)) >= Sum(xs) && Sum(AbsAll(xs)) >= -Sum(xs)
    ensures Sum(AbsAll(xs)) == Sum(xs) <==> forall i :: 0 <= i < |xs| ==> xs[i] >= 0.0
    ensures Sum(AbsAll(xs)) == -Sum(xs) <==> forall i :: 0 <= i < |xs| ==> xs[i] <= 0.0
  {
    if xs == [] {
    } else {
      assert AbsAll(xs)[1..] == AbsAll(xs[1..]);
      AbsSumBounds(xs[1..]);
      assert forall i :: 0 <= i < |xs[1..]| ==> xs[1..][i] == xs[i + 1];
      assert (forall i :: 0 <= i < |xs| ==> xs[i] >= 0.0) <==> xs[0] >= 0.0 && (forall i :: 0 <= i < |xs[1..]| ==> xs[1..][i] >= 0.0);
      assert (forall i :: 0 <= i < |xs| ==> xs[i] <= 0.0) <==> xs[0] <= 0.0 && (forall i :: 0 <= i < |xs[1..]| ==> xs[1..][i] <= 0.0);
    }
  }

  /** Sizes add up to the size of the sum exactly when all amounts have one sign. */
  lemma {:induction false} AbsSumIff(xs: seq<real>)
    ensures Sum(AbsAll(xs)) == Abs(Sum(xs)) <==> OneSign(xs)
  {
    AbsSumBounds(xs);
  }

  /** There is a single line, or the sizes of the line items add up to the total. */
  ghost predicate LinesMatch(e: Expense, total: real) {
    UsesSingleLine(e, PaymentCurrency(e)) || Sum(AbsAll(LineTotals(e.lineItems))) == total
  }

  lemma {:induction false} ExtractedLinesTotalIff(e: Expense, total: real, fxRate: Option<real>)
    requires total >= 0.0
    requires ExtractedLineItems(e, total, PaymentCurrency(e), fxRate).Ok?
    ensures var lines := ExtractedLineItems(e, total, PaymentCurrency(e), fxRate).value;
            lines != [] && (Sum(LineAmounts(lines)) == total <==> LinesMatch(e, total))
  {
    var lines := ExtractedLineItems(e, total, PaymentCurrency(e), fxRate).value;
    if UsesSingleLine(e, PaymentCurrency(e)) {
      assert LineAmounts(lines) == [total];
      SumOfOne(total);
    } else {
      assert LineAmounts(lines) == AbsAll(LineTotals(e.lineItems));
    }
  }

  /** Line items that pass the sum check and do not cancel out match the total exactly when they
      all have one sign. The check itself lets items through whose sum is zero. */
  lemma {:induction false} AcceptedLinesMatchIffOneSign(e: Expense, total: real, fxRate: Option<real>)
    requires total >= 0.0 && !UsesSingleLine(e, PaymentCurrency(e))
    requires AllWholeCents(LineTotals(e.lineItems)) && Sum(LineTotals(e.lineItems)) != 0.0
    requires ExtractedLineItems(e, total, PaymentCurrency(e), fxRate).Ok?
    ensures LinesMatch(e, total) <==> OneSign(LineTotals(e.lineItems))
  {
    SumAmountsExactOnCents(LineTotals(e.lineItems));
    AbsSumIff(LineTotals(e.lineItems));
  }

  // ---- Bills of expenses ----

  ghost predicate CardsInCents(ts: seq<Transaction>) {
    AllWholeCents(CardAmounts(ts)) && AllWholeCents(CardFxFees(ts)) && AllWholeCents(CardPosFees(ts))
  }

  ghost predicate NoNegativeCardFees(ts: seq<Transaction>) {
    forall i :: 0 <= i < |ts| ==> ts[i].fxFee >= 0.0 && ts[i].posFee >= 0.0
  }

  lemma {:induction false} SumNotNegative(xs: seq<real>)
    requires forall i :: 0 <= i < |xs| ==> xs[i] >= 0.0
    ensures Sum(xs) >= 0.0
  {
    if xs == [] {
    } else {
      SumNotNegative(xs[1..]);
    }
  }

  lemma {:induction false} SumNotPositive(xs: seq<real>)
    requires forall i :: 0 <= i < |xs| ==> xs[i] <= 0.0
    ensures Sum(xs) <= 0.0
  {
    if xs == [] {
    } else {
      SumNotPositive(xs[1..]);
    }
  }

  lemma {:induction false} ZerosSum(xs: seq<real>)
    requires forall i :: 0 <= i < |xs| ==> xs[i] == 0.0
    ensures Sum(xs) == 0.0
  {
    if xs == [] {
    } else {
      ZerosSum(xs[1..]);
    }
  }

  lemma {:induction false} ZeroBankFees(ps: seq<NewPayment>)
    requires forall i :: 0 <= i < |ps| ==> ps[i].bankFees == 0.0
    ensures AllWholeCents(BankFees(ps)) && Sum(BankFees(ps)) == 0.0
  {
    assert WholeCents(0.0);
    ZerosSum(BankFees(ps));
  }

  /** What one payment per transaction adds up to. */
  lemma {:induction false} CardsOneByOne(ts: seq<Transaction>, account: string)
    requires AllSettled(ts) && CardsInCents(ts)
    ensures var ps := CardPaymentsOneByOne(ts, account);
            && InCents(ps) && PaymentAmounts(ps) == CardAmounts(ts)
            && FeesOf(ps) == Sum(CardFxFees(ts)) + Sum(CardPosFees(ts))
            && (NoNegativeCardFees(ts) ==> FeesOf(ps) >= 0.0)
  {
    var ps := CardPaymentsOneByOne(ts, account);
    assert PaymentAmounts(ps) == CardAmounts(ts) && FxFees(ps) == CardFxFees(ts) && PosFees(ps) == CardPosFees(ts);
    ZeroBankFees(ps);
    if NoNegativeCardFees(ts) {
      SumNotNegative(CardFxFees(ts));
      SumNotNegative(CardPosFees(ts));
    }
  }

  /** What the merged payment of a mixed list adds up to. */
  lemma {:induction false} CardsMerged(ts: seq<Transaction>, account: string)
    requires ts != [] && AllSettled(ts) && CardsInCents(ts) && NoNegativeCardFees(ts)
    ensures var ps := [MergedPayment(ts, account)];
            && InCents(ps) && PaymentAmounts(ps) == [Abs(Sum(CardAmounts(ts)))]
            && FeesOf(ps) == Sum(CardFxFees(ts)) + Sum(CardPosFees(ts)) >= 0.0
  {
    var ps := [MergedPayment(ts, account)];
    MergedParts(CardAmounts(ts));
    MergedParts(CardFxFees(ts));
    MergedParts(CardPosFees(ts));
    SumNotNegative(CardFxFees(ts));
    SumNotNegative(CardPosFees(ts));
    assert PaymentAmounts(ps) == [Abs(Sum(CardAmounts(ts)))];
    assert FxFees(ps) == [Sum(CardFxFees(ts))] && PosFees(ps) == [Sum(CardPosFees(ts))];
    SumOfOne(Sum(CardFxFees(ts)));
    SumOfOne(Sum(CardPosFees(ts)));
    ZeroBankFees(ps);
  }

  lemma {:induction false} MergedParts(xs: seq<real>)
    requires AllWholeCents(xs)
    ensures Abs(SumAmounts(xs)) == Abs(Sum(xs)) && WholeCents(Abs(Sum(xs)))
  {
    SumAmountsExactOnCents(xs);
    SumIsWholeCents(xs);
    WholeCentsClosed(Sum(xs), Sum(xs));
  }

  /** Paid by settled cards: purchases only, or purchases and refunds merged into one payment. */
  ghost predicate SettledByCards(e: Expense) {
    && e.transactions != [] && AllSettled(e.transactions) && !IsPaidByBalance(e)
    && CardsInCents(e.transactions) && NoNegativeCardFees(e.transactions)
    && (e.transactions[0].cardAmount > 0.0 || !SameType(e.transactions))
  }

  /** Paid, without cards, by one settled balance payment in the expense's currency. */
  ghost predicate SettledByBalance(e: Expense) {
    && e.transactions == [] && IsPaidByBalance(e) && WholeCents(e.total)
    && |SettledPayments(e.balancePayments)| == 1
    && var p := SettledPayments(e.balancePayments)[0]; p.currency == e.currency && WholeCents(p.fees) && p.fees >= 0.0
  }

  lemma {:induction false} CardBillPayments(e: Expense, c: Context, b: NewBill)
    requires SettledByCards(e) && PlanOf(e, c) == Ok(BillPlan(b))
    ensures InCents(b.payments) && FeesOf(b.payments) >= 0.0
    ensures Sum(PaymentAmounts(b.payments)) == GrossTotal(e) >= 0.0
  {
    var ts, account := e.transactions, c.bankAccountOf(PaymentCurrency(e));
    MergedParts(CardAmounts(ts));
    if SameType(ts) {
      CardsOneByOne(ts, account);
      SumNotNegative(CardAmounts(ts));
    } else {
      CardsMerged(ts, account);
      SumOfOne(GrossTotal(e));
    }
  }

  lemma {:induction false} BalanceBillPayments(e: Expense, c: Context, b: NewBill)
    requires SettledByBalance(e) && PlanOf(e, c) == Ok(BillPlan(b))
    ensures InCents(b.payments) && FeesOf(b.payments) >= 0.0
    ensures Sum(PaymentAmounts(b.payments)) == GrossTotal(e) >= 0.0
  {
    var p := SettledPayments(e.balancePayments)[0];
    assert |{e.currency, c.baseCurrency, p.currency}| <= 2 by {
      assert {e.currency, c.baseCurrency, p.currency} == {e.currency, c.baseCurrency};
    }
    var paid := BalancePaymentOf(e, c).value.value;
    assert b.payments == [paid];
    assert WholeCents(0.0);
    assert PaymentAmounts([paid]) == [paid.amount] && FxFees([paid]) == [0.0] && PosFees([paid]) == [0.0] && BankFees([paid]) == [paid.bankFees];
    SumOfOne(paid.amount);
    SumOfOne(0.0);
    SumOfOne(paid.bankFees);
  }

  /** The bill of a paid expense in whole cents, settled by cards or by balance: the lines and the
      fees line add up to the payments exactly when there is a single line or the line items
      match the total. */
  lemma {:induction false} ExpenseBillIsBalancedIff(e: Expense, c: Context, settings: Settings, b: NewBill)
    requires PlanOf(e, c) == Ok(BillPlan(b)) && e.isPaid && settings.fees.code != ""
    requires SettledByCards(e) || SettledByBalance(e)
    ensures Balanced(BillRequest(b, settings)) <==> LinesMatch(e, GrossTotal(e))
  {
    if SettledByCards(e) {
      CardBillPayments(e, c, b);
    } else {
      BalanceBillPayments(e, c, b);
    }
    ExtractedLinesTotalIff(e, GrossTotal(e), c.fxRate);
    BillIsBalancedIff(b, settings);
  }

  // ---- Credit notes of expenses ----

  /** Settled refunds only, with whatever fees. */
  ghost predicate RefundedByCards(e: Expense) {
    && e.transactions != [] && AllSettled(e.transactions) && CardsInCents(e.transactions)
    && forall i :: 0 <= i < |e.transactions| ==> e.transactions[i].cardAmount < 0.0
  }

  lemma {:induction false} AllFeesTotal(ps: seq<NewPayment>)
    requires InCents(ps)
    ensures AllFees(ps) == FeesOf(ps)
  {
    SumAmountsExactOnCents(FxFees(ps) + PosFees(ps) + BankFees(ps));
    SumConcat(FxFees(ps) + PosFees(ps), BankFees(ps));
    SumConcat(FxFees(ps), PosFees(ps));
  }

  /** What each card payment moves: its amount and its fees. */
  function CardNets(ts: seq<Transaction>): (r: seq<real>) {
    seq(|ts|, i requires 0 <= i < |ts| => ts[i].cardAmount + ts[i].fxFee + ts[i].posFee)
  }

  /** Whether the payments of refunds are worth what the credit note charges: with a single line, if
      fees exceed no refund, or every refund; with line items, if the sizes agree. */
  ghost predicate RefundsMatch(e: Expense) {
    if UsesSingleLine(e, PaymentCurrency(e)) then OneSign(CardNets(e.transactions))
    else Sum(AbsAll(LineTotals(e.lineItems))) == Sum(AbsAll(CardNets(e.transactions)))
  }

  /** The credit note of refunds. */
  lemma {:induction false} ExpenseCreditNoteIsBalancedIff(e: Expense, c: Context, settings: Settings, n: NewCreditNote)
    requires PlanOf(e, c) == Ok(CreditNotePlan(n)) && RefundedByCards(e)
    ensures Balanced(CreditNoteRequest(n, settings)) <==> RefundsMatch(e)
  {
    RefundPayments(e, c, n);
    RefundLines(e, c, n);
    AbsSumIff(CardNets(e.transactions));
    CreditNotePaymentsTotal(n.payments);
    CreditNoteIsBalancedIff(n, settings);
  }

  lemma {:induction false} RefundPayments(e: Expense, c: Context, n: NewCreditNote)
    requires PlanOf(e, c) == Ok(CreditNotePlan(n)) && RefundedByCards(e)
    ensures InCents(n.payments) && Nets(n.payments) == CardNets(e.transactions)
    ensures TotalAmount(e, n.payments) == -Sum(CardNets(e.transactions))
  {
    var ts, account := e.transactions, c.bankAccountOf(PaymentCurrency(e));
    assert n.payments == CardPaymentsOneByOne(ts, account);
    CardsOneByOne(ts, account);
    assert Nets(n.payments) == CardNets(ts);
    NetsTotal(n.payments);
    MergedParts(CardAmounts(ts));
    SumNotPositive(CardAmounts(ts));
    AllFeesTotal(n.payments);
  }

  lemma {:induction false} RefundLines(e: Expense, c: Context, n: NewCreditNote)
    requires PlanOf(e, c) == Ok(CreditNotePlan(n))
    ensures n.lineItems != []
    ensures Sum(LineAmounts(n.lineItems)) == if UsesSingleLine(e, PaymentCurrency(e)) then Abs(TotalAmount(e, n.payments))
                                             else Sum(AbsAll(LineTotals(e.lineItems)))
  {
    if UsesSingleLine(e, PaymentCurrency(e)) {
      assert LineAmounts(n.lineItems) == [Abs(TotalAmount(e, n.payments))];
      SumOfOne(Abs(TotalAmount(e, n.payments)));
    } else {
      assert LineAmounts(n.lineItems) == AbsAll(LineTotals(e.lineItems));
    }
  }

  /** A settled refund that mixes signs: the merged payment adds the fees that the note takes off.
      With a single line the two meet exactly when there are no fees, or nothing but fees; line
      items meet the payment exactly when their sizes add up to amount and fees. */
  lemma {:induction false} MixedRefundIsBalancedIff(e: Expense, c: Context, settings: Settings, n: NewCreditNote)
    requires PlanOf(e, c) == Ok(CreditNotePlan(n))
    requires e.transactions != [] && AllSettled(e.transactions) && !SameType(e.transactions)
    requires CardsInCents(e.transactions) && NoNegativeCardFees(e.transactions)
    ensures var amount, fees := Abs(Sum(CardAmounts(e.transactions))), Sum(CardFxFees(e.transactions)) + Sum(CardPosFees(e.transactions));
            (Balanced(CreditNoteRequest(n, settings))
             <==> if UsesSingleLine(e, PaymentCurrency(e)) then fees == 0.0 || amount == 0.0
                  else Sum(AbsAll(LineTotals(e.lineItems))) == amount + fees)
  {
    var ts, account := e.transactions, c.bankAccountOf(PaymentCurrency(e));
    MixedRefundLinesTotal(e, c, n);
    MergedRefundPayment(ts, account);
    CreditNoteIsBalancedIff(n, settings);
    CardsMerged(ts, account);
  }

  lemma {:induction false} MixedRefundLinesTotal(e: Expense, c: Context, n: NewCreditNote)
    requires PlanOf(e, c) == Ok(CreditNotePlan(n))
    requires e.transactions != [] && AllSettled(e.transactions) && !SameType(e.transactions)
    requires CardsInCents(e.transactions) && NoNegativeCardFees(e.transactions)
    ensures n.lineItems != []
    ensures Sum(LineAmounts(n.lineItems))
         == if UsesSingleLine(e, PaymentCurrency(e))
            then Abs(Abs(Sum(CardAmounts(e.transactions))) - (Sum(CardFxFees(e.transactions)) + Sum(CardPosFees(e.transactions))))
            else Sum(AbsAll(LineTotals(e.lineItems)))
  {
    CardsMerged(e.transactions, c.bankAccountOf(PaymentCurrency(e)));
    MergedParts(CardAmounts(e.transactions));
    AllFeesTotal(n.payments);
    RefundLines(e, c, n);
  }

  lemma {:induction false} MergedRefundPayment(ts: seq<Transaction>, account: string)
    requires ts != [] && AllSettled(ts) && CardsInCents(ts) && NoNegativeCardFees(ts)
    ensures Sum(Paid(CreditNotePayments([MergedPayment(ts, account)])))
         == Abs(Sum(CardAmounts(ts))) + Sum(CardFxFees(ts)) + Sum(CardPosFees(ts))
  {
    var p := MergedPayment(ts, account);
    CardsMerged(ts, account);
    PaymentsTail([p]);
    SumOfFour(p.amount, p.fxFees, p.bankFees, p.posFees);
    MergedFees(ts, account);
    assert Paid(CreditNotePayments([p])) == [p.amount + p.fxFees + p.posFees];
    SumOfOne(p.amount + p.fxFees + p.posFees);
  }

  lemma {:induction false} MergedFees(ts: seq<Transaction>, account: string)
    requires ts != [] && AllSettled(ts) && CardsInCents(ts) && NoNegativeCardFees(ts)
    ensures var p := MergedPayment(ts, account);
            p.fxFees == Sum(CardFxFees(ts)) && p.posFees == Sum(CardPosFees(ts)) && p.bankFees == 0.0
            && p.amount == Abs(Sum(CardAmounts(ts)))
  {
    MergedParts(CardAmounts(ts));
    MergedParts(CardFxFees(ts));
    MergedParts(CardPosFees(ts));
    SumNotNegative(CardFxFees(ts));
    SumNotNegative(CardPosFees(ts));
  }

  /** A negative expense without transactions whose line items add up to something can never
      be exported: their size is compared with a negative total. */
  lemma {:induction false} NegativeExpenseWithLinesAlwaysFails(e: Expense, c: Context)
    requires e.currency != "" && e.total < 0.0 && e.transactions == []
    requires e.lineItems != [] && AllWholeCents(LineTotals(e.lineItems))
    ensures PlanOf(e, c) == Err(LineItemsMismatch) <==> Sum(LineTotals(e.lineItems)) != 0.0
  {
    SumAmountsExactOnCents(LineTotals(e.lineItems));
    assert AllFees([]) == SumAmounts([]) by {
      assert FxFees([]) + PosFees([]) + BankFees([]) == [];
    }
    SumAmountsExactOnCents([]);
  }
}
