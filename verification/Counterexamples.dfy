/** Concrete inputs at which properties that one might expect of the code fail. */
module Counterexamples {
  import opened Basics
  import opened NumberConversion
  import opened Documents
  import opened Ledgers
  import opened XeroEntities
  import opened CreditNotes
  import opened ReExport
  import opened ExpenseExport
  import opened Balance
  import RetryPolicy
  import XeroHttpClients
  import TenantTokens
  import BankFeeds
  import BankFeedStore

  const CONTEXT := Context("https://portal", "acme", s => s, "contact", "EUR", s => s, None)

  const SETTINGS := Settings(Account("PHG", "NONE"), Account("PHF", "NONE"), LockDates(None, None), false)

  function Card(amount: real, fxFee: real): Transaction {
    Transaction("t", amount, "EUR", Some("2022-05-01"), fxFee, 0.0)
  }

  function Line(total: real): ExpenseLine {
    ExpenseLine(total, None, None, None, None)
  }

  /** A paid expense in euro. */
  function ExpenseOf(total: real, cards: seq<Transaction>, lines: seq<ExpenseLine>): Expense {
    Expense("7", "INV-7", "2022-05-01", 1651363200000, "", "lunch", "EUR", total, None, None, None, None,
            true, true, Some(SourceType.Card), false, cards, [], lines, [])
  }

  lemma SumOfTwo(a: real, b: real)
    ensures Sum([a, b]) == a + b
  {
    assert [a, b] == [a] + [b];
    SumConcat([a], [b]);
    SumOfOne(a);
    SumOfOne(b);
  }

  lemma TwoAmounts(a: real, b: real)
    requires WholeCents(a) && WholeCents(b)
    ensures AllWholeCents([a, b]) && SumAmounts([a, b]) == a + b
  {
    SumAmountsExactOnCents([a, b]);
    SumOfTwo(a, b);
  }

  lemma WholeEuros(n: int)
    ensures WholeCents(n as real)
  {
    FloorUnique(n as real * 100.0, n * 100);
  }

  lemma OneCardMeaning()
    ensures var cards := [Card(100.0, 0.0)];
            && AllSettled(cards) && SameCurrency(cards) && SameType(cards) && CardsInCents(cards) && NoNegativeCardFees(cards)
            && CardAmounts(cards) == [100.0] && SumAmounts([100.0]) == 100.0
  {
    var cards := [Card(100.0, 0.0)];
    WholeEuros(0);
    WholeEuros(100);
    assert CardAmounts(cards) == [100.0] && CardFxFees(cards) == [0.0] && CardPosFees(cards) == [0.0];
    SumAmountsExactOnCents([100.0]);
    SumOfOne(100.0);
  }

  /** Items of 120 and -20 pass a sum check for 100, and their sizes add up to 140. */
  lemma OppositeItemsMeaning()
    ensures LineTotals([Line(120.0), Line(-20.0)]) == [120.0, -20.0]
    ensures SumAmounts([120.0, -20.0]) == 100.0 && Sum(AbsAll([120.0, -20.0])) == 140.0
  {
    WholeEuros(120);
    WholeEuros(-20);
    assert LineTotals([Line(120.0), Line(-20.0)]) == [120.0, -20.0] && AbsAll([120.0, -20.0]) == [120.0, 20.0];
    TwoAmounts(120.0, -20.0);
    SumOfTwo(120.0, 20.0);
  }

  function OppositeItemsExpense(): Expense {
    ExpenseOf(100.0, [Card(100.0, 0.0)], [Line(120.0), Line(-20.0)])
  }

  lemma OppositeItemsAreAccepted()
    ensures PlanOf(OppositeItemsExpense(), CONTEXT).Ok? && PlanOf(OppositeItemsExpense(), CONTEXT).value.BillPlan?
    ensures |PlanOf(OppositeItemsExpense(), CONTEXT).value.bill.payments| == 1
  {
    OneCardMeaning();
    OppositeItemsMeaning();
  }

  /** A card payment of 100 with items of 120 and -20: the sums agree, the bill is sent with lines
      of 140, and each export pays 100 once more. */
  lemma UnbalancedBillIsAccepted()
    ensures PlanOf(OppositeItemsExpense(), CONTEXT).Ok? && PlanOf(OppositeItemsExpense(), CONTEXT).value.BillPlan?
    ensures var b := PlanOf(OppositeItemsExpense(), CONTEXT).value.bill;
            !Balanced(BillRequest(b, SETTINGS)) && !BillRepeatsIn([], b, SETTINGS, false)
  {
    OppositeItemsAreAccepted();
    var e := OppositeItemsExpense();
    var b := PlanOf(e, CONTEXT).value.bill;
    OneCardMeaning();
    OppositeItemsMeaning();
    ExpenseBillIsBalancedIff(e, CONTEXT, SETTINGS, b);
    assert Find([], b.url, true) == 0;
  }

  function Paying(amount: real, isReconciled: bool): PaymentInfo {
    PaymentInfo("2022-05-01", "EUR", amount, isReconciled, false)
  }

  function ModelOf(amount: real): Model {
    Model("2022-05-01", "2022-05-01", "contact", "INV-7", "url", "EUR", [ModelLine("lunch", "PHG", amount, None, None, None)])
  }

  lemma ModelOfTotal(amount: real)
    ensures LinesTotal(ModelOf(amount).lines) == amount
  {
    assert Amounts(ModelOf(amount).lines) == [amount];
    SumOfOne(amount);
  }

  lemma {:induction false} OnePayment(p: PaymentInfo)
    ensures Sum(Paid([p])) == p.amount
  {
    assert Paid([p]) == [p.amount];
    SumOfOne(p.amount);
  }

  /** A bill of 200 that has a payment of 100 is exported with a payment of 200: the export is
      balanced, and yet the payment of 200 is made at every run. */
  lemma PartlyPaidBillIsPaidAgain()
    ensures var v := View(Live, ModelOf(200.0), [Paying(100.0, false)], []);
            var r := Request(ModelOf(200.0), [Paying(200.0, false)], 1, []);
            var once := BillAfter(Some(v), r, false, false);
            var twice := BillAfter(Some(once), r, false, false);
            && Balanced(r)
            && once.payments == [Paying(100.0, false), Paying(200.0, false)]
            && twice.payments == [Paying(100.0, false), Paying(200.0, false), Paying(200.0, false)]
  {
    var v := View(Live, ModelOf(200.0), [Paying(100.0, false)], []);
    var r := Request(ModelOf(200.0), [Paying(200.0, false)], 1, []);
    ModelOfTotal(200.0);
    OnePayment(Paying(100.0, false));
    OnePayment(Paying(200.0, false));
    BalancedRequestRepeatsIff(v, r);
    BillSecondRunIff(Some(v), r, false, false);
  }

  /** A credit note of 200 that has a payment of 100 is exported with one of 100: together they settle
      it, and so the next run deletes both and makes its own once more. */
  lemma {:induction false} PartlyPaidCreditNoteLosesAPayment()
    ensures var v := View(Live, ModelOf(200.0), [Paying(100.0, false)], []);
            var r := Request(ModelOf(200.0), [Paying(100.0, false)], 1, []);
            var once := CreditNoteAfter(Some(v), r, false, false);
            && ViewStatus(once) == PAID && |once.payments| == 2
            && CreditNoteAfter(Some(once), r, false, false).payments == [Paying(100.0, false)]
  {
    var v := View(Live, ModelOf(200.0), [Paying(100.0, false)], []);
    var r := Request(ModelOf(200.0), [Paying(100.0, false)], 1, []);
    ModelOfTotal(200.0);
    OnePayment(Paying(100.0, false));
    UpdatedView(v, r, false);
    CreditNoteSecondRunIff(Some(v), r, false, false);
  }

  function MixedCards(): seq<Transaction> {
    [Card(5.0, 2.0), Card(-15.0, 0.0)]
  }

  lemma MixedCardsMeaning()
    ensures var cards := MixedCards();
            && AllSettled(cards) && SameCurrency(cards) && !SameType(cards)
            && CardsInCents(cards) && NoNegativeCardFees(cards)
            && CardAmounts(cards) == [5.0, -15.0] && SumAmounts(CardAmounts(cards)) == -10.0 && Sum(CardAmounts(cards)) == -10.0
            && Sum(CardFxFees(cards)) == 2.0 && Sum(CardPosFees(cards)) == 0.0
  {
    var cards := MixedCards();
    CentsOfMixedRefunds();
    assert CardAmounts(cards) == [5.0, -15.0] && CardFxFees(cards) == [2.0, 0.0] && CardPosFees(cards) == [0.0, 0.0];
    SumOfTwo(5.0, -15.0);
    SumOfTwo(2.0, 0.0);
    SumOfTwo(0.0, 0.0);
    assert cards[1].cardAmount < 0.0;
  }

  /** A refund of 10 from cards of 5, with a fee of 2, and -15: the note is worth 8, its payment 12. */
  lemma MixedRefundIsUnbalanced()
    ensures var e := ExpenseOf(-10.0, MixedCards(), []);
            && PlanOf(e, CONTEXT).Ok? && PlanOf(e, CONTEXT).value.CreditNotePlan?
            && !Balanced(CreditNoteRequest(PlanOf(e, CONTEXT).value.note, SETTINGS))
  {
    var e := ExpenseOf(-10.0, MixedCards(), []);
    MixedCardsMeaning();
    FeesOfMixedRefunds(MixedCards());
    assert UsesSingleLine(e, PaymentCurrency(e));
    MixedRefundIsBalancedIff(e, CONTEXT, SETTINGS, PlanOf(e, CONTEXT).value.note);
  }

  /** The same with items of -10 and 2, which pass the sum check and make the note worth 12. */
  lemma ItemisedMixedRefundIsBalanced()
    ensures var e := ExpenseOf(-10.0, MixedCards(), [Line(-10.0), Line(2.0)]);
            && PlanOf(e, CONTEXT).Ok? && PlanOf(e, CONTEXT).value.CreditNotePlan?
            && Balanced(CreditNoteRequest(PlanOf(e, CONTEXT).value.note, SETTINGS))
  {
    var e := ExpenseOf(-10.0, MixedCards(), [Line(-10.0), Line(2.0)]);
    MixedCardsMeaning();
    CentsOfMixedRefunds();
    FeesOfMixedRefunds(MixedCards());
    assert LineTotals(e.lineItems) == [-10.0, 2.0] && AbsAll([-10.0, 2.0]) == [10.0, 2.0];
    SumOfTwo(10.0, 2.0);
    assert !UsesSingleLine(e, PaymentCurrency(e));
    MixedRefundIsBalancedIff(e, CONTEXT, SETTINGS, PlanOf(e, CONTEXT).value.note);
  }

  lemma CentsOfMixedRefunds()
    ensures AllWholeCents([5.0, -15.0]) && AllWholeCents([2.0, 0.0]) && AllWholeCents([0.0, 0.0])
    ensures SumAmounts([5.0, -15.0]) == -10.0 && SumAmounts([-10.0, 2.0]) == -8.0
  {
    WholeEuros(5);
    WholeEuros(-15);
    WholeEuros(2);
    WholeEuros(0);
    WholeEuros(-10);
    TwoAmounts(5.0, -15.0);
    TwoAmounts(-10.0, 2.0);
  }

  lemma {:induction false} FeesOfMixedRefunds(cards: seq<Transaction>)
    requires cards == [Card(5.0, 2.0), Card(-15.0, 0.0)]
    ensures AllFees([MergedPayment(cards, "EUR")]) == 2.0
  {
    CentsOfMixedRefunds();
    assert CardAmounts(cards) == [5.0, -15.0] && CardFxFees(cards) == [2.0, 0.0] && CardPosFees(cards) == [0.0, 0.0];
    CardsMerged(cards, "EUR");
    AllFeesTotal([MergedPayment(cards, "EUR")]);
    SumOfTwo(2.0, 0.0);
    SumOfTwo(0.0, 0.0);
  }

  /** A negative expense of 10 without cards, with one item of the same amount. */
  lemma NegativeExpenseFails()
    ensures PlanOf(ExpenseOf(-10.0, [], [Line(-10.0)]), CONTEXT) == Err(LineItemsMismatch)
  {
    var e := ExpenseOf(-10.0, [], [Line(-10.0)]);
    assert LineTotals(e.lineItems) == [-10.0];
    WholeEuros(-10);
    SumOfOne(-10.0);
    NegativeExpenseWithLinesAlwaysFails(e, CONTEXT);
  }

  /** A credit note of 100 that a reconciled payment settles: the next run replaces that payment. */
  lemma {:induction false} ReconciledPaymentOfCreditNoteIsLost(n: NewCreditNote)
    ensures var v := View(Live, ModelOf(100.0), [Paying(100.0, true)], []);
            && AnyReconciled(v.payments)
            && !AnyReconciled(CreditNoteAfter(Some(v), CreditNoteRequest(n, SETTINGS), false, false).payments)
  {
    var v := View(Live, ModelOf(100.0), [Paying(100.0, true)], []);
    ModelOfTotal(100.0);
    OnePayment(Paying(100.0, true));
    assert v.payments[0].isReconciled;
    ReconciledPaymentsOfCreditNotesAreLostIff(v, n, SETTINGS, false, false);
  }

  /** An expense of 100 whose only balance payment was rejected after it had been exported: the
      export deletes the reconciled payment of its bill. */
  lemma RejectedReconciledPaymentIsDeleted()
    ensures var rejected := BalancePayment("p", 100.0, 0.0, "2022-05-01", Rejected, "EUR");
            var e := ExpenseOf(100.0, [], []).(sourceType := Some(SourceType.Balance), hasSource := true, balancePayments := [rejected]);
            var url := ExpenseUrl(CONTEXT, e.id, Some(e.time));
            var bill := Document(url, Live, ModelOf(100.0), [Payment(0, Paying(100.0, true))], []);
            && DocumentStatus(bill) == PAID
            && RevertsPayment(e) && PlanOf(e, CONTEXT).Ok? && PlanOf(e, CONTEXT).value.BillPlan?
            && PlanOf(e, CONTEXT).value.bill.url == url
            && WithoutFirstPayment([bill], url) == [bill.(payments := [])]
  {
    var rejected := BalancePayment("p", 100.0, 0.0, "2022-05-01", Rejected, "EUR");
    var e := ExpenseOf(100.0, [], []).(sourceType := Some(SourceType.Balance), hasSource := true, balancePayments := [rejected]);
    var url := ExpenseUrl(CONTEXT, e.id, Some(e.time));
    var bill := Document(url, Live, ModelOf(100.0), [Payment(0, Paying(100.0, true))], []);
    ModelOfTotal(100.0);
    OnePayment(Paying(100.0, true));
    assert Infos(bill.payments) == [Paying(100.0, true)];
    NothingSettled([rejected]);
    assert Find([bill], url, true) == 0;
    assert bill.payments[1..] == [];
  }

  /** A 429 and then a 400 with a validation error: alone the 400 is reported with its message,
      after the retry it is thrown as it came. */
  lemma {:induction false} BadRequestAfterRetryIsRaw(rest: seq<XeroHttpClients.Reply>)
    ensures var limited := XeroHttpClients.ThrewApi(429, "slow down", None, RetryPolicy.Finite(30.0));
            var bad := XeroHttpClients.ThrewApi(400, "bad", Some(XeroHttpClients.ErrorBody(true, ["Invalid date"])), RetryPolicy.NaN);
            && XeroHttpClients.Outcome([bad] + rest, Some("Invoices")) == Err(XeroHttpClients.ValidationFailed("Invalid date"))
            && XeroHttpClients.Outcome([limited, bad] + rest, Some("Invoices")) == Err(XeroHttpClients.RawApiError(bad))
  {
    var limited := XeroHttpClients.ThrewApi(429, "slow down", None, RetryPolicy.Finite(30.0));
    var bad := XeroHttpClients.ThrewApi(400, "bad", Some(XeroHttpClients.ErrorBody(true, ["Invalid date"])), RetryPolicy.NaN);
    assert ([limited, bad] + rest)[1..] == [bad] + rest;
    XeroHttpClients.OutcomeStep([bad] + rest, Some("Invoices"));
    XeroHttpClients.OutcomeStep([bad] + rest, None);
    XeroHttpClients.OutcomeStep([limited, bad] + rest, Some("Invoices"));
  }

  /** Told to come back in thirty days, both clients come back after a millisecond. */
  lemma LongRetryAfterIsNotWaitedFor()
    ensures RetryPolicy.SleepFor(RetryPolicy.Finite(2592000.0), 0.0) == 1.0
    ensures RetryPolicy.SleepFor(RetryPolicy.Finite(2592000.0), 5.0) == 1.0
  {
    RetryPolicy.WaitsLongEnough(RetryPolicy.Finite(2592000.0), 0.0);
    RetryPolicy.WaitsLongEnough(RetryPolicy.Finite(2592000.0), 5.0);
  }

  /** The database fails just after Xero has accepted a statement and is back for the next export of
      the same transfer: Xero keeps one statement, and no row is ever made. */
  method LostRowIsNeverMade() returns (accepted: seq<BankFeeds.Accepted>, rows: seq<BankFeedStore.StatementRow>)
    ensures |accepted| == 1 && rows == []
  {
    var store := new BankFeedStore.Store(0);
    store.connections := [BankFeedStore.Connection("acme", "feed", "EUR")];
    var feed := new BankFeeds.Feed(true, [BankFeeds.Accepts, BankFeeds.Accepts], [], []);
    var exporter := new BankFeeds.StatementExporter("acme", store, feed);
    var found := BankFeeds.FoundAccount(BankFeeds.BankAccount("EUR"));
    ghost var start := BankFeeds.Mark(0, 0);
    assert store.connections[0] == BankFeedStore.Connection("acme", "feed", "EUR");
    var failure := exporter.ExportForTransfer("balance", "transfer", "EUR", 10.0, found, start);
    assert store.statements == [] && |feed.accepted| == 1;
    assert feed.accepted[0].transactionId == BankFeeds.TransactionId(BankFeeds.Transfer("balance", "transfer"));
    store.budget := 10;
    failure := exporter.ExportForTransfer("balance", "transfer", "EUR", 10.0, found, start);
    return feed.accepted, store.statements;
  }

  /** Two transfers whose balance ids contain colons can have one transaction id between them. */
  lemma {:induction false} TransfersWithColonsCanCollide()
    ensures var a, b := BankFeeds.Transfer("x:transferId-y", "z"), BankFeeds.Transfer("x", "y:transferId-z");
            a != b && BankFeeds.TransactionId(a) == BankFeeds.TransactionId(b)
  {
    assert "balanceId-" + "x:transferId-y" + ":transferId-" + "z" == "balanceId-" + "x" + ":transferId-" + "y:transferId-z";
  }

  /** "xdemo" is no demo account by its suffix, but it matches '%_demo': an ordinary account can
      take its tenant after it. */
  lemma {:induction false} XdemoIsJoined(tenant: string, userId: string, token: TenantTokens.TokenSet)
    ensures TenantTokens.LikeDemo("xdemo") && !TenantTokens.IsDemo("xdemo")
    ensures var ops := [TenantTokens.CreateToken("xdemo", userId, tenant, token), TenantTokens.CreateToken("acme", userId, tenant, token)];
            "acme" in TenantTokens.AfterAll(map[], ops)
  {
    assert "xdemo"[1..] == "demo";
    TenantTokens.LikeDemoMeaning("xdemo");
    TenantTokens.LikeDemoMeaning("acme");
    TenantTokens.WildcardAccountsCanBeJoined("xdemo", "acme", tenant, userId, token);
  }
}
