/** src/managers/integration/Manager.ts: from an expense to a bill or a credit note. What the
    other services answer (contact, bank accounts, exchange rate) is given as a context. */
module ExpenseExport {
  import opened Basics
  import opened NumberConversion
  import opened Documents
  import opened Ledgers
  import opened XeroEntities
  import opened CreditNotes

  datatype Transaction = Transaction(
    id: string, cardAmount: real, cardCurrency: string, settlementDate: Option<string>, fxFee: real, posFee: real)

  datatype BalancePaymentStatus = Settled | Rejected | InProgress

  datatype BalancePayment = BalancePayment(
    id: string, amount: real, fees: real, date: string, status: BalancePaymentStatus, currency: string)

  datatype SourceType = Card | Balance | Bank

  datatype ExpenseLine = ExpenseLine(
    total: real, taxAmount: Option<real>, accountCode: Option<string>, taxCode: Option<string>, tracking: Option<seq<Tracking>>)

  /** A missing currency and missing line items are empty; `number` is the document's number
      or the name made from the expense's id. */
  datatype Expense = Expense(
    id: string, number: string, date: string, time: int, dueDate: string, description: string, currency: string,
    total: real, taxAmount: Option<real>, accountCode: Option<string>, taxCode: Option<string>, tracking: Option<seq<Tracking>>,
    isPaid: bool, isReadyForReconciliation: bool, sourceType: Option<SourceType>, hasSource: bool,
    transactions: seq<Transaction>, balancePayments: seq<BalancePayment>, lineItems: seq<ExpenseLine>, files: seq<string>)

  /** `encode` is `encodeURIComponent`. */
  datatype Context = Context(
    portalUrl: string, accountId: string, encode: string -> string,
    contactId: string, baseCurrency: string, bankAccountOf: string -> string, fxRate: Option<real>)

  datatype Plan = BillPlan(bill: NewBill) | CreditNotePlan(note: NewCreditNote)

  // ---- The url that names an expense's bill ----

  /** 29 January 2020, in milliseconds. */
  const TIME_AT_PARAM_CHANGE: int := 1580256000000

  function AccountIdQueryParam(time: Option<int>): string {
    if time.None? || time.value >= TIME_AT_PARAM_CHANGE then "account" else "accountId"
  }

  /** `buildExpenseUrl` */
  function ExpenseUrl(c: Context, expenseId: string, time: Option<int>): string {
    c.portalUrl + "/expenses/" + c.encode(expenseId) + "?" + AccountIdQueryParam(time) + "=" + c.encode(c.accountId)
  }

  // ---- Line items ----

  function LineTotals(lines: seq<ExpenseLine>): seq<real> {
    seq(|lines|, i requires 0 <= i < |lines| => lines[i].total)
  }

  predicate UsesSingleLine(e: Expense, paymentCurrency: string) {
    e.lineItems == [] || e.currency != paymentCurrency
  }

  /** The tax amount, converted when it is not in the payment currency; 0 counts as missing. */
  function ConvertedTax(e: Expense, paymentCurrency: string, fxRate: Option<real>): Option<real> {
    if e.taxAmount.None? || e.taxAmount.value == 0.0 then None
    else if e.currency == paymentCurrency then Some(Abs(e.taxAmount.value))
    else if fxRate.None? || fxRate.value == 0.0 then None
    else Some(MultiplyAmountByRate(Abs(e.taxAmount.value), fxRate.value))
  }

  function ItemOf(e: Expense, line: ExpenseLine): NewLine {
    NewLine(Abs(line.total), Some(if line.taxAmount.Some? then Abs(line.taxAmount.value) else 0.0),
            if e.isReadyForReconciliation then line.accountCode else None, line.taxCode, line.tracking)
  }

  function ItemsOf(e: Expense, lines: seq<ExpenseLine>): seq<NewLine> {
    seq(|lines|, i requires 0 <= i < |lines| => ItemOf(e, lines[i]))
  }

  function ExtractedLineItems(e: Expense, total: real, paymentCurrency: string, fxRate: Option<real>): Result<seq<NewLine>, Failure> {
    if UsesSingleLine(e, paymentCurrency) then
      Ok([NewLine(Abs(total), ConvertedTax(e, paymentCurrency, fxRate), e.accountCode, e.taxCode, e.tracking)])
    else
      var sum := Abs(SumAmounts(LineTotals(e.lineItems)));
      if sum != 0.0 && sum != total then Err(LineItemsMismatch) else Ok(ItemsOf(e, e.lineItems))
  }

  /** `extractLineItems` */
  method ExtractLineItems(e: Expense, total: real, paymentCurrency: string, fxRate: Option<real>)
    returns (result: Result<seq<NewLine>, Failure>)
    ensures result == ExtractedLineItems(e, total, paymentCurrency, fxRate)
  {
    var lineItems: seq<NewLine> := [];
    if |e.lineItems| == 0 || e.currency != paymentCurrency {
      var taxAmount := if e.taxAmount.Some? && e.taxAmount.value != 0.0 then Some(Abs(e.taxAmount.value)) else None;
      if taxAmount.Some? && e.currency != paymentCurrency {
        taxAmount := if fxRate.Some? && fxRate.value != 0.0 then Some(MultiplyAmountByRate(taxAmount.value, fxRate.value)) else None;
      }
      var lineItem := NewLine(Abs(total), taxAmount, e.accountCode, e.taxCode, e.tracking);
      lineItems := lineItems + [lineItem];
      assert lineItems == [lineItem];
    } else {
      var lineItemsSum := Abs(SumAmounts(LineTotals(e.lineItems)));
      if lineItemsSum != 0.0 && lineItemsSum != total {
        return Err(LineItemsMismatch);
      }
      for i := 0 to |e.lineItems|
        invariant lineItems == ItemsOf(e, e.lineItems[..i])
      {
        assert e.lineItems[..i + 1] == e.lineItems[..i] + [e.lineItems[i]];
        lineItems := lineItems + [ItemOf(e, e.lineItems[i])];
      }
      assert e.lineItems[..|e.lineItems|] == e.lineItems;
    }
    return Ok(lineItems);
  }

  // ---- Payments ----

  function CardAmounts(ts: seq<Transaction>): seq<real> {
    seq(|ts|, i requires 0 <= i < |ts| => ts[i].cardAmount)
  }

  function CardFxFees(ts: seq<Transaction>): seq<real> {
    seq(|ts|, i requires 0 <= i < |ts| => ts[i].fxFee)
  }

  function CardPosFees(ts: seq<Transaction>): seq<real> {
    seq(|ts|, i requires 0 <= i < |ts| => ts[i].posFee)
  }

  predicate SameCurrency(ts: seq<Transaction>) {
    forall i :: 0 <= i < |ts| ==> ts[i].cardCurrency == ts[0].cardCurrency
  }

  predicate AllSettled(ts: seq<Transaction>) {
    forall i :: 0 <= i < |ts| ==> ts[i].settlementDate.Some?
  }

  predicate SameType(ts: seq<Transaction>) {
    forall i :: 0 <= i < |ts| ==> if ts[0].cardAmount > 0.0 then ts[i].cardAmount > 0.0 else ts[i].cardAmount < 0.0
  }

  function CardPayment(t: Transaction, account: string): NewPayment
    requires t.settlementDate.Some?
  {
    NewPayment(t.settlementDate.value, account, t.cardAmount, t.fxFee, t.posFee, 0.0)
  }

  function CardPaymentsOneByOne(ts: seq<Transaction>, account: string): seq<NewPayment>
    requires AllSettled(ts)
  {
    seq(|ts|, i requires 0 <= i < |ts| => CardPayment(ts[i], account))
  }

  function MergedPayment(ts: seq<Transaction>, account: string): NewPayment
    requires ts != [] && AllSettled(ts)
  {
    NewPayment(ts[0].settlementDate.value, account, Abs(SumAmounts(CardAmounts(ts))),
               Abs(SumAmounts(CardFxFees(ts))), Abs(SumAmounts(CardPosFees(ts))), 0.0)
  }

  function CardPayments(ts: seq<Transaction>, account: string): Result<seq<NewPayment>, Failure> {
    if ts == [] || !AllSettled(ts) then Ok([])
    else if !SameType(ts) then Ok([MergedPayment(ts, account)])
    else if exists i :: 0 <= i < |ts| && ts[i].settlementDate == Some("") then Err(NotSettled)
    else Ok(CardPaymentsOneByOne(ts, account))
  }

  method CollectCardPayments(ts: seq<Transaction>, account: string) returns (result: Result<seq<NewPayment>, Failure>)
    ensures result == CardPayments(ts, account)
  {
    var payments: seq<NewPayment> := [];
    if |ts| == 0 || !AllSettled(ts) {
      return Ok(payments);
    }
    if !SameType(ts) {
      payments := payments + [MergedPayment(ts, account)];
      assert payments == [MergedPayment(ts, account)];
    } else {
      for i := 0 to |ts|
        invariant AllSettled(ts[..i]) && payments == CardPaymentsOneByOne(ts[..i], account)
        invariant forall j :: 0 <= j < i ==> ts[j].settlementDate != Some("")
      {
        if ts[i].settlementDate == Some("") {
          return Err(NotSettled);
        }
        assert ts[..i + 1] == ts[..i] + [ts[i]];
        payments := payments + [CardPayment(ts[i], account)];
      }
      assert ts[..|ts|] == ts;
    }
    return Ok(payments);
  }

  function SettledPayments(ps: seq<BalancePayment>): seq<BalancePayment> {
    if ps == [] then []
    else if ps[0].status == Settled then [ps[0]] + SettledPayments(ps[1..])
    else SettledPayments(ps[1..])
  }

  /** `processBalancePayments` */
  function BalancePaymentOf(e: Expense, c: Context): Result<Option<NewPayment>, Failure> {
    var settled := SettledPayments(e.balancePayments);
    if |settled| > 1 then Err(MultipleSettledPayments)
    else if settled == [] then Ok(None)
    else
      var p := settled[0];
      if |{e.currency, c.baseCurrency, p.currency}| == 3 then Ok(None)
      else if p.currency != e.currency then Ok(None)
      else if p.amount < e.total then Err(PaymentTooSmall)
      else if p.amount == e.total then Ok(Some(NewPayment(p.date, c.bankAccountOf(p.currency), p.amount, 0.0, 0.0, p.fees)))
      else Ok(Some(NewPayment(p.date, c.bankAccountOf(p.currency), e.total, 0.0, 0.0, 0.0)))
  }

  predicate IsPaidByBalance(e: Expense) {
    e.isPaid && e.sourceType == Some(Balance) && e.hasSource && e.balancePayments != []
  }

  // ---- The whole export ----

  function PaymentCurrency(e: Expense): string {
    if e.transactions != [] then e.transactions[0].cardCurrency else e.currency
  }

  /** The total before a credit's fees are taken off. */
  function GrossTotal(e: Expense): real {
    if e.transactions != [] then Abs(SumAmounts(CardAmounts(e.transactions))) else e.total
  }

  predicate IsCredit(e: Expense) {
    e.total < 0.0
  }

  function AllFees(payments: seq<NewPayment>): real {
    SumAmounts(FxFees(payments) + PosFees(payments) + BankFees(payments))
  }

  function TotalAmount(e: Expense, cards: seq<NewPayment>): real {
    if IsCredit(e) then GrossTotal(e) - AllFees(cards) else GrossTotal(e)
  }

  function CreditNoteOf(e: Expense, c: Context, payments: seq<NewPayment>, lines: seq<NewLine>): NewCreditNote {
    NewCreditNote(e.number, e.date, e.time, c.contactId, e.description, PaymentCurrency(e), e.accountCode, e.taxCode,
                  e.files, payments, lines)
  }

  function BillOf(e: Expense, c: Context, payments: seq<NewPayment>, lines: seq<NewLine>): NewBill {
    NewBill(ExpenseUrl(c, e.id, Some(e.time)), e.date, e.time, OrDefault(e.dueDate, e.date), e.isPaid, c.contactId, e.description, e.number,
            PaymentCurrency(e), e.accountCode, e.taxCode, e.files, payments, lines)
  }

  function PlanOf(e: Expense, c: Context): Result<Plan, Failure> {
    if e.currency == "" then Err(NoCurrency)
    else if !SameCurrency(e.transactions) then Err(MixedCurrencies)
    else
      match CardPayments(e.transactions, c.bankAccountOf(PaymentCurrency(e)))
      case Err(failure) => Err(failure)
      case Ok(cards) =>
        match ExtractedLineItems(e, TotalAmount(e, cards), PaymentCurrency(e), c.fxRate)
        case Err(failure) => Err(failure)
        case Ok(lines) =>
          if IsCredit(e) then Ok(CreditNotePlan(CreditNoteOf(e, c, cards, lines)))
          else if !IsPaidByBalance(e) then Ok(BillPlan(BillOf(e, c, cards, lines)))
          else
            match BalancePaymentOf(e, c)
            case Err(failure) => Err(failure)
            case Ok(None) => Ok(BillPlan(BillOf(e, c, cards, lines)))
            case Ok(Some(p)) => Ok(BillPlan(BillOf(e, c, cards + [p], lines)))
  }

  // ---- What can be relied on in a plan ----

  function PaymentAmounts(ps: seq<NewPayment>): seq<real> {
    seq(|ps|, i requires 0 <= i < |ps| => ps[i].amount)
  }

  /** One payment for each card payment, one for a mixed list, none before all are settled. */
  function CardPaymentCount(ts: seq<Transaction>): nat {
    if ts == [] || !AllSettled(ts) then 0 else if SameType(ts) then |ts| else 1
  }

  /** There is a line, and no line is negative. */
  ghost predicate AreCharges(lines: seq<NewLine>) {
    lines != [] && forall i :: 0 <= i < |lines| ==> lines[i].amount >= 0.0
  }

  ghost predicate CardPaymentsMeetTotal(e: Expense, ps: seq<NewPayment>) {
    (e.transactions != [] && AllSettled(e.transactions) && AllWholeCents(CardAmounts(e.transactions)))
    ==> Abs(Sum(PaymentAmounts(ps))) == GrossTotal(e)
  }

  /** The payments of the cards: none before all are settled; one for each if all are purchases or
      all are refunds; otherwise one, on the day of the first, of the sizes of the sums. */
  ghost predicate CardsArePaid(ps: seq<NewPayment>, ts: seq<Transaction>, account: string) {
    if ts == [] || exists t <- ts :: t.settlementDate.None? then ps == []
    else if (forall t <- ts :: t.cardAmount > 0.0) || (forall t <- ts :: t.cardAmount < 0.0) then
      && |ps| == |ts|
      && forall i :: 0 <= i < |ts| ==>
           && Some(ps[i].date) == ts[i].settlementDate && ps[i].date != "" && ps[i].bankAccountId == account
           && ps[i].amount == ts[i].cardAmount && ps[i].fxFees == ts[i].fxFee && ps[i].posFees == ts[i].posFee && ps[i].bankFees == 0.0
    else
      && |ps| == 1 && Some(ps[0].date) == ts[0].settlementDate && ps[0].bankAccountId == account
      && ps[0].amount == Abs(SumAmounts(CardAmounts(ts)))
      && ps[0].fxFees == Abs(SumAmounts(seq(|ts|, i requires 0 <= i < |ts| => ts[i].fxFee)))
      && ps[0].posFees == Abs(SumAmounts(seq(|ts|, i requires 0 <= i < |ts| => ts[i].posFee))) && ps[0].bankFees == 0.0
  }

  /** The balance payment at k is the only one that is settled. */
  ghost predicate IsOnlySettled(ps: seq<BalancePayment>, k: nat) {
    k < |ps| && ps[k].status == Settled && forall i :: 0 <= i < |ps| && i != k ==> ps[i].status != Settled
  }

  /** The payments that are not the cards': for an expense paid by balance, one for its settled
      payment in the same currency, with its fees if it is for this expense alone. */
  ghost predicate BalanceIsPaid(ps: seq<NewPayment>, e: Expense, c: Context) {
    && (!(e.isPaid && e.sourceType == Some(Balance) && e.hasSource) ==> ps == [])
    && ((forall p <- e.balancePayments :: p.status != Settled) ==> ps == [])
    && (e.isPaid && e.sourceType == Some(Balance) && e.hasSource ==>
          forall k: nat :: IsOnlySettled(e.balancePayments, k) ==>
            var p := e.balancePayments[k];
            if p.currency != e.currency then ps == []
            else
              && p.amount >= e.total && |ps| == 1
              && ps[0].date == p.date && ps[0].bankAccountId == c.bankAccountOf(p.currency) && ps[0].amount == e.total
              && ps[0].fxFees == 0.0 && ps[0].posFees == 0.0
              && ps[0].bankFees == if p.amount == e.total then p.fees else 0.0)
    && (e.isPaid && e.sourceType == Some(Balance) && e.hasSource ==>
          forall j, k :: 0 <= j < k < |e.balancePayments| ==> !(e.balancePayments[j].status == e.balancePayments[k].status == Settled))
  }

  /** The tax of a single line, in the currency of the payments. */
  ghost predicate IsTaxOf(tax: Option<real>, e: Expense, currency: string, fxRate: Option<real>) {
    if e.taxAmount.None? || e.taxAmount.value == 0.0 then tax.None?
    else
      var size := if e.taxAmount.value < 0.0 then -e.taxAmount.value else e.taxAmount.value;
      if e.currency == currency then tax == Some(size)
      else if fxRate.None? || fxRate.value == 0.0 then tax.None?
      else tax == Some(MultiplyAmountByRate(size, fxRate.value))
  }

  /** The lines: one for the total if there are no line items or they are in another currency than
      the payments, and one for each line item otherwise. */
  ghost predicate LinesAreOf(lines: seq<NewLine>, e: Expense, currency: string, total: real, fxRate: Option<real>) {
    if |e.lineItems| == 0 || e.currency != currency then
      && |lines| == 1 && lines[0].amount == (if total < 0.0 then -total else total)
      && IsTaxOf(lines[0].taxAmount, e, currency, fxRate)
      && lines[0].accountCode == e.accountCode && lines[0].taxType == e.taxCode && lines[0].tracking == e.tracking
    else
      && |lines| == |e.lineItems|
      && forall i :: 0 <= i < |lines| ==>
           var item := e.lineItems[i];
           && lines[i].amount == (if item.total < 0.0 then -item.total else item.total)
           && lines[i].taxAmount == Some(if item.taxAmount.None? then 0.0
                                         else if item.taxAmount.value < 0.0 then -item.taxAmount.value else item.taxAmount.value)
           && lines[i].accountCode == (if e.isReadyForReconciliation then item.accountCode else None)
           && lines[i].taxType == item.taxCode && lines[i].tracking == item.tracking
  }

  ghost predicate IsCreditNoteFor(n: NewCreditNote, e: Expense, c: Context) {
    var currency := if e.transactions != [] then e.transactions[0].cardCurrency else e.currency;
    && e.total < 0.0 && e.currency != "" && (forall t <- e.transactions :: t.cardCurrency == currency)
    && AreCharges(n.lineItems) && LinesAreOf(n.lineItems, e, currency, TotalAmount(e, n.payments), c.fxRate)
    && |n.payments| == CardPaymentCount(e.transactions)
    && CardPaymentsMeetTotal(e, n.payments) && CardsArePaid(n.payments, e.transactions, c.bankAccountOf(currency))
    && n.creditNoteNumber == e.number && n.date == e.date && n.time == e.time && n.contactId == c.contactId
    && n.description == e.description && n.currency == currency && n.accountCode == e.accountCode && n.taxType == e.taxCode
    && n.files == e.files
  }

  ghost predicate IsBillFor(b: NewBill, e: Expense, c: Context) {
    var currency := if e.transactions != [] then e.transactions[0].cardCurrency else e.currency;
    var cards := CardPaymentCount(e.transactions);
    && e.total >= 0.0 && e.currency != "" && (forall t <- e.transactions :: t.cardCurrency == currency)
    && AreCharges(b.lineItems) && LinesAreOf(b.lineItems, e, currency, GrossTotal(e), c.fxRate)
    && cards <= |b.payments|
    && CardPaymentsMeetTotal(e, b.payments[..cards]) && CardsArePaid(b.payments[..cards], e.transactions, c.bankAccountOf(currency))
    && BalanceIsPaid(b.payments[cards..], e, c)
    && b.url == c.portalUrl + "/expenses/" + c.encode(e.id) + "?" + (if e.time < 1580256000000 then "accountId" else "account")
                + "=" + c.encode(c.accountId)
    && b.date == e.date && b.time == e.time && b.dueDate == (if e.dueDate != "" then e.dueDate else e.date) && b.isPaid == e.isPaid
    && b.contactId == c.contactId && b.description == e.description && b.reference == e.number && b.currency == currency
    && b.accountCode == e.accountCode && b.taxType == e.taxCode && b.files == e.files
  }

  /** Why there is no plan. */
  ghost predicate FailsFor(e: Expense, failure: Failure) {
    var ts := e.transactions;
    match failure
    case NoCurrency => e.currency == ""
    case MixedCurrencies => e.currency != "" && exists i :: 0 <= i < |ts| && ts[i].cardCurrency != ts[0].cardCurrency
    case NotSettled => exists t <- ts :: t.settlementDate == Some("")
    case LineItemsMismatch => e.lineItems != [] && SumAmounts(LineTotals(e.lineItems)) != 0.0
    case MultipleSettledPayments =>
      e.total >= 0.0 && exists j, k :: 0 <= j < k < |e.balancePayments| && e.balancePayments[j].status == e.balancePayments[k].status == Settled
    case PaymentTooSmall =>
      e.total >= 0.0 && exists p <- e.balancePayments :: p.status == Settled && p.currency == e.currency && p.amount < e.total
    case _ => false
  }

  lemma {:induction false} CardPaymentsTotal(e: Expense, account: string)
    requires CardPayments(e.transactions, account).Ok?
    ensures var ps := CardPayments(e.transactions, account).value;
            |ps| == CardPaymentCount(e.transactions) && CardPaymentsMeetTotal(e, ps)
  {
    var ts, ps := e.transactions, CardPayments(e.transactions, account).value;
    if ts != [] && AllSettled(ts) && AllWholeCents(CardAmounts(ts)) {
      SumAmountsExactOnCents(CardAmounts(ts));
      if SameType(ts) {
        assert PaymentAmounts(ps) == CardAmounts(ts);
      } else {
        assert PaymentAmounts(ps) == [GrossTotal(e)];
        assert Sum([GrossTotal(e)]) == GrossTotal(e) + Sum([]);
      }
    }
  }

  lemma {:induction false} ExtractedLinesAreCharges(e: Expense, total: real, paymentCurrency: string, fxRate: Option<real>)
    ensures var result := ExtractedLineItems(e, total, paymentCurrency, fxRate); result.Ok? ==> AreCharges(result.value)
  {
  }

  lemma {:induction false} ExtractedLinesAre(e: Expense, total: real, paymentCurrency: string, fxRate: Option<real>)
    ensures var result := ExtractedLineItems(e, total, paymentCurrency, fxRate);
            if result.Ok? then LinesAreOf(result.value, e, paymentCurrency, total, fxRate) else FailsFor(e, result.error)
  {
  }

  lemma {:induction false} CardPaymentsAre(e: Expense, account: string)
    ensures var result := CardPayments(e.transactions, account);
            if result.Ok? then CardsArePaid(result.value, e.transactions, account) else FailsFor(e, result.error)
  {
    var ts := e.transactions;
    assert CardFxFees(ts) == seq(|ts|, i requires 0 <= i < |ts| => ts[i].fxFee);
    assert CardPosFees(ts) == seq(|ts|, i requires 0 <= i < |ts| => ts[i].posFee);
    assert AllSettled(ts) <==> !exists t <- ts :: t.settlementDate.None?;
    if ts != [] {
      SameTypeMeaning(ts);
    }
  }

  lemma {:induction false} SameTypeMeaning(ts: seq<Transaction>)
    requires ts != []
    ensures SameType(ts) <==> (forall t <- ts :: t.cardAmount > 0.0) || (forall t <- ts :: t.cardAmount < 0.0)
  {
    assert ts[0] in ts;
    if SameType(ts) {
      if ts[0].cardAmount > 0.0 {
        assert forall t <- ts :: t.cardAmount > 0.0;
      } else {
        assert forall t <- ts :: t.cardAmount < 0.0;
      }
    }
  }

  /** The filter for settled payments keeps none, exactly the one, or more. */
  lemma {:induction false} SettledPaymentsMeaning(ps: seq<BalancePayment>)
    ensures SettledPayments(ps) == [] <==> forall p <- ps :: p.status != Settled
    ensures forall k: nat :: IsOnlySettled(ps, k) ==> SettledPayments(ps) == [ps[k]]
    ensures |SettledPayments(ps)| <= 1 ==> forall j, k :: 0 <= j < k < |ps| ==> !(ps[j].status == ps[k].status == Settled)
    ensures |SettledPayments(ps)| == 1 ==> exists k: nat :: IsOnlySettled(ps, k)
    ensures |SettledPayments(ps)| > 1 ==> exists j, k :: 0 <= j < k < |ps| && ps[j].status == ps[k].status == Settled
  {
    if ps == [] {
    } else {
      var rest := ps[1..];
      SettledPaymentsMeaning(rest);
      SettledTail(ps);
      if ps[0].status == Settled {
        if SettledPayments(rest) != [] {
          var k :| 0 <= k < |rest| && rest[k].status == Settled;
          assert ps[0].status == ps[k + 1].status == Settled;
        }
      } else if |SettledPayments(rest)| == 1 {
        var k: nat :| IsOnlySettled(rest, k);
        assert IsOnlySettled(ps, k + 1);
      } else if |SettledPayments(rest)| > 1 {
        var j, k :| 0 <= j < k < |rest| && rest[j].status == rest[k].status == Settled;
        assert ps[j + 1].status == ps[k + 1].status == Settled;
      }
    }
  }

  lemma {:induction false} SettledTail(ps: seq<BalancePayment>)
    requires ps != []
    ensures forall k: nat :: k > 0 ==> (IsOnlySettled(ps, k) <==> ps[0].status != Settled && IsOnlySettled(ps[1..], k - 1))
    ensures IsOnlySettled(ps, 0) <==> ps[0].status == Settled && forall p <- ps[1..] :: p.status != Settled
    ensures forall j, k :: 0 <= j < k < |ps[1..]| ==> ps[1..][j] == ps[j + 1] && ps[1..][k] == ps[k + 1]
  {
    assert forall i :: 0 <= i < |ps| - 1 ==> ps[1..][i] == ps[i + 1];
  }

  lemma {:induction false} BalancePaymentIs(e: Expense, c: Context)
    requires e.total >= 0.0
    ensures var paid := if IsPaidByBalance(e) then BalancePaymentOf(e, c) else Ok(None);
            match paid
            case Err(failure) => FailsFor(e, failure)
            case Ok(None) => BalanceIsPaid([], e, c)
            case Ok(Some(p)) => BalanceIsPaid([p], e, c)
  {
    SettledPaymentsMeaning(e.balancePayments);
    var settled := SettledPayments(e.balancePayments);
    if |settled| == 1 && settled[0].currency == e.currency {
      assert {e.currency, c.baseCurrency, e.currency} == {e.currency, c.baseCurrency};
    }
  }

  ghost predicate IsPlanFor(result: Result<Plan, Failure>, e: Expense, c: Context) {
    match result
    case Err(failure) => FailsFor(e, failure)
    case Ok(CreditNotePlan(n)) => IsCreditNoteFor(n, e, c)
    case Ok(BillPlan(b)) => IsBillFor(b, e, c)
  }

  lemma {:induction false} CreditNotePlanMeaning(e: Expense, c: Context, cards: seq<NewPayment>, lines: seq<NewLine>)
    requires e.currency != "" && SameCurrency(e.transactions) && IsCredit(e)
    requires CardPayments(e.transactions, c.bankAccountOf(PaymentCurrency(e))) == Ok(cards)
    requires ExtractedLineItems(e, TotalAmount(e, cards), PaymentCurrency(e), c.fxRate) == Ok(lines)
    ensures IsCreditNoteFor(CreditNoteOf(e, c, cards, lines), e, c)
  {
    CardPaymentsAre(e, c.bankAccountOf(PaymentCurrency(e)));
    CardPaymentsTotal(e, c.bankAccountOf(PaymentCurrency(e)));
    ExtractedLinesAreCharges(e, TotalAmount(e, cards), PaymentCurrency(e), c.fxRate);
    ExtractedLinesAre(e, TotalAmount(e, cards), PaymentCurrency(e), c.fxRate);
  }

  lemma {:induction false} BillPlanMeaning(e: Expense, c: Context, cards: seq<NewPayment>, lines: seq<NewLine>, balance: seq<NewPayment>)
    requires e.currency != "" && SameCurrency(e.transactions) && !IsCredit(e)
    requires CardPayments(e.transactions, c.bankAccountOf(PaymentCurrency(e))) == Ok(cards)
    requires ExtractedLineItems(e, TotalAmount(e, cards), PaymentCurrency(e), c.fxRate) == Ok(lines)
    requires BalanceIsPaid(balance, e, c)
    ensures IsBillFor(BillOf(e, c, cards + balance, lines), e, c)
  {
    CardPaymentsAre(e, c.bankAccountOf(PaymentCurrency(e)));
    CardPaymentsTotal(e, c.bankAccountOf(PaymentCurrency(e)));
    ExtractedLinesAreCharges(e, TotalAmount(e, cards), PaymentCurrency(e), c.fxRate);
    ExtractedLinesAre(e, TotalAmount(e, cards), PaymentCurrency(e), c.fxRate);
    var all := cards + balance;
    assert all[..|cards|] == cards && all[|cards|..] == balance;
  }

  lemma {:induction false} PlanMeaning(e: Expense, c: Context)
    ensures IsPlanFor(PlanOf(e, c), e, c)
  {
    var cards := CardPayments(e.transactions, c.bankAccountOf(PaymentCurrency(e)));
    CardPaymentsAre(e, c.bankAccountOf(PaymentCurrency(e)));
    if e.currency != "" && SameCurrency(e.transactions) && cards.Ok? {
      var lines := ExtractedLineItems(e, TotalAmount(e, cards.value), PaymentCurrency(e), c.fxRate);
      ExtractedLinesAre(e, TotalAmount(e, cards.value), PaymentCurrency(e), c.fxRate);
      if lines.Ok? && IsCredit(e) {
        CreditNotePlanMeaning(e, c, cards.value, lines.value);
      } else if lines.Ok? {
        BalancePaymentIs(e, c);
        var paid := if IsPaidByBalance(e) then BalancePaymentOf(e, c) else Ok(None);
        if paid.Ok? {
          BillPlanMeaning(e, c, cards.value, lines.value, if paid.value.Some? then [paid.value.value] else []);
          assert cards.value + [] == cards.value;
        }
      }
    }
  }

  /** `_exportExpense` up to the call that writes to Xero, and what can be relied on then. */
  method PlanExport(e: Expense, c: Context) returns (result: Result<Plan, Failure>)
    ensures result == PlanOf(e, c)
    ensures IsPlanFor(result, e, c)
  {
    result := MakePlan(e, c);
    PlanMeaning(e, c);
  }

  method MakePlan(e: Expense, c: Context) returns (result: Result<Plan, Failure>)
    ensures result == PlanOf(e, c)
  {
    if e.currency == "" {
      return Err(NoCurrency);
    }
    var currency := e.currency;
    var totalAmount := e.total;
    var payments: seq<NewPayment> := [];
    if |e.transactions| > 0 {
      if !SameCurrency(e.transactions) {
        return Err(MixedCurrencies);
      }
      currency := e.transactions[0].cardCurrency;
      totalAmount := Abs(SumAmounts(CardAmounts(e.transactions)));
      var cards := CollectCardPayments(e.transactions, c.bankAccountOf(currency));
      if cards.Err? {
        return Err(cards.error);
      }
      payments := cards.value;
    }
    var totalFees := SumAmounts(FxFees(payments) + PosFees(payments) + BankFees(payments));
    var isCredit := e.total < 0.0;
    if isCredit {
      totalAmount := totalAmount - totalFees;
    }
    var lineItems := ExtractLineItems(e, totalAmount, currency, c.fxRate);
    if lineItems.Err? {
      return Err(lineItems.error);
    }
    if isCredit {
      return Ok(CreditNotePlan(CreditNoteOf(e, c, payments, lineItems.value)));
    }
    if IsPaidByBalance(e) {
      var balancePayment := BalancePaymentOf(e, c);
      if balancePayment.Err? {
        return Err(balancePayment.error);
      }
      if balancePayment.value.Some? {
        payments := payments + [balancePayment.value.value];
      }
    }
    return Ok(BillPlan(BillOf(e, c, payments, lineItems.value)));
  }

  // ---- Rejected balance payments ----

  predicate HasOnlyFailedPayments(e: Expense) {
    e.balancePayments != [] && forall i :: 0 <= i < |e.balancePayments| ==> e.balancePayments[i].status == Rejected
  }

  /** Whether the export first takes back the payment of an existing bill. */
  predicate RevertsPayment(e: Expense) {
    IsPaidByBalance(e) && HasOnlyFailedPayments(e)
  }

  /** The documents without the first payment of the bill with this url. */
  function WithoutFirstPayment(docs: seq<Document>, url: string): seq<Document> {
    var d := Find(docs, url, true);
    if d < |docs| && docs[d].payments != [] then docs[d := docs[d].(payments := docs[d].payments[1..])] else docs
  }

  /** `revertFailedPayment`, as far as the bills go. */
  method RevertFailedPayment(bills: Ledger, url: string) returns (failure: Option<Failure>)
    requires bills.Valid()
    modifies bills
    ensures bills.Valid() && bills.nextPayment == old(bills.nextPayment)
    ensures failure.None? ==> bills.docs == WithoutFirstPayment(old(bills.docs), url)
    ensures failure.Some? ==> failure == Some(Outage) && bills.docs == old(bills.docs) && bills.budget == 0
  {
    var bill := Find(bills.docs, url, true);
    if bill == |bills.docs| || |bills.docs[bill].payments| == 0 {
      return None;
    }
    WithoutFirst(bills.docs[bill].payments, bills.nextPayment);
    var done := bills.DeletePayment(bill, bills.docs[bill].payments[0].id);
    return if done then None else Some(Outage);
  }

  lemma {:induction false} NothingSettled(ps: seq<BalancePayment>)
    requires forall i :: 0 <= i < |ps| ==> ps[i].status == Rejected
    ensures SettledPayments(ps) == []
  {
    if ps == [] {
    } else {
      NothingSettled(ps[1..]);
    }
  }

  /** The documents that `createOrUpdateBill` finds in an export. */
  function StartOfRun(docs: seq<Document>, e: Expense, b: NewBill): seq<Document> {
    if RevertsPayment(e) then WithoutFirstPayment(docs, b.url) else docs
  }

  /** What an export does to the bills: a run of `createOrUpdateBill`, after the payment of an
      expense whose balance payments were all rejected is taken back. */
  ghost predicate RunOfExport(before: seq<Document>, after: seq<Document>, e: Expense, b: NewBill, settings: Settings,
                              dateRefused: bool, next: nat, result: Result<nat, Failure>)
  {
    var start := StartOfRun(before, e, b);
    BillRun(start, after, Find(start, b.url, true), b, settings, dateRefused, next, result)
  }

  /** When all balance payments of an expense were rejected, its bill's first payment is gone after
      any run, completed or not, and no other payment takes its place under its id. */
  lemma {:induction false} RejectedPaymentIsTakenBack(e: Expense, settings: Settings, b: NewBill, docs: seq<Document>, after: seq<Document>,
                                                      dateRefused: bool, next: nat, result: Result<nat, Failure>)
    requires RevertsPayment(e)
    requires var d := Find(docs, b.url, true); d < |docs| && docs[d].payments != [] && DistinctIds(docs[d].payments, next)
    requires RunOfExport(docs, after, e, b, settings, dateRefused, next, result)
    ensures var d := Find(docs, b.url, true); d < |after| && docs[d].payments[0] !in after[d].payments
  {
    var d := Find(docs, b.url, true);
    FirstPaymentIsGone(docs, b.url);
    assert docs[d].payments[0] !in docs[d].payments[1..];
  }

  /** Payments that every run of `createOrUpdateBill` protects, being reconciled or in a locked
      period, are all kept by an export if and only if it takes no rejected payment back. */
  lemma {:induction false} ProtectedPaymentsAreKeptIff(e: Expense, settings: Settings, b: NewBill, docs: seq<Document>, after: seq<Document>,
                                                       dateRefused: bool, next: nat, result: Result<nat, Failure>)
    requires var d := Find(docs, b.url, true);
             && d < |docs| && docs[d].payments != [] && DistinctIds(docs[d].payments, next)
             && (AnyReconciled(Infos(docs[d].payments)) || IsInLockedPeriod(b.time, settings.lockDates))
    requires RunOfExport(docs, after, e, b, settings, dateRefused, next, result)
    ensures PaymentsKept(docs, after, Find(docs, b.url, true)) <==> !RevertsPayment(e)
  {
    if RevertsPayment(e) {
      RejectedPaymentIsTakenBack(e, settings, b, docs, after, dateRefused, next, result);
    }
  }

  /** Without cards nothing else happens: a completed export leaves the bill with exactly the
      payments it had, less the first. */
  lemma {:induction false} RejectedExportWithoutCards(e: Expense, c: Context, settings: Settings, b: NewBill, docs: seq<Document>,
                                                      after: seq<Document>, dateRefused: bool, next: nat, id: nat)
    requires RevertsPayment(e) && e.transactions == [] && PlanOf(e, c) == Ok(BillPlan(b))
    requires var d := Find(docs, b.url, true); d < |docs| && docs[d].payments != []
    requires var start := WithoutFirstPayment(docs, b.url);
             BillRun(start, after, Find(start, b.url, true), b, settings, dateRefused, next, Ok(id))
    ensures id == Find(docs, b.url, true) < |after|
    ensures Infos(after[id].payments) == Infos(docs[id].payments)[1..]
  {
    RejectedPlanPaysNothing(e, c, b);
    FirstPaymentIsGone(docs, b.url);
    RunWithoutPayments(WithoutFirstPayment(docs, b.url), after, b, settings, dateRefused, next, id);
  }

  lemma {:induction false} FirstPaymentIsGone(docs: seq<Document>, url: string)
    requires var d := Find(docs, url, true); d < |docs| && docs[d].payments != []
    ensures var d, start := Find(docs, url, true), WithoutFirstPayment(docs, url);
            && |start| == |docs| && Find(start, url, true) == d
            && start[d].payments == docs[d].payments[1..]
            && Infos(start[d].payments) == Infos(docs[d].payments)[1..]
  {
    SameKeysSameFind(docs, WithoutFirstPayment(docs, url), url);
  }

  lemma {:induction false} RejectedPlanPaysNothing(e: Expense, c: Context, b: NewBill)
    requires RevertsPayment(e) && e.transactions == [] && PlanOf(e, c) == Ok(BillPlan(b))
    ensures b.payments == []
  {
    NothingSettled(e.balancePayments);
  }

  /** A run that has no payments to make leaves those of an existing bill alone. */
  lemma {:induction false} RunWithoutPayments(docs: seq<Document>, after: seq<Document>, b: NewBill, settings: Settings, dateRefused: bool,
                                              next: nat, id: nat)
    requires b.payments == [] && Find(docs, b.url, true) < |docs|
    requires BillRun(docs, after, Find(docs, b.url, true), b, settings, dateRefused, next, Ok(id))
    ensures id == Find(docs, b.url, true) < |after|
    ensures Infos(after[id].payments) == Infos(docs[id].payments)
  {
    ViewWithoutPayments(ViewOf(docs[id]), BillRequest(b, settings), IsInLockedPeriod(b.time, settings.lockDates), dateRefused);
  }

  lemma {:induction false} ViewWithoutPayments(v: View, r: Request, locked: bool, dateRefused: bool)
    requires r.payments == [] && r.expectedPayments == 0
    ensures BillAfter(Some(v), r, locked, dateRefused).payments == v.payments
  {
    assert v.payments + [] == v.payments;
  }

  lemma {:induction false} SameKeysSameFind(docs: seq<Document>, others: seq<Document>, key: string)
    requires |docs| == |others|
    requires forall i :: 0 <= i < |docs| ==> docs[i].key == others[i].key && docs[i].life == others[i].life
    ensures Find(docs, key, true) == Find(others, key, true)
  {
  }

  /** `_exportExpense`: bills and credit notes live in different parts of Xero. */
  method ExportExpense(e: Expense, c: Context, settings: Settings, bills: Ledger, notes: Ledger) returns (result: Result<nat, Failure>)
    requires bills != notes && bills.Valid() && notes.Valid()
    modifies bills, notes
    ensures bills.Valid() && notes.Valid()
    ensures match PlanOf(e, c)
            case Err(failure) => result == Err(failure) && bills.docs == old(bills.docs) && notes.docs == old(notes.docs)
            case Ok(BillPlan(b)) =>
              && notes.docs == old(notes.docs)
              && (|| RunOfExport(old(bills.docs), bills.docs, e, b, settings,
                                 bills.rejects(BillRequest(b, settings).model) == Some(DateInLockedPeriod), old(bills.nextPayment), result)
                  || (RevertsPayment(e) && result == Err(Outage) && bills.docs == old(bills.docs) && bills.budget == 0))
            case Ok(CreditNotePlan(n)) =>
              && bills.docs == old(bills.docs)
              && CreditNoteRun(old(notes.docs), notes.docs, Find(old(notes.docs), n.creditNoteNumber, false), n, settings,
                               notes.rejects(CreditNoteRequest(n, settings).model) == Some(DateInLockedPeriod), result)
  {
    var plan := PlanExport(e, c);
    match plan
    case Err(failure) => return Err(failure);
    case Ok(CreditNotePlan(n)) => result := CreateOrUpdateCreditNote(notes, n, settings);
    case Ok(BillPlan(b)) =>
      if RevertsPayment(e) {
        var failure := RevertFailedPayment(bills, b.url);
        if failure.Some? {
          return Err(failure.value);
        }
      }
      result := CreateOrUpdateBill(bills, b, settings);
  }
}
