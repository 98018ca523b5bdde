/** Exporting an expense again: from the expense itself to the documents in Xero. */
module ExpenseReExport {
  import opened Basics
  import opened Documents
  import opened Ledgers
  import opened XeroEntities
  import opened ReExport
  import opened ExpenseExport
  import opened Balance

  lemma {:induction false} SettledBillHasPayments(e: Expense, c: Context, b: NewBill)
    requires PlanOf(e, c) == Ok(BillPlan(b)) && (SettledByCards(e) || SettledByBalance(e))
    ensures b.payments != [] && !RevertsPayment(e)
  {
    PlanMeaning(e, c);
    if SettledByBalance(e) {
      BalanceBillPayments(e, c, b);
      assert |{e.currency, c.baseCurrency, e.currency}| <= 2 by {
        assert {e.currency, c.baseCurrency, e.currency} == {e.currency, c.baseCurrency};
      }
      if HasOnlyFailedPayments(e) {
        NothingSettled(e.balancePayments);
      }
    }
  }

  /** A new bill of a paid, settled expense in whole cents can be exported again if and only if
      the lines match the total; it is PAID then. */
  lemma {:induction false} ExpenseReExportIsSafeIff(e: Expense, c: Context, settings: Settings, b: NewBill, docs: seq<Document>, dateRefused: bool)
    requires PlanOf(e, c) == Ok(BillPlan(b)) && e.isPaid && settings.fees.code != ""
    requires SettledByCards(e) || SettledByBalance(e)
    requires Find(docs, b.url, true) == |docs| && !IsInLockedPeriod(b.time, settings.lockDates)
    ensures BillRepeatsIn(docs, b, settings, dateRefused) <==> LinesMatch(e, GrossTotal(e))
    ensures ViewStatus(Created(BillRequest(b, settings))) == PAID <==> LinesMatch(e, GrossTotal(e))
    ensures !RevertsPayment(e)
  {
    SettledBillHasPayments(e, c, b);
    ExpenseBillIsBalancedIff(e, c, settings, b);
  }

  /** The same for a new credit note of refunds. */
  lemma {:induction false} RefundReExportIsSafeIff(e: Expense, c: Context, settings: Settings, n: NewCreditNote, docs: seq<Document>, dateRefused: bool)
    requires PlanOf(e, c) == Ok(CreditNotePlan(n)) && RefundedByCards(e)
    requires Find(docs, n.creditNoteNumber, false) == |docs| && !IsInLockedPeriod(n.time, settings.lockDates)
    ensures NoteRepeatsIn(docs, n, settings, dateRefused) <==> RefundsMatch(e)
    ensures ViewStatus(Created(CreditNoteRequest(n, settings))) == PAID <==> RefundsMatch(e)
  {
    PlanMeaning(e, c);
    ExpenseCreditNoteIsBalancedIff(e, c, settings, n);
  }

  // ---- Expenses whose balance payments were all rejected ----

  lemma {:induction false} StartOfRunView(docs: seq<Document>, e: Expense, b: NewBill)
    ensures var d, start := Find(docs, b.url, true), StartOfRun(docs, e, b);
            && Find(start, b.url, true) == d && |start| == |docs|
            && (forall i :: 0 <= i < |docs| && i != d ==> start[i] == docs[i])
            && (d < |docs| ==> start[d].key == docs[d].key
                               && ViewOf(start[d]) == if RevertsPayment(e) then WithoutFirstOf(ViewOf(docs[d])) else ViewOf(docs[d]))
  {
    var d, start := Find(docs, b.url, true), StartOfRun(docs, e, b);
    SameKeysSameFind(docs, start, b.url);
    if RevertsPayment(e) && d < |docs| && docs[d].payments != [] {
      FirstPaymentIsGone(docs, b.url);
    }
  }

  /** Whether a second export of a bill leaves what the first one does. */
  ghost predicate BillExportRepeats(docs: seq<Document>, e: Expense, b: NewBill, settings: Settings, dateRefused: bool) {
    if RevertsPayment(e) then
      RevertingBillRepeats(ViewAt(docs, Find(docs, b.url, true)), BillRequest(b, settings),
                           IsInLockedPeriod(b.time, settings.lockDates), dateRefused)
    else BillRepeatsIn(docs, b, settings, dateRefused)
  }

  lemma {:induction false} PaidRequestPaysAll(e: Expense, c: Context, b: NewBill, settings: Settings)
    requires PlanOf(e, c) == Ok(BillPlan(b)) && e.isPaid
    ensures |BillRequest(b, settings).payments| == BillRequest(b, settings).expectedPayments
  {
  }

  /** What a run of the export makes of the bill it finds. */
  lemma {:induction false} RevertingRunView(docs: seq<Document>, after: seq<Document>, e: Expense, b: NewBill, settings: Settings,
                                            dateRefused: bool, next: nat, id: nat)
    requires RevertsPayment(e) && RunOfExport(docs, after, e, b, settings, dateRefused, next, Ok(id))
    ensures var d := Find(docs, b.url, true);
            && d < |after| && after[d].key == b.url && OnlyDocument(StartOfRun(docs, e, b), after, d)
            && ViewOf(after[d]) == BillAfterReverting(ViewAt(docs, d), BillRequest(b, settings),
                                                      IsInLockedPeriod(b.time, settings.lockDates), dateRefused)
  {
    StartOfRunView(docs, e, b);
  }

  /** With a payment taken back at each run: on the ledger, the state after the first run is kept by
      the next if and only if the condition holds. */
  lemma {:induction false} LaterRevertingRunIff(before: seq<Document>, docs: seq<Document>, after: seq<Document>, e: Expense, c: Context,
                                                b: NewBill, settings: Settings, dateRefused: bool, next: nat, id: nat)
    requires PlanOf(e, c) == Ok(BillPlan(b)) && RevertsPayment(e)
    requires BillExportedOnce(StartOfRun(before, e, b), docs, b, settings, dateRefused)
    requires RunOfExport(docs, after, e, b, settings, dateRefused, next, Ok(id))
    ensures BillExportedOnce(StartOfRun(before, e, b), after, b, settings, dateRefused)
       <==> BillExportRepeats(before, e, b, settings, dateRefused)
  {
    var d, start := Find(before, b.url, true), StartOfRun(before, e, b);
    StartOfRunView(before, e, b);
    ExportedBillIsFound(start, docs, b, settings, dateRefused);
    StartOfRunView(docs, e, b);
    RevertingRunView(docs, after, e, b, settings, dateRefused, next, id);
    BillRequestsArePlain(b, settings);
    PaidRequestPaysAll(e, c, b, settings);
    RevertingSecondRunIff(ViewAt(before, d), BillRequest(b, settings), IsInLockedPeriod(b.time, settings.lockDates), dateRefused);
    RevertedOnlyDocument(start, docs, StartOfRun(docs, e, b), after, d);
  }

  lemma {:induction false} RevertedOnlyDocument(before: seq<Document>, docs: seq<Document>, start: seq<Document>, after: seq<Document>, d: nat)
    requires OnlyDocument(before, docs, d) && d < |docs| == |start| && OnlyDocument(start, after, d)
    requires start[d].key == docs[d].key && forall i :: 0 <= i < |docs| && i != d ==> start[i] == docs[i]
    ensures OnlyDocument(before, after, d)
  {
  }

  /** Without cards, and for an existing bill, that means: it had one payment at most. */
  lemma {:induction false} RejectedExportRepeatsIff(docs: seq<Document>, e: Expense, c: Context, b: NewBill, settings: Settings, dateRefused: bool)
    requires PlanOf(e, c) == Ok(BillPlan(b)) && RevertsPayment(e) && e.transactions == []
    requires Find(docs, b.url, true) < |docs|
    ensures BillExportRepeats(docs, e, b, settings, dateRefused) <==> |docs[Find(docs, b.url, true)].payments| <= 1
  {
    RejectedPlanPaysNothing(e, c, b);
  }

  /** The bill has the payments it had, less the first n. */
  ghost predicate PaymentsLeft(before: seq<Document>, docs: seq<Document>, b: NewBill, n: nat) {
    var d := Find(before, b.url, true);
    d < |before| ==>
      && d < |docs| && Find(docs, b.url, true) == d
      && Infos(docs[d].payments) == if n <= |before[d].payments| then Infos(before[d].payments)[n..] else []
  }

  lemma {:induction false} OnePaymentFewer(before: seq<Document>, docs: seq<Document>, after: seq<Document>, e: Expense, c: Context, b: NewBill,
                                           settings: Settings, dateRefused: bool, next: nat, id: nat, n: nat)
    requires PlanOf(e, c) == Ok(BillPlan(b)) && RevertsPayment(e) && e.transactions == []
    requires PaymentsLeft(before, docs, b, n) && RunOfExport(docs, after, e, b, settings, dateRefused, next, Ok(id))
    ensures PaymentsLeft(before, after, b, n + 1)
  {
    var d, start := Find(before, b.url, true), StartOfRun(docs, e, b);
    if d < |before| {
      RejectedPlanPaysNothing(e, c, b);
      StartOfRunView(docs, e, b);
      RunWithoutPayments(start, after, b, settings, dateRefused, next, id);
      FirstBillRun(start, after, b, settings, dateRefused, next, id);
      ExportedBillIsFound(start, after, b, settings, dateRefused);
      var was := Infos(before[d].payments);
      if n < |was| {
        assert was[n..][1..] == was[n + 1..];
      }
    }
  }

  // ---- Any expense ----

  /** What any number of completed exports of an expense leaves of the bills and credit notes. */
  ghost predicate ExportedOnce(bills: seq<Document>, billsAfter: seq<Document>, notes: seq<Document>, notesAfter: seq<Document>,
                               e: Expense, plan: Plan, settings: Settings, dateRefused: bool)
  {
    match plan
    case BillPlan(b) => notesAfter == notes && BillExportedOnce(StartOfRun(bills, e, b), billsAfter, b, settings, dateRefused)
    case CreditNotePlan(n) => billsAfter == bills && NoteExportedOnce(notes, notesAfter, n, settings, dateRefused)
  }

  /** Whether a second export of the expense leaves what the first one does. */
  ghost predicate Repeats(bills: seq<Document>, notes: seq<Document>, e: Expense, plan: Plan, settings: Settings, dateRefused: bool) {
    match plan
    case BillPlan(b) => BillExportRepeats(bills, e, b, settings, dateRefused)
    case CreditNotePlan(n) => NoteRepeatsIn(notes, n, settings, dateRefused)
  }

  /** The exports take a payment back each time and make none. */
  ghost predicate OnlyReverts(e: Expense, plan: Plan) {
    plan.BillPlan? && RevertsPayment(e) && e.transactions == []
  }

  ghost function DateRefused(plan: Plan, settings: Settings, bills: Ledger, notes: Ledger): bool {
    match plan
    case BillPlan(b) => bills.rejects(BillRequest(b, settings).model) == Some(DateInLockedPeriod)
    case CreditNotePlan(n) => notes.rejects(CreditNoteRequest(n, settings).model) == Some(DateInLockedPeriod)
  }

  lemma {:induction false} LaterExportIff(bills: seq<Document>, billDocs: seq<Document>, billsAfter: seq<Document>, e: Expense, c: Context,
                                          b: NewBill, settings: Settings, dateRefused: bool, next: nat, id: nat)
    requires PlanOf(e, c) == Ok(BillPlan(b))
    requires BillExportedOnce(StartOfRun(bills, e, b), billDocs, b, settings, dateRefused)
    requires RunOfExport(billDocs, billsAfter, e, b, settings, dateRefused, next, Ok(id))
    ensures BillExportedOnce(StartOfRun(bills, e, b), billsAfter, b, settings, dateRefused)
       <==> BillExportRepeats(bills, e, b, settings, dateRefused)
  {
    if RevertsPayment(e) {
      LaterRevertingRunIff(bills, billDocs, billsAfter, e, c, b, settings, dateRefused, next, id);
    } else {
      LaterBillRunIff(bills, billDocs, billsAfter, b, settings, dateRefused, next, id);
    }
  }

  /** One more export; `isFirst` and `isKnown` say what is known about the documents it finds, `n`
      how many exports there have been. */
  method ExportAgain(e: Expense, c: Context, settings: Settings, bills: Ledger, notes: Ledger, plan: Plan,
                     ghost firstBills: seq<Document>, ghost firstNotes: seq<Document>, ghost isFirst: bool, ghost isKnown: bool, ghost n: nat)
    returns (result: Result<nat, Failure>)
    requires bills != notes && bills.Valid() && notes.Valid()
    requires PlanOf(e, c) == Ok(plan)
    requires isFirst ==> isKnown && bills.docs == firstBills && notes.docs == firstNotes
    requires isKnown && !isFirst ==>
               ExportedOnce(firstBills, bills.docs, firstNotes, notes.docs, e, plan, settings, DateRefused(plan, settings, bills, notes))
    requires OnlyReverts(e, plan) ==> PaymentsLeft(firstBills, bills.docs, plan.bill, n)
    modifies bills, notes
    ensures bills.Valid() && notes.Valid()
    ensures result.Ok? && isKnown ==>
              (ExportedOnce(firstBills, bills.docs, firstNotes, notes.docs, e, plan, settings, DateRefused(plan, settings, bills, notes))
               <==> isFirst || Repeats(firstBills, firstNotes, e, plan, settings, DateRefused(plan, settings, bills, notes)))
    ensures result.Ok? && OnlyReverts(e, plan) ==> PaymentsLeft(firstBills, bills.docs, plan.bill, n + 1)
  {
    ghost var billDocs, noteDocs, next := bills.docs, notes.docs, bills.nextPayment;
    ghost var dateRefused := DateRefused(plan, settings, bills, notes);
    result := ExportExpense(e, c, settings, bills, notes);
    if result.Ok? {
      match plan
      case BillPlan(b) =>
        if OnlyReverts(e, plan) {
          OnePaymentFewer(firstBills, billDocs, bills.docs, e, c, b, settings, dateRefused, next, result.value, n);
        }
        if isFirst {
          FirstBillRun(StartOfRun(firstBills, e, b), bills.docs, b, settings, dateRefused, next, result.value);
        } else if isKnown {
          LaterExportIff(firstBills, billDocs, bills.docs, e, c, b, settings, dateRefused, next, result.value);
        }
      case CreditNotePlan(note) =>
        if isFirst {
          FirstNoteRun(firstNotes, notes.docs, note, settings, dateRefused, result.value);
        } else if isKnown {
          LaterNoteRunIff(firstNotes, noteDocs, notes.docs, note, settings, dateRefused, result.value);
        }
    }
  }

  /** Any number of completed exports of an expense leave exactly what one leaves, if and only if
      the condition holds of the documents they start from. Exports that only take payments back
      leave the bill's payments less one for each. */
  method ExportExpenseRepeatedly(e: Expense, c: Context, settings: Settings, bills: Ledger, notes: Ledger, runs: nat) returns (completed: bool)
    requires bills != notes && bills.Valid() && notes.Valid()
    modifies bills, notes
    ensures bills.Valid() && notes.Valid()
    ensures match PlanOf(e, c)
            case Err(_) => completed == (runs == 0) && bills.docs == old(bills.docs) && notes.docs == old(notes.docs)
            case Ok(plan) =>
              var dateRefused := DateRefused(plan, settings, bills, notes);
              var repeats := Repeats(old(bills.docs), old(notes.docs), e, plan, settings, dateRefused);
              completed ==>
                && (runs > 0 && repeats ==> ExportedOnce(old(bills.docs), bills.docs, old(notes.docs), notes.docs, e, plan, settings, dateRefused))
                && (runs == 2 && !repeats ==> !ExportedOnce(old(bills.docs), bills.docs, old(notes.docs), notes.docs, e, plan, settings, dateRefused))
                && (OnlyReverts(e, plan) ==> PaymentsLeft(old(bills.docs), bills.docs, plan.bill, runs))
  {
    var plan := PlanExport(e, c);
    if plan.Err? {
      if runs > 0 {
        var refused := ExportExpense(e, c, settings, bills, notes);
      }
      return runs == 0;
    }
    ghost var firstBills, firstNotes := bills.docs, notes.docs;
    ghost var dateRefused := DateRefused(plan.value, settings, bills, notes);
    ghost var repeats := Repeats(firstBills, firstNotes, e, plan.value, settings, dateRefused);
    for i := 0 to runs
      invariant bills.Valid() && notes.Valid()
      invariant i == 0 ==> bills.docs == firstBills && notes.docs == firstNotes
      invariant i == 1 || (i > 1 && repeats) ==> ExportedOnce(firstBills, bills.docs, firstNotes, notes.docs, e, plan.value, settings, dateRefused)
      invariant i == 2 && !repeats ==> !ExportedOnce(firstBills, bills.docs, firstNotes, notes.docs, e, plan.value, settings, dateRefused)
      invariant OnlyReverts(e, plan.value) ==> PaymentsLeft(firstBills, bills.docs, plan.value.bill, i)
    {
      var result := ExportAgain(e, c, settings, bills, notes, plan.value, firstBills, firstNotes, i == 0, i < 2 || repeats, i);
      if result.Err? {
        return false;
      }
    }
    return true;
  }
}
