/** `deleteExpense` (src/managers/integration/Manager.ts): an expense is deleted by the url of its
    bill, built without the expense's date. */
module ExpenseDeletion {
  import opened Basics
  import opened Documents
  import opened Ledgers
  import opened CreditNotes
  import opened ExpenseExport

  function DeletionUrl(c: Context, expenseId: string): string {
    ExpenseUrl(c, expenseId, None)
  }

  /** The bill of an expense is voided, and its payments are deleted if they settle it and none of
      them is reconciled. A document under any other url is untouched. */
  method DeleteExpense(bills: Ledger, c: Context, expenseId: string) returns (failure: Option<Failure>)
    requires bills.Valid()
    modifies bills
    ensures bills.Valid()
    ensures forall i :: 0 <= i < |old(bills.docs)| && old(bills.docs)[i].key != DeletionUrl(c, expenseId) ==>
              i < |bills.docs| && bills.docs[i] == old(bills.docs)[i]
    ensures var before, d := old(bills.docs), Find(old(bills.docs), DeletionUrl(c, expenseId), true);
            && |bills.docs| == |before|
            && (d == |before| ==> failure.None? && bills.docs == before)
            && (d < |before| && failure.None? ==> bills.docs[d].life == Voided)
            && (d < |before| && AnyReconciled(Infos(before[d].payments)) ==> bills.docs[d].payments == before[d].payments)
  {
    ghost var before := bills.docs;
    failure := DeleteDocument(bills, DeletionUrl(c, expenseId), true);
  }

  /** The url used for exporting is the one used for deleting exactly from 29 January 2020 on. */
  lemma {:induction false} DeletionUrlIff(c: Context, expenseId: string, time: int)
    ensures ExpenseUrl(c, expenseId, Some(time)) == DeletionUrl(c, expenseId) <==> time >= TIME_AT_PARAM_CHANGE
  {
    if time < TIME_AT_PARAM_CHANGE {
      assert |AccountIdQueryParam(Some(time))| > |AccountIdQueryParam(None)|;
    }
  }

  /** A deletion finds the bill that an export made exactly when the expense is dated from that
      day on; an older bill stays, and the deletion reports no failure. */
  lemma {:induction false} DeletionFindsTheBillIff(before: seq<Document>, bill: Document, c: Context, e: Expense)
    requires bill.key == ExpenseUrl(c, e.id, Some(e.time)) && bill.life != Deleted
    requires Find(before, DeletionUrl(c, e.id), true) == |before|
    ensures Find(before + [bill], DeletionUrl(c, e.id), true) == |before| <==> e.time >= TIME_AT_PARAM_CHANGE
    ensures Find(before + [bill], DeletionUrl(c, e.id), true) == |before| + 1 <==> e.time < TIME_AT_PARAM_CHANGE
  {
    var docs := before + [bill];
    DeletionUrlIff(c, e.id, e.time);
    assert forall i :: 0 <= i < |before| ==> docs[i] == before[i];
    assert docs[|before|] == bill;
  }
}
