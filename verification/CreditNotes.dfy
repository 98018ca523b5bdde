/** src/managers/xero-entities/Manager.ts: credit notes, and the deletion of either kind of
    document. A credit note is looked up by number, whatever its status. */
module CreditNotes {
  import opened Basics
  import opened Documents
  import opened Ledgers
  import opened XeroEntities

  /** What one run of `createOrUpdateCreditNote` may do, document d being the note's. */
  ghost predicate CreditNoteRun(before: seq<Document>, after: seq<Document>, d: nat, n: NewCreditNote, settings: Settings,
                                dateRefused: bool, result: Result<nat, Failure>)
  {
    var r, locked := CreditNoteRequest(n, settings), IsInLockedPeriod(n.time, settings.lockDates);
    && OnlyDocument(before, after, d)
    && AttachmentsOk(before, after, d, n.files)
    && (d < |after| ==> after[d].key == n.creditNoteNumber)
    && (result.Ok? ==> result.value == d < |after| && ViewOf(after[d]) == CreditNoteAfter(ViewAt(before, d), r, locked, dateRefused))
    && (d < |before| && !locked && before[d].life != Live ==> result == Ok(d) && after == before)
    && (locked ==> && PaymentsKept(before, after, d) && ContentKept(before, after, d)
                   && (d == |before| ==> result == Err(LockedPeriod) && after == before))
  }

  ghost predicate CreditNoteRunFailed(before: seq<Document>, n: NewCreditNote, settings: Settings, rejected: Option<Failure>,
                                      budget: nat, failure: Failure)
  {
    var d := Find(before, n.creditNoteNumber, false);
    || (failure == LockedPeriod && IsInLockedPeriod(n.time, settings.lockDates) && d == |before|)
    || SendingFailed(failure, GetCreditNoteData(n, settings), rejected, budget)
    || AttachingFailed(failure, if d < |before| then before[d].attachments else [], n.files, budget)
  }

  // ---- What a completed run leaves, in terms of the note that was asked for ----

  ghost predicate NoteIsShown(before: seq<Document>, after: seq<Document>, d: nat, n: NewCreditNote, settings: Settings, dateRefused: bool) {
    && d < |after| && d <= |before|
    && if d == |before| then
         && after[d].life == Live && ShowsCreditNote(after[d].content, n, settings)
         && ShowsPayments(Infos(after[d].payments), n.payments, true)
         && (forall f :: f in after[d].attachments <==> f in n.files)
       else if IsInLockedPeriod(n.time, settings.lockDates) then LockedNoteIsShown(before[d], after[d], n)
       else if before[d].life != Live then after == before
       else ExistingNoteIsShown(before[d], after[d], n, settings, dateRefused)
  }

  ghost predicate LockedNoteIsShown(before: Document, after: Document, n: NewCreditNote) {
    && after.content == before.content
    && (if before.payments != [] then Infos(after.payments) == Infos(before.payments)
        else ShowsPayments(Infos(after.payments), n.payments, true))
    && (forall f :: f in after.attachments <==> f in before.attachments || f in n.files)
  }

  ghost predicate ExistingNoteIsShown(before: Document, after: Document, n: NewCreditNote, settings: Settings, dateRefused: bool) {
    var kept := if DocumentStatus(before) == PAID then 0 else |before.payments|;
    && (if dateRefused then after.content == before.content else ShowsCreditNote(after.content, n, settings))
    && kept <= |after.payments|
    && Infos(after.payments)[..kept] == Infos(before.payments)[..kept]
    && ShowsPayments(Infos(after.payments)[kept..], n.payments, true)
    && (forall f :: f in after.attachments <==> f in before.attachments || f in n.files)
  }

  lemma {:induction false} CreatedNoteIsShown(after: Document, n: NewCreditNote, settings: Settings)
    requires ViewOf(after) == Created(CreditNoteRequest(n, settings))
    ensures after.life == Live && ShowsCreditNote(after.content, n, settings)
    ensures ShowsPayments(Infos(after.payments), n.payments, true)
    ensures forall f :: f in after.attachments <==> f in n.files
  {
    CreditNoteRequestShows(n, settings);
    PaymentsAreShown(n.payments);
    AttachAllMeaning([], n.files);
  }

  lemma {:induction false} UpdatedNoteIsShown(before: Document, after: Document, n: NewCreditNote, settings: Settings, locked: bool, dateRefused: bool)
    requires ViewOf(after) == Updated(ViewOf(before), CreditNoteRequest(n, settings), locked, dateRefused)
    ensures if locked then LockedNoteIsShown(before, after, n) else ExistingNoteIsShown(before, after, n, settings, dateRefused)
  {
    CreditNoteRequestShows(n, settings);
    PaymentsAreShown(n.payments);
    AttachAllMeaning(before.attachments, n.files);
    AppendedPayments(if DocumentStatus(before) == PAID then [] else Infos(before.payments), CreditNoteRequest(n, settings).payments);
  }

  lemma {:induction false} CompletedNoteIsShown(before: seq<Document>, after: seq<Document>, d: nat, n: NewCreditNote, settings: Settings,
                                                dateRefused: bool, id: nat)
    requires d == Find(before, n.creditNoteNumber, false) && CreditNoteRun(before, after, d, n, settings, dateRefused, Ok(id))
    ensures NoteIsShown(before, after, d, n, settings, dateRefused)
  {
    if d == |before| {
      CreatedNoteIsShown(after[d], n, settings);
    } else {
      var locked := IsInLockedPeriod(n.time, settings.lockDates);
      if locked || before[d].life == Live {
        UpdatedNoteIsShown(before[d], after[d], n, settings, locked, dateRefused);
      }
    }
  }

  // ---- The runs ----

  lemma {:induction false} NewCreditNoteRun(before: seq<Document>, after: seq<Document>, n: NewCreditNote, settings: Settings, next: nat,
                                             result: Result<nat, Failure>)
    requires !IsInLockedPeriod(n.time, settings.lockDates)
    requires var r := CreditNoteRequest(n, settings);
             AttachedAndPaid(before + [Document(n.creditNoteNumber, Live, r.model, [], [])], after, |before|, n.files, r.payments, result.Err?, next)
    requires result.Ok? ==> result.value == |before|
    ensures CreditNoteRun(before, after, |before|, n, settings, false, result)
  {
    var r := CreditNoteRequest(n, settings);
    var created := before + [Document(n.creditNoteNumber, Live, r.model, [], [])];
    assert forall i :: 0 <= i < |before| ==> created[i] == before[i];
    assert Infos(created[|before|].payments) == [];
  }

  lemma {:induction false} ExistingCreditNoteRun(before: seq<Document>, mid: seq<Document>, after: seq<Document>, d: nat, n: NewCreditNote,
                              settings: Settings, dateRefused: bool, next: nat, result: Result<nat, Failure>)
    requires d < |before| && before[d].key == n.creditNoteNumber
    requires var r, v, locked := CreditNoteRequest(n, settings), ViewOf(before[d]), IsInLockedPeriod(n.time, settings.lockDates);
             && (!locked ==> v.life == Live)
             && mid == before[d := before[d].(
                  content := if locked || dateRefused then v.content else r.model,
                  payments := if !locked && IsPaidWithPayments(v) then [] else before[d].payments)]
             && AttachedAndPaid(mid, after, d, n.files, if locked && v.payments != [] then [] else r.payments, result.Err?, next)
    requires result.Ok? ==> result.value == d
    ensures CreditNoteRun(before, after, d, n, settings, dateRefused, result)
  {
    assert Infos(mid[d].payments) == if mid[d].payments == [] then [] else Infos(before[d].payments);
  }

  lemma {:induction false} ReturnedCreditNoteRun(before: seq<Document>, after: seq<Document>, d: nat, n: NewCreditNote, settings: Settings,
                              dateRefused: bool, result: Result<nat, Failure>)
    requires d < |before| && before[d].key == n.creditNoteNumber && !IsInLockedPeriod(n.time, settings.lockDates)
    requires match result
             case Ok(id) => id == d && before[d].life != Live && after == before
             case Err(_) => before[d].life == Live && d < |after| && after == before[d := before[d].(payments := after[d].payments)]
    ensures CreditNoteRun(before, after, d, n, settings, dateRefused, result)
  {
    NothingUploaded(before[d].attachments, n.files);
  }

  /** An existing note outside a locked period: payments that settle it are deleted unseen. */
  method ReconcileCreditNote(ledger: Ledger, d: nat, n: NewCreditNote, settings: Settings) returns (progress: Progress)
    requires ledger.Valid() && d < |ledger.docs|
    modifies ledger
    ensures ledger.Valid() && ledger.nextPayment == old(ledger.nextPayment)
    ensures var v, model := ViewOf(old(ledger.docs)[d]), CreditNoteRequest(n, settings).model;
            match progress
            case Continue =>
              && v.life == Live
              && ledger.docs == old(ledger.docs)[d := old(ledger.docs)[d].(
                   content := if ledger.rejects(model) == Some(DateInLockedPeriod) then v.content else model,
                   payments := if IsPaidWithPayments(v) then [] else old(ledger.docs)[d].payments)]
            case Return(Ok(id)) => id == d && v.life != Live && ledger.docs == old(ledger.docs)
            case Return(Err(failure)) =>
              && v.life == Live && d < |ledger.docs|
              && ledger.docs == old(ledger.docs)[d := old(ledger.docs)[d].(payments := ledger.docs[d].payments)]
              && SendingFailed(failure, GetCreditNoteData(n, settings), ledger.rejects(model), ledger.budget)
  {
    var note := ledger.docs[d];
    ghost var left := if IsPaidWithPayments(ViewOf(note)) then [] else note.payments;
    if note.life == Voided || note.life == Deleted {
      return Return(Ok(d));
    }
    if DocumentStatus(note) == PAID && |note.payments| > 0 {
      var done; ghost var deleted;
      done, deleted := DeletePayments(ledger, d);
      if !done {
        return Return(Err(Outage));
      }
    }
    assert ledger.docs == old(ledger.docs)[d := note.(payments := left)];
    var failure := UpdateDocument(ledger, d, GetCreditNoteData(n, settings), settings);
    return if failure.Some? then Return(Err(failure.value)) else Continue;
  }

  /** `createOrUpdateCreditNote` for a number that no note has. */
  method CreateNewCreditNote(ledger: Ledger, n: NewCreditNote, settings: Settings) returns (result: Result<nat, Failure>)
    requires ledger.Valid() && Find(ledger.docs, n.creditNoteNumber, false) == |ledger.docs|
    modifies ledger
    ensures ledger.Valid()
    ensures CreditNoteRun(old(ledger.docs), ledger.docs, |old(ledger.docs)|, n, settings,
                          ledger.rejects(CreditNoteRequest(n, settings).model) == Some(DateInLockedPeriod), result)
    ensures result.Err? ==> CreditNoteRunFailed(old(ledger.docs), n, settings, ledger.rejects(CreditNoteRequest(n, settings).model),
                                                ledger.budget, result.error)
  {
    ghost var before, next := ledger.docs, ledger.nextPayment;
    if IsInLockedPeriod(n.time, settings.lockDates) {
      return Err(LockedPeriod);
    }
    result := CreateDocument(ledger, n.creditNoteNumber, GetCreditNoteData(n, settings), settings);
    if result.Ok? {
      var note := result.value;
      var failure := AttachAndPay(ledger, note, n.files, CreditNotePayments(n.payments), false);
      result := if failure.Some? then Err(failure.value) else Ok(note);
      NewCreditNoteRun(before, ledger.docs, n, settings, next, result);
    }
  }

  /** `createOrUpdateCreditNote` for an existing note. */
  method UpdateExistingCreditNote(ledger: Ledger, note: nat, n: NewCreditNote, settings: Settings) returns (result: Result<nat, Failure>)
    requires ledger.Valid() && note == Find(ledger.docs, n.creditNoteNumber, false) < |ledger.docs|
    modifies ledger
    ensures ledger.Valid()
    ensures CreditNoteRun(old(ledger.docs), ledger.docs, note, n, settings,
                          ledger.rejects(CreditNoteRequest(n, settings).model) == Some(DateInLockedPeriod), result)
    ensures result.Err? ==> CreditNoteRunFailed(old(ledger.docs), n, settings, ledger.rejects(CreditNoteRequest(n, settings).model),
                                                ledger.budget, result.error)
  {
    ghost var before, next := ledger.docs, ledger.nextPayment;
    ghost var dateRefused := ledger.rejects(CreditNoteRequest(n, settings).model) == Some(DateInLockedPeriod);
    var isInLockedPeriod := IsInLockedPeriod(n.time, settings.lockDates);
    var keepPayments := isInLockedPeriod && |ledger.docs[note].payments| > 0;
    if !isInLockedPeriod {
      var progress := ReconcileCreditNote(ledger, note, n, settings);
      if progress.Return? {
        ReturnedCreditNoteRun(before, ledger.docs, note, n, settings, dateRefused, progress.result);
        return progress.result;
      }
    }
    ghost var mid := ledger.docs;
    var failure := AttachAndPay(ledger, note, n.files, CreditNotePayments(n.payments), keepPayments);
    result := if failure.Some? then Err(failure.value) else Ok(note);
    ExistingCreditNoteRun(before, mid, ledger.docs, note, n, settings, dateRefused, next, result);
  }

  /** `createOrUpdateCreditNote` */
  method CreateOrUpdateCreditNote(ledger: Ledger, n: NewCreditNote, settings: Settings) returns (result: Result<nat, Failure>)
    requires ledger.Valid()
    modifies ledger
    ensures ledger.Valid()
    ensures CreditNoteRun(old(ledger.docs), ledger.docs, Find(old(ledger.docs), n.creditNoteNumber, false), n, settings,
                          ledger.rejects(CreditNoteRequest(n, settings).model) == Some(DateInLockedPeriod), result)
    ensures result.Ok? ==> NoteIsShown(old(ledger.docs), ledger.docs, Find(old(ledger.docs), n.creditNoteNumber, false), n, settings,
                                       ledger.rejects(CreditNoteRequest(n, settings).model) == Some(DateInLockedPeriod))
    ensures result.Err? ==> CreditNoteRunFailed(old(ledger.docs), n, settings, ledger.rejects(CreditNoteRequest(n, settings).model),
                                                ledger.budget, result.error)
  {
    ghost var before := ledger.docs;
    var note := Find(ledger.docs, n.creditNoteNumber, false);
    if note == |ledger.docs| {
      result := CreateNewCreditNote(ledger, n, settings);
    } else {
      result := UpdateExistingCreditNote(ledger, note, n, settings);
    }
    if result.Ok? {
      CompletedNoteIsShown(before, ledger.docs, note, n, settings,
                           ledger.rejects(CreditNoteRequest(n, settings).model) == Some(DateInLockedPeriod), result.value);
    }
  }

  /** A completed run loses the reconciled payments of an existing note exactly when the note is
      live, outside a locked period and settled: reconciliation is not looked at. */
  lemma {:induction false} ReconciledPaymentsOfCreditNotesAreLostIff(v: View, n: NewCreditNote, settings: Settings, locked: bool, dateRefused: bool)
    requires AnyReconciled(v.payments)
    ensures AnyReconciled(CreditNoteAfter(Some(v), CreditNoteRequest(n, settings), locked, dateRefused).payments)
       <==> locked || v.life != Live || ViewStatus(v) != PAID
  {
    var r := CreditNoteRequest(n, settings);
    var after := CreditNoteAfter(Some(v), r, locked, dateRefused);
    var i :| 0 <= i < |v.payments| && v.payments[i].isReconciled;
    if locked || v.life != Live || ViewStatus(v) != PAID {
      assert after.payments[i] == v.payments[i];
    } else {
      assert after.payments == r.payments;
    }
  }

  /** `deleteBill` (a bill query, skipping deleted bills) and `deleteCreditNote` (by number). */
  method DeleteDocument(ledger: Ledger, key: string, skipDeleted: bool) returns (failure: Option<Failure>)
    requires ledger.Valid()
    modifies ledger
    ensures ledger.Valid()
    ensures var before, d := old(ledger.docs), Find(old(ledger.docs), key, skipDeleted);
            && (d == |before| ==> failure.None? && ledger.docs == before)
            && (d < |before| ==>
                 && OnlyDocument(before, ledger.docs, d)
                 && (failure.None? ==> ledger.docs == before[d := before[d].(
                       life := Voided, payments := if DocumentStatus(before[d]) == PAID then [] else before[d].payments)])
                 && (AnyReconciled(Infos(before[d].payments)) ==> ledger.docs[d].payments == before[d].payments)
                 && (failure.Some? ==> if DocumentStatus(before[d]) == PAID && AnyReconciled(Infos(before[d].payments))
                                       then failure == Some(PaymentsReconciled) && ledger.docs == before
                                       else failure == Some(Outage) && ledger.budget == 0)
                 && (DocumentStatus(before[d]) == PAID && AnyReconciled(Infos(before[d].payments)) ==> failure.Some?))
  {
    var d := Find(ledger.docs, key, skipDeleted);
    if d == |ledger.docs| {
      return None;
    }
    var document := ledger.docs[d];
    ghost var left := if DocumentStatus(document) == PAID then [] else document.payments;
    if DocumentStatus(document) == PAID {
      if |document.payments| > 0 {
        if AnyReconciled(Infos(document.payments)) {
          return Some(PaymentsReconciled);
        }
        var done; ghost var deleted;
        done, deleted := DeletePayments(ledger, d);
        if !done {
          return Some(Outage);
        }
      }
    }
    assert ledger.docs == old(ledger.docs)[d := document.(payments := left)];
    var done := ledger.Void(d);
    return if done then None else Some(Outage);
  }
}
