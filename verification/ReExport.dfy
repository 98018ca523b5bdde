/** Exporting the same bill or credit note again: when a second run changes nothing, for every
    state the first run can find. */
module ReExport {
  import opened Basics
  import opened Documents
  import opened Ledgers
  import opened XeroEntities
  import opened CreditNotes

  /** The payments a run makes add up to the lines it sends. */
  ghost predicate Balanced(r: Request) {
    Sum(Paid(r.payments)) == LinesTotal(r.model.lines)
  }

  /** New payments are not reconciled and not part of a batch. */
  ghost predicate Plain(r: Request) {
    && (forall i :: 0 <= i < |r.payments| ==> !r.payments[i].isReconciled && !r.payments[i].isBatch)
    && (r.payments == [] || |r.payments| == r.expectedPayments)
  }

  lemma {:induction false} BillRequestsArePlain(b: NewBill, settings: Settings)
    ensures Plain(BillRequest(b, settings))
  {
  }

  lemma {:induction false} CreditNoteRequestsArePlain(n: NewCreditNote, settings: Settings)
    ensures Plain(CreditNoteRequest(n, settings))
  {
  }

  // ---- One run after another ----

  /** The old payments that stay beside the new ones: all of them, unless they settle the document. */
  function Kept(v: View): seq<PaymentInfo> {
    if IsPaidWithPayments(v) then [] else v.payments
  }

  /** What the payments of an existing document have to add up to after a run. */
  function Due(v: View, r: Request, dateRefused: bool): real {
    LinesTotal((if dateRefused then v.content else r.model).lines)
  }

  /** Whether a completed run leaves a bill that the same run would leave as it is. */
  ghost predicate BillRepeats(before: Option<View>, r: Request, locked: bool, dateRefused: bool) {
    || locked
    || match before
       case None => Balanced(r) || r.payments == []
       case Some(v) =>
         || BillIsSkipped(v, r.expectedPayments)
         || if r.payments != [] then Sum(Paid(Kept(v))) + Sum(Paid(r.payments)) == Due(v, r, dateRefused)
            else || Kept(v) == [] || Sum(Paid(Kept(v))) != Due(v, r, dateRefused)
                 || |Kept(v)| != r.expectedPayments || (AnyBatch(Kept(v)) && !AnyReconciled(Kept(v)))
  }

  ghost predicate CreditNoteRepeats(before: Option<View>, r: Request, locked: bool, dateRefused: bool) {
    || locked
    || match before
       case None => Balanced(r) || r.payments == []
       case Some(v) =>
         || v.life != Live
         || if r.payments != [] then Kept(v) == [] && Sum(Paid(r.payments)) == Due(v, r, dateRefused)
            else Kept(v) == [] || Sum(Paid(Kept(v))) != Due(v, r, dateRefused)
  }

  lemma {:induction false} PaidConcat(a: seq<PaymentInfo>, b: seq<PaymentInfo>)
    ensures Sum(Paid(a + b)) == Sum(Paid(a)) + Sum(Paid(b))
  {
    assert Paid(a + b) == Paid(a) + Paid(b);
    SumConcat(Paid(a), Paid(b));
  }

  /** A live document outside a locked period: its new payments and the lines they have to meet. */
  lemma {:induction false} UpdatedView(v: View, r: Request, dateRefused: bool)
    requires v.life == Live
    ensures var once := Updated(v, r, false, dateRefused);
            && once.payments == Kept(v) + r.payments
            && LinesTotal(once.content.lines) == Due(v, r, dateRefused)
            && (ViewStatus(once) == PAID <==> Sum(Paid(Kept(v))) + Sum(Paid(r.payments)) == Due(v, r, dateRefused))
            && AttachAll(once.attachments, r.files) == once.attachments
  {
    PaidConcat(Kept(v), r.payments);
    RepeatedRunUploadsNothing(v.attachments, r.files);
  }

  /** A second update changes nothing but the payments: the new ones come once more, and those of
      a settled document go. */
  lemma {:induction false} UpdatedAgain(v: View, r: Request, dateRefused: bool)
    requires v.life == Live
    ensures var once := Updated(v, r, false, dateRefused);
            Updated(once, r, false, dateRefused) == once.(payments := Kept(once) + r.payments)
  {
    UpdatedView(v, r, dateRefused);
  }

  lemma {:induction false} LockedRunRepeats(v: View, r: Request, dateRefused: bool)
    ensures var once := Updated(v, r, true, dateRefused);
            Updated(once, r, true, dateRefused) == once
  {
    RepeatedRunUploadsNothing(v.attachments, r.files);
  }

  lemma {:induction false} CreatedView(r: Request)
    ensures var once := Created(r);
            && (ViewStatus(once) == PAID <==> Balanced(r))
            && AttachAll(once.attachments, r.files) == once.attachments
  {
    RepeatedRunUploadsNothing([], r.files);
  }

  /** Appending payments to a list changes it, unless there are none. */
  lemma {:induction false} AppendedIff(a: seq<PaymentInfo>, b: seq<PaymentInfo>)
    ensures a + b == a <==> b == []
    ensures b == a + b <==> a == []
  {
    assert |a + b| == |a| + |b|;
  }

  /** A bill after a completed run is left alone by the same run if and only if the condition on
      its state before holds; otherwise all payments are made again, or, if none are to be made,
      the old ones are deleted. */
  lemma {:induction false} BillSecondRunIff(before: Option<View>, r: Request, locked: bool, dateRefused: bool)
    requires Plain(r)
    ensures var once := BillAfter(before, r, locked, dateRefused);
            var twice := BillAfter(Some(once), r, locked, dateRefused);
            && (twice == once <==> BillRepeats(before, r, locked, dateRefused))
            && (twice != once ==> twice.payments == if r.payments != [] then once.payments + r.payments else [])
  {
    var once := BillAfter(before, r, locked, dateRefused);
    match before
    case None =>
      CreatedView(r);
      AppendedIff(once.payments, r.payments);
    case Some(v) =>
      if locked {
        LockedRunRepeats(v, r, dateRefused);
      } else if !BillIsSkipped(v, r.expectedPayments) {
        UpdatedView(v, r, dateRefused);
        UpdatedAgain(v, r, dateRefused);
        AppendedIff(once.payments, r.payments);
        AppendedIff(Kept(v), r.payments);
      }
  }

  /** The same for a credit note, which is never skipped while it is live: payments that did not
      settle it before are deleted by the second run, or doubled with the new ones. */
  lemma {:induction false} CreditNoteSecondRunIff(before: Option<View>, r: Request, locked: bool, dateRefused: bool)
    requires Plain(r)
    ensures var once := CreditNoteAfter(before, r, locked, dateRefused);
            var twice := CreditNoteAfter(Some(once), r, locked, dateRefused);
            && (twice == once <==> CreditNoteRepeats(before, r, locked, dateRefused))
            && (twice != once ==> twice.payments == Kept(once) + r.payments)
  {
    var once := CreditNoteAfter(before, r, locked, dateRefused);
    match before
    case None =>
      CreatedView(r);
      AppendedIff(once.payments, r.payments);
    case Some(v) =>
      if locked {
        LockedRunRepeats(v, r, dateRefused);
      } else if v.life == Live {
        UpdatedView(v, r, dateRefused);
        UpdatedAgain(v, r, dateRefused);
        AppendedIff(once.payments, r.payments);
        AppendedIff(Kept(v), r.payments);
      }
  }

  /** For balanced payments that means: nothing unsettled was paid on the document before. */
  lemma {:induction false} BalancedRequestRepeatsIff(v: View, r: Request)
    requires v.life == Live && Plain(r) && Balanced(r) && r.payments != []
    ensures BillRepeats(Some(v), r, false, false)
       <==> BillIsSkipped(v, r.expectedPayments) || v.payments == [] || ViewStatus(v) == PAID || Sum(Paid(v.payments)) == 0.0
    ensures CreditNoteRepeats(Some(v), r, false, false) <==> v.payments == [] || ViewStatus(v) == PAID
  {
  }

  // ---- Runs that first take a payment back ----

  /** A bill whose first payment an export has taken back. */
  function WithoutFirstOf(v: View): View {
    v.(payments := if v.payments == [] then [] else v.payments[1..])
  }

  /** The bill after a run that takes the first payment back, if there is one. */
  function BillAfterReverting(before: Option<View>, r: Request, locked: bool, dateRefused: bool): View {
    BillAfter(if before.None? then None else Some(WithoutFirstOf(before.value)), r, locked, dateRefused)
  }

  ghost predicate AllAre(ps: seq<PaymentInfo>, p: PaymentInfo) {
    forall i :: 0 <= i < |ps| ==> ps[i] == p
  }

  /** Whether such a run leaves a bill that the next such run leaves as it is: with no payments to
      make, if there was at most one; otherwise only if each run makes the one payment that the
      next takes back. */
  ghost predicate RevertingBillRepeats(before: Option<View>, r: Request, locked: bool, dateRefused: bool) {
    match before
    case None => |r.payments| <= 1
    case Some(v) =>
      var w := WithoutFirstOf(v);
      if locked then if w.payments == [] then |r.payments| <= 1 else w.payments == r.payments && |r.payments| == 1
      else if v.life != Live || r.payments == [] then w.payments == []
      else if BillIsSkipped(w, r.expectedPayments) then
        && |r.payments| == 1 && AllAre(w.payments, r.payments[0]) && r.payments[0].amount != 0.0
        && (dateRefused || v.content == r.model) && (forall f <- r.files :: f in v.attachments)
      else
        && |r.payments| == 1 && AllAre(Kept(w), r.payments[0])
        && (Kept(w) == [] || Sum(Paid(Kept(w))) != Due(w, r, dateRefused))
  }

  /** Taking off the first payment and adding some others gives the same list only if all are one. */
  lemma {:induction false} RotatesIff(ps: seq<PaymentInfo>, more: seq<PaymentInfo>)
    requires ps != [] && more != []
    ensures ps[1..] + more == ps <==> |more| == 1 && AllAre(ps, more[0])
    decreases |ps|
  {
    if |ps[1..] + more| != |ps| {
    } else if |ps| == 1 {
      assert ps[1..] + more == more;
    } else {
      RotatesIff(ps[1..], more);
      var all := ps[1..] + more;
      if all == ps {
        assert ps[1..][1..] + more == all[1..];
        assert ps[0] == all[0] == ps[1] == ps[1..][0];
      }
      if AllAre(ps, more[0]) {
        assert forall i :: 0 <= i < |ps| - 1 ==> ps[1..][i] == ps[i + 1];
        assert all == ps;
      }
    }
  }

  lemma {:induction false} PaidHead(ps: seq<PaymentInfo>)
    requires ps != []
    ensures Sum(Paid(ps)) == ps[0].amount + Sum(Paid(ps[1..]))
  {
    assert Paid(ps)[1..] == Paid(ps[1..]);
  }

  lemma {:induction false} SameFilesIff(existing: seq<string>, files: seq<string>)
    ensures AttachAll(existing, files) == existing <==> forall f <- files :: f in existing
  {
    AttachAllMeaning(existing, files);
    if forall f <- files :: f in existing {
      NothingMissing(existing, files);
    }
  }

  /** A bill that stays settled, or is part of a batch, after its first payment was taken back. */
  lemma {:induction false} RevertingSkippedBillIff(w: View, r: Request, dateRefused: bool)
    requires Plain(r) && |r.payments| == r.expectedPayments > 0
    requires w.life == Live && BillIsSkipped(w, r.expectedPayments)
    ensures BillAfterReverting(Some(w), r, false, dateRefused) == w
       <==> && |r.payments| == 1 && AllAre(w.payments, r.payments[0]) && r.payments[0].amount != 0.0
            && (dateRefused || w.content == r.model) && (forall f <- r.files :: f in w.attachments)
  {
    var x := WithoutFirstOf(w);
    PaidHead(w.payments);
    RotatesIff(w.payments, r.payments);
    SameFilesIff(w.attachments, r.files);
    assert x.payments == w.payments[1..];
    AppendedIff(x.payments, r.payments);
    assert [] + r.payments == r.payments;
  }

  /** A live bill with the content and the files that are wanted: only payments can change. */
  lemma {:induction false} RevertingStableBillIff(u: View, r: Request, dateRefused: bool)
    requires Plain(r) && |r.payments| == r.expectedPayments > 0
    requires u.life == Live && u.payments != [] && (dateRefused || u.content == r.model)
    requires AttachAll(u.attachments, r.files) == u.attachments
    ensures BillAfterReverting(Some(u), r, false, dateRefused) == u
       <==> && |r.payments| == 1 && AllAre(u.payments, r.payments[0])
            && (|u.payments| == 1 || Sum(Paid(u.payments[1..])) != LinesTotal(u.content.lines))
  {
    var x := WithoutFirstOf(u);
    RotatesIff(u.payments, r.payments);
    assert [] + r.payments == r.payments;
    assert x.payments == u.payments[1..];
  }

  /** A bill that a run has just updated. */
  lemma {:induction false} RevertingUpdatedBillIff(w: View, r: Request, dateRefused: bool)
    requires Plain(r) && |r.payments| == r.expectedPayments > 0
    requires w.life == Live
    ensures var once := Updated(w, r, false, dateRefused);
            (BillAfterReverting(Some(once), r, false, dateRefused) == once
             <==> && |r.payments| == 1 && AllAre(Kept(w), r.payments[0])
                  && (Kept(w) == [] || Sum(Paid(Kept(w))) != Due(w, r, dateRefused)))
  {
    UpdatedView(w, r, dateRefused);
    RotatedKept(Kept(w), r.payments);
    RevertingStableBillIff(Updated(w, r, false, dateRefused), r, dateRefused);
  }

  lemma {:induction false} RotatedKept(kept: seq<PaymentInfo>, more: seq<PaymentInfo>)
    requires more != []
    ensures |more| == 1 ==> (AllAre(kept + more, more[0]) <==> AllAre(kept, more[0]))
    ensures |more| == 1 && AllAre(kept, more[0]) ==> (kept + more)[1..] == kept
    ensures kept + more == more <==> kept == []
    ensures |kept + more| == |kept| + |more|
  {
    var all := kept + more;
    assert forall i :: 0 <= i < |kept| ==> all[i] == kept[i];
    AppendedIff(kept, more);
  }

  lemma {:induction false} RevertingCreatedBillIff(r: Request, locked: bool, dateRefused: bool)
    requires Plain(r) && |r.payments| == r.expectedPayments
    ensures BillAfterReverting(Some(Created(r)), r, locked, dateRefused) == Created(r) <==> |r.payments| <= 1
  {
    var once := Created(r);
    CreatedView(r);
    if r.payments != [] {
      RotatesIff(once.payments, r.payments);
    }
    assert [] + r.payments == r.payments;
  }

  /** The exact condition under which two such runs in a row end in the same state. */
  lemma {:induction false} RevertingSecondRunIff(before: Option<View>, r: Request, locked: bool, dateRefused: bool)
    requires Plain(r) && |r.payments| == r.expectedPayments
    ensures var once := BillAfterReverting(before, r, locked, dateRefused);
            (BillAfterReverting(Some(once), r, locked, dateRefused) == once
             <==> RevertingBillRepeats(before, r, locked, dateRefused))
  {
    match before
    case None => RevertingCreatedBillIff(r, locked, dateRefused);
    case Some(v) =>
      var w := WithoutFirstOf(v);
      if locked {
        RepeatedRunUploadsNothing(v.attachments, r.files);
      } else if v.life != Live {
      } else if r.payments == [] {
        RevertingWithoutPayments(w, r, dateRefused);
      } else if BillIsSkipped(w, r.expectedPayments) {
        RevertingSkippedBillIff(w, r, dateRefused);
      } else {
        RevertingUpdatedBillIff(w, r, dateRefused);
      }
  }

  lemma {:induction false} RevertingWithoutPayments(w: View, r: Request, dateRefused: bool)
    requires w.life == Live && r.payments == [] && r.expectedPayments == 0
    ensures var once := BillAfter(Some(w), r, false, dateRefused);
            BillAfterReverting(Some(once), r, false, dateRefused) == once <==> w.payments == []
  {
    var once := BillAfter(Some(w), r, false, dateRefused);
    assert w.payments + [] == w.payments;
    assert once.payments == w.payments;
    RepeatedRunUploadsNothing(w.attachments, r.files);
    if w.payments != [] {
      var x := WithoutFirstOf(once);
      assert x.payments + [] == x.payments;
    }
  }

  // ---- Runs in changing circumstances ----

  /** A document that already is what the request asks for. */
  ghost predicate UpToDate(v: View, r: Request) {
    && v.life == Live && v.content == r.model && v.payments == r.payments
    && (forall f <- r.files :: f in v.attachments)
  }

  lemma {:induction false} CreatedIsUpToDate(r: Request)
    ensures UpToDate(Created(r), r)
  {
    AttachAllMeaning([], r.files);
  }

  /** The circumstances of one later run. */
  datatype Circumstances = Circumstances(locked: bool, dateRefused: bool)

  function BillAfterRuns(v: View, r: Request, runs: seq<Circumstances>): View
    decreases |runs|
  {
    if runs == [] then v
    else BillAfterRuns(BillAfter(Some(v), r, runs[0].locked, runs[0].dateRefused), r, runs[1..])
  }

  function CreditNoteAfterRuns(v: View, r: Request, runs: seq<Circumstances>): View
    decreases |runs|
  {
    if runs == [] then v
    else CreditNoteAfterRuns(CreditNoteAfter(Some(v), r, runs[0].locked, runs[0].dateRefused), r, runs[1..])
  }

  lemma {:induction false} OneRunChangesNothing(v: View, r: Request, c: Circumstances)
    requires UpToDate(v, r) && Plain(r)
    requires Balanced(r) || r.payments == []
    ensures BillAfter(Some(v), r, c.locked, c.dateRefused) == v
    ensures CreditNoteAfter(Some(v), r, c.locked, c.dateRefused) == v
  {
    NothingMissing(v.attachments, r.files);
    assert v.payments + [] == v.payments == [] + v.payments;
  }

  /** Any number of completed runs, in or out of locked periods, leave a balanced bill that is up
      to date exactly as it is: payments never pile up. */
  lemma {:induction false} BillReExportChangesNothing(v: View, r: Request, runs: seq<Circumstances>)
    requires UpToDate(v, r) && Plain(r)
    requires Balanced(r) || r.payments == []
    ensures BillAfterRuns(v, r, runs) == v
    decreases |runs|
  {
    if runs == [] {
    } else {
      OneRunChangesNothing(v, r, runs[0]);
      BillReExportChangesNothing(v, r, runs[1..]);
    }
  }

  /** The same for a credit note. */
  lemma {:induction false} CreditNoteReExportChangesNothing(v: View, r: Request, runs: seq<Circumstances>)
    requires UpToDate(v, r) && Plain(r)
    requires Balanced(r) || r.payments == []
    ensures CreditNoteAfterRuns(v, r, runs) == v
    decreases |runs|
  {
    if runs == [] {
    } else {
      OneRunChangesNothing(v, r, runs[0]);
      CreditNoteReExportChangesNothing(v, r, runs[1..]);
    }
  }

  /** From a first run on: a balanced new document stays as that run made it. */
  lemma {:induction false} NewDocumentStays(r: Request, runs: seq<Circumstances>)
    requires Plain(r) && (Balanced(r) || r.payments == [])
    ensures BillAfterRuns(BillAfter(None, r, false, false), r, runs) == BillAfter(None, r, false, false)
    ensures CreditNoteAfterRuns(CreditNoteAfter(None, r, false, false), r, runs) == CreditNoteAfter(None, r, false, false)
  {
    CreatedIsUpToDate(r);
    BillReExportChangesNothing(Created(r), r, runs);
    CreditNoteReExportChangesNothing(Created(r), r, runs);
  }

  // ---- Bills on the ledger ----

  /** The documents are those of `before`, with the bill as one completed run leaves it. */
  ghost predicate BillExportedOnce(before: seq<Document>, docs: seq<Document>, b: NewBill, settings: Settings, dateRefused: bool) {
    var d := Find(before, b.url, true);
    && OnlyDocument(before, docs, d) && d < |docs| && docs[d].key == b.url
    && ViewOf(docs[d]) == BillAfter(ViewAt(before, d), BillRequest(b, settings), IsInLockedPeriod(b.time, settings.lockDates), dateRefused)
  }

  ghost predicate BillRepeatsIn(docs: seq<Document>, b: NewBill, settings: Settings, dateRefused: bool) {
    BillRepeats(ViewAt(docs, Find(docs, b.url, true)), BillRequest(b, settings), IsInLockedPeriod(b.time, settings.lockDates), dateRefused)
  }

  lemma {:induction false} ExportedBillIsFound(before: seq<Document>, docs: seq<Document>, b: NewBill, settings: Settings, dateRefused: bool)
    requires BillExportedOnce(before, docs, b, settings, dateRefused)
    ensures Find(docs, b.url, true) == Find(before, b.url, true)
  {
    var d := Find(before, b.url, true);
    assert docs[d].life == if d < |before| then before[d].life else Live;
  }

  /** A completed later run of the same export leaves everything as the first one did if and only
      if the condition on the documents before the first run holds. */
  lemma {:induction false} LaterBillRunIff(before: seq<Document>, docs: seq<Document>, after: seq<Document>, b: NewBill, settings: Settings,
                                           dateRefused: bool, next: nat, id: nat)
    requires BillExportedOnce(before, docs, b, settings, dateRefused)
    requires BillRun(docs, after, Find(docs, b.url, true), b, settings, dateRefused, next, Ok(id))
    ensures BillExportedOnce(before, after, b, settings, dateRefused) <==> BillRepeatsIn(before, b, settings, dateRefused)
  {
    var d := Find(before, b.url, true);
    ExportedBillIsFound(before, docs, b, settings, dateRefused);
    BillRequestsArePlain(b, settings);
    BillSecondRunIff(ViewAt(before, d), BillRequest(b, settings), IsInLockedPeriod(b.time, settings.lockDates), dateRefused);
    OnlyDocumentTwice(before, docs, after, d);
  }

  lemma {:induction false} OnlyDocumentTwice(before: seq<Document>, docs: seq<Document>, after: seq<Document>, d: nat)
    requires OnlyDocument(before, docs, d) && OnlyDocument(docs, after, d) && d < |docs|
    ensures OnlyDocument(before, after, d)
  {
  }

  lemma {:induction false} FirstBillRun(before: seq<Document>, after: seq<Document>, b: NewBill, settings: Settings, dateRefused: bool,
                                        next: nat, id: nat)
    requires BillRun(before, after, Find(before, b.url, true), b, settings, dateRefused, next, Ok(id))
    ensures BillExportedOnce(before, after, b, settings, dateRefused)
  {
  }

  /** On the ledger itself, whatever it holds: any number of completed exports of a bill leave what
      one export leaves, if and only if the condition holds of the documents they started from. */
  method ExportRepeatedly(ledger: Ledger, b: NewBill, settings: Settings, runs: nat) returns (completed: bool)
    requires ledger.Valid()
    modifies ledger
    ensures ledger.Valid()
    ensures var before, dateRefused := old(ledger.docs), ledger.rejects(BillRequest(b, settings).model) == Some(DateInLockedPeriod);
            completed ==>
              && (runs > 0 && BillRepeatsIn(before, b, settings, dateRefused) ==> BillExportedOnce(before, ledger.docs, b, settings, dateRefused))
              && (runs == 2 && !BillRepeatsIn(before, b, settings, dateRefused) ==> !BillExportedOnce(before, ledger.docs, b, settings, dateRefused))
  {
    ghost var before := ledger.docs;
    ghost var dateRefused := ledger.rejects(BillRequest(b, settings).model) == Some(DateInLockedPeriod);
    ghost var repeats := BillRepeatsIn(before, b, settings, dateRefused);
    for i := 0 to runs
      invariant ledger.Valid()
      invariant i == 0 ==> ledger.docs == before
      invariant i == 1 || (i > 1 && repeats) ==> BillExportedOnce(before, ledger.docs, b, settings, dateRefused)
      invariant i == 2 && !repeats ==> !BillExportedOnce(before, ledger.docs, b, settings, dateRefused)
    {
      ghost var docs, next := ledger.docs, ledger.nextPayment;
      var result := CreateOrUpdateBill(ledger, b, settings);
      if result.Err? {
        return false;
      }
      if i == 0 {
        FirstBillRun(before, ledger.docs, b, settings, dateRefused, next, result.value);
      } else if i == 1 || repeats {
        LaterBillRunIff(before, docs, ledger.docs, b, settings, dateRefused, next, result.value);
      }
    }
    return true;
  }

  // ---- Credit notes on the ledger ----

  ghost predicate NoteExportedOnce(before: seq<Document>, docs: seq<Document>, n: NewCreditNote, settings: Settings, dateRefused: bool) {
    var d := Find(before, n.creditNoteNumber, false);
    && OnlyDocument(before, docs, d) && d < |docs| && docs[d].key == n.creditNoteNumber
    && ViewOf(docs[d])
       == CreditNoteAfter(ViewAt(before, d), CreditNoteRequest(n, settings), IsInLockedPeriod(n.time, settings.lockDates), dateRefused)
  }

  ghost predicate NoteRepeatsIn(docs: seq<Document>, n: NewCreditNote, settings: Settings, dateRefused: bool) {
    CreditNoteRepeats(ViewAt(docs, Find(docs, n.creditNoteNumber, false)), CreditNoteRequest(n, settings),
                      IsInLockedPeriod(n.time, settings.lockDates), dateRefused)
  }

  lemma {:induction false} LaterNoteRunIff(before: seq<Document>, docs: seq<Document>, after: seq<Document>, n: NewCreditNote,
                                           settings: Settings, dateRefused: bool, id: nat)
    requires NoteExportedOnce(before, docs, n, settings, dateRefused)
    requires CreditNoteRun(docs, after, Find(docs, n.creditNoteNumber, false), n, settings, dateRefused, Ok(id))
    ensures NoteExportedOnce(before, after, n, settings, dateRefused) <==> NoteRepeatsIn(before, n, settings, dateRefused)
  {
    var d := Find(before, n.creditNoteNumber, false);
    assert Find(docs, n.creditNoteNumber, false) == d;
    CreditNoteRequestsArePlain(n, settings);
    CreditNoteSecondRunIff(ViewAt(before, d), CreditNoteRequest(n, settings), IsInLockedPeriod(n.time, settings.lockDates), dateRefused);
    OnlyDocumentTwice(before, docs, after, d);
  }

  lemma {:induction false} FirstNoteRun(before: seq<Document>, after: seq<Document>, n: NewCreditNote, settings: Settings,
                                        dateRefused: bool, id: nat)
    requires CreditNoteRun(before, after, Find(before, n.creditNoteNumber, false), n, settings, dateRefused, Ok(id))
    ensures NoteExportedOnce(before, after, n, settings, dateRefused)
  {
  }

  method ExportNoteRepeatedly(ledger: Ledger, n: NewCreditNote, settings: Settings, runs: nat) returns (completed: bool)
    requires ledger.Valid()
    modifies ledger
    ensures ledger.Valid()
    ensures var before, dateRefused := old(ledger.docs), ledger.rejects(CreditNoteRequest(n, settings).model) == Some(DateInLockedPeriod);
            completed ==>
              && (runs > 0 && NoteRepeatsIn(before, n, settings, dateRefused) ==> NoteExportedOnce(before, ledger.docs, n, settings, dateRefused))
              && (runs == 2 && !NoteRepeatsIn(before, n, settings, dateRefused) ==> !NoteExportedOnce(before, ledger.docs, n, settings, dateRefused))
  {
    ghost var before := ledger.docs;
    ghost var dateRefused := ledger.rejects(CreditNoteRequest(n, settings).model) == Some(DateInLockedPeriod);
    ghost var repeats := NoteRepeatsIn(before, n, settings, dateRefused);
    for i := 0 to runs
      invariant ledger.Valid()
      invariant i == 0 ==> ledger.docs == before
      invariant i == 1 || (i > 1 && repeats) ==> NoteExportedOnce(before, ledger.docs, n, settings, dateRefused)
      invariant i == 2 && !repeats ==> !NoteExportedOnce(before, ledger.docs, n, settings, dateRefused)
    {
      ghost var docs := ledger.docs;
      var result := CreateOrUpdateCreditNote(ledger, n, settings);
      if result.Err? {
        return false;
      }
      if i == 0 {
        FirstNoteRun(before, ledger.docs, n, settings, dateRefused, result.value);
      } else if i == 1 || repeats {
        LaterNoteRunIff(before, docs, ledger.docs, n, settings, dateRefused, result.value);
      }
    }
    return true;
  }
}
