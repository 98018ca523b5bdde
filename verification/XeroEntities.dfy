/** src/managers/xero-entities/Manager.ts: bills and credit notes are created, or reconciled in
    place, together with their payments and attachments. */
module XeroEntities {
  import opened Basics
  import opened NumberConversion
  import opened Documents
  import opened Ledgers

  const MAX_ATTACHMENTS_PER_DOCUMENT: nat := 10
  const MS_PER_DAY: int := 86400000

  datatype Account = Account(code: string, taxType: string)

  /** Lock dates of the organisation, as milliseconds. */
  datatype LockDates = LockDates(endOfYear: Option<int>, period: Option<int>)

  datatype Settings = Settings(general: Account, fees: Account, lockDates: LockDates, trackingOnFees: bool)

  datatype NewPayment = NewPayment(date: string, bankAccountId: string, amount: real, fxFees: real, posFees: real, bankFees: real)

  datatype NewLine = NewLine(
    amount: real, taxAmount: Option<real>, accountCode: Option<string>, taxType: Option<string>, tracking: Option<seq<Tracking>>)

  /** `time` is the instant that `date` denotes. */
  datatype NewBill = NewBill(
    url: string, date: string, time: int, dueDate: string, isPaid: bool, contactId: string, description: string,
    reference: string, currency: string, accountCode: Option<string>, taxType: Option<string>,
    files: seq<string>, payments: seq<NewPayment>, lineItems: seq<NewLine>)

  datatype NewCreditNote = NewCreditNote(
    creditNoteNumber: string, date: string, time: int, contactId: string, description: string, currency: string,
    accountCode: Option<string>, taxType: Option<string>,
    files: seq<string>, payments: seq<NewPayment>, lineItems: seq<NewLine>)

  // ---- Locked periods ----

  /** `diff(..., 'd')` counts whole days and truncates. */
  predicate IsBeforeOrEqualToDate(time: int, before: int) {
    BigDiv(time - before, MS_PER_DAY) <= 0
  }

  predicate IsInLockedPeriod(time: int, dates: LockDates) {
    || (dates.endOfYear.Some? && IsBeforeOrEqualToDate(time, dates.endOfYear.value))
    || (dates.period.Some? && IsBeforeOrEqualToDate(time, dates.period.value))
  }

  /** A document is locked until a full day after the later lock date. */
  lemma {:induction false} LockedUntilNextDay(time: int, dates: LockDates)
    ensures IsInLockedPeriod(time, dates)
       <==> || (dates.endOfYear.Some? && time < dates.endOfYear.value + 86400000)
            || (dates.period.Some? && time < dates.period.value + 86400000)
  {
  }

  // ---- Requests ----

  function OrDefault(s: string, default: string): string {
    if s == "" then default else s
  }

  function CodeOr(code: Option<string>, default: string): string {
    if code.None? then default else OrDefault(code.value, default)
  }

  function LineItems(lines: seq<NewLine>, general: Account): seq<LineItem> {
    seq(|lines|, i requires 0 <= i < |lines| =>
      LineItem(lines[i].amount, lines[i].taxAmount, CodeOr(lines[i].accountCode, general.code), lines[i].taxType, lines[i].tracking))
  }

  function FxFees(payments: seq<NewPayment>): seq<real> {
    seq(|payments|, i requires 0 <= i < |payments| => payments[i].fxFees)
  }

  function PosFees(payments: seq<NewPayment>): seq<real> {
    seq(|payments|, i requires 0 <= i < |payments| => payments[i].posFees)
  }

  function BankFees(payments: seq<NewPayment>): seq<real> {
    seq(|payments|, i requires 0 <= i < |payments| => payments[i].bankFees)
  }

  function GetBillData(b: NewBill, settings: Settings): ItemData {
    ItemData(b.date, OrDefault(b.dueDate, b.date), b.contactId, OrDefault(b.description, "(no note)"),
             OrDefault(b.reference, "(no invoice number)"), b.url, b.currency,
             CodeOr(b.accountCode, settings.general.code), b.taxType,
             SumAmounts(FxFees(b.payments)), SumAmounts(PosFees(b.payments)), SumAmounts(BankFees(b.payments)),
             settings.fees.code, LineItems(b.lineItems, settings.general))
  }

  function GetCreditNoteData(n: NewCreditNote, settings: Settings): ItemData {
    ItemData(n.date, "", n.contactId, n.description, n.creditNoteNumber, "", n.currency,
             CodeOr(n.accountCode, settings.general.code), n.taxType,
             0.0, 0.0, 0.0, settings.fees.code, LineItems(n.lineItems, settings.general))
  }

  function BillPayment(p: NewPayment): PaymentInfo {
    PaymentInfo(p.date, p.bankAccountId, SumAmounts([p.amount, p.fxFees, p.bankFees, p.posFees]), false, false)
  }

  function CreditNotePayment(p: NewPayment): PaymentInfo {
    PaymentInfo(p.date, p.bankAccountId, Abs(SumAmounts([p.amount, p.fxFees, p.bankFees, p.posFees])), false, false)
  }

  function BillPayments(payments: seq<NewPayment>): seq<PaymentInfo> {
    seq(|payments|, i requires 0 <= i < |payments| => BillPayment(payments[i]))
  }

  function CreditNotePayments(payments: seq<NewPayment>): seq<PaymentInfo> {
    seq(|payments|, i requires 0 <= i < |payments| => CreditNotePayment(payments[i]))
  }

  // ---- What a document shows ----

  /** A line for an item, booked to the item's own account if it names one. */
  ghost predicate ShowsItem(line: ModelLine, item: NewLine, description: string, general: Account) {
    && line.description == description && line.unitAmount == item.amount
    && line.taxAmount == item.taxAmount && line.taxType == item.taxType && line.tracking == item.tracking
    && line.accountCode == if item.accountCode.Some? && item.accountCode.value != "" then item.accountCode.value else general.code
  }

  ghost predicate ShowsItems(lines: seq<ModelLine>, items: seq<NewLine>, description: string, general: Account) {
    |items| <= |lines| && forall i :: 0 <= i < |items| ==> ShowsItem(lines[i], items[i], description, general)
  }

  /** The line after the items, if there are fees and an account for them. */
  ghost predicate ShowsFees(lines: seq<ModelLine>, items: nat, bank: real, pos: real, fx: real, settings: Settings) {
    var total := SumAmounts([bank, pos, fx]);
    if items > 0 && total > 0.0 && settings.fees.code != "" then
      && |lines| == items + 1
      && lines[items].unitAmount == total && lines[items].accountCode == settings.fees.code
      && lines[items].taxAmount.None? && lines[items].taxType.None?
      && lines[items].tracking == (if settings.trackingOnFees then lines[0].tracking else None)
      && lines[items].description == (if bank != 0.0 then "Bank transfer fees" else if fx == 0.0 then "POS fees"
                                      else if pos == 0.0 then "Exchange fees" else "Exchange + POS fees")
    else |lines| == items
  }

  ghost predicate ShowsBill(m: Model, b: NewBill, settings: Settings) {
    && m.date == b.date && m.contactId == b.contactId && m.url == b.url && m.currency == b.currency
    && m.dueDate == (if b.dueDate != "" then b.dueDate else b.date)
    && m.reference == (if b.reference != "" then b.reference else "(no invoice number)")
    && ShowsItems(m.lines, b.lineItems, if b.description != "" then b.description else "(no note)", settings.general)
    && ShowsFees(m.lines, |b.lineItems|,
                 SumAmounts(seq(|b.payments|, i requires 0 <= i < |b.payments| => b.payments[i].bankFees)),
                 SumAmounts(seq(|b.payments|, i requires 0 <= i < |b.payments| => b.payments[i].posFees)),
                 SumAmounts(seq(|b.payments|, i requires 0 <= i < |b.payments| => b.payments[i].fxFees)), settings)
  }

  ghost predicate ShowsCreditNote(m: Model, n: NewCreditNote, settings: Settings) {
    && m.date == n.date && m.contactId == n.contactId && m.currency == n.currency && m.reference == n.creditNoteNumber
    && m.dueDate == "" && m.url == ""
    && |m.lines| == |n.lineItems|
    && ShowsItems(m.lines, n.lineItems, n.description, settings.general)
  }

  /** One payment for each, on its day and bank account, of amount and fees. */
  ghost predicate ShowsPayments(infos: seq<PaymentInfo>, payments: seq<NewPayment>, isCredit: bool) {
    && |infos| == |payments|
    && forall i :: 0 <= i < |payments| ==>
         && infos[i].date == payments[i].date && infos[i].account == payments[i].bankAccountId
         && !infos[i].isReconciled && !infos[i].isBatch
         && var total := SumAmounts([payments[i].amount, payments[i].fxFees, payments[i].bankFees, payments[i].posFees]);
            infos[i].amount == if isCredit && total < 0.0 then -total else total
  }

  lemma {:induction false} ItemsAreShown(data: ItemData, trackingOnFees: bool, items: seq<NewLine>, general: Account)
    requires data.lineItems == LineItems(items, general)
    ensures ShowsItems(ItemModel(data, trackingOnFees).lines, items, data.description, general)
  {
    var lines := ItemModel(data, trackingOnFees).lines;
    assert forall i :: 0 <= i < |items| ==> lines[i] == ItemLines(data)[i];
  }

  lemma {:induction false} FeesAreShown(data: ItemData, settings: Settings)
    requires data.feesAccountCode == settings.fees.code
    ensures ShowsFees(ItemModel(data, settings.trackingOnFees).lines, |data.lineItems|, data.bankFees, data.posFees, data.fxFees, settings)
  {
    assert |ItemLines(data)| == |data.lineItems|;
  }

  lemma {:induction false} BillRequestShows(b: NewBill, settings: Settings)
    ensures ShowsBill(BillRequest(b, settings).model, b, settings)
  {
    var data := GetBillData(b, settings);
    assert FxFees(b.payments) == seq(|b.payments|, i requires 0 <= i < |b.payments| => b.payments[i].fxFees);
    assert PosFees(b.payments) == seq(|b.payments|, i requires 0 <= i < |b.payments| => b.payments[i].posFees);
    assert BankFees(b.payments) == seq(|b.payments|, i requires 0 <= i < |b.payments| => b.payments[i].bankFees);
    ItemsAreShown(data, settings.trackingOnFees, b.lineItems, settings.general);
    FeesAreShown(data, settings);
  }

  lemma {:induction false} PaymentsAreShown(payments: seq<NewPayment>)
    ensures ShowsPayments(BillPayments(payments), payments, false) && ShowsPayments(CreditNotePayments(payments), payments, true)
  {
  }

  lemma {:induction false} CreditNoteRequestShows(n: NewCreditNote, settings: Settings)
    ensures ShowsCreditNote(CreditNoteRequest(n, settings).model, n, settings)
  {
    var data := GetCreditNoteData(n, settings);
    assert SumAmounts([0.0, 0.0, 0.0]) == 0.0 by {
      assert WholeCents(0.0);
      SumAmountsExactOnCents([0.0, 0.0, 0.0]);
      assert [0.0, 0.0, 0.0][1..] == [0.0, 0.0] && [0.0, 0.0][1..] == [0.0] && [0.0][1..] == [];
    }
    assert CreditNoteRequest(n, settings).model.lines == ItemLines(data);
    ItemsAreShown(data, settings.trackingOnFees, n.lineItems, settings.general);
  }

  // ---- What a completed run leaves ----

  /** A document without the ids Xero gives to its payments. */
  datatype View = View(life: Life, content: Model, payments: seq<PaymentInfo>, attachments: seq<string>)

  function ViewOf(d: Document): View {
    View(d.life, d.content, Infos(d.payments), d.attachments)
  }

  function ViewStatus(v: View): Status {
    StatusOf(v.life, v.content, v.payments)
  }

  /** What a run wants: the content, the payments (none when the expense is unpaid), the files. */
  datatype Request = Request(model: Model, payments: seq<PaymentInfo>, expectedPayments: nat, files: seq<string>)

  function BillRequest(b: NewBill, settings: Settings): Request {
    Request(ItemModel(GetBillData(b, settings), settings.trackingOnFees),
            if b.isPaid then BillPayments(b.payments) else [], |b.payments|, b.files)
  }

  function CreditNoteRequest(n: NewCreditNote, settings: Settings): Request {
    Request(ItemModel(GetCreditNoteData(n, settings), settings.trackingOnFees), CreditNotePayments(n.payments), |n.payments|, n.files)
  }

  predicate IsPaidWithPayments(v: View) {
    ViewStatus(v) == PAID && v.payments != []
  }

  /** An existing bill outside a locked period that a run returns untouched. */
  predicate BillIsSkipped(v: View, expectedPayments: nat) {
    v.life != Live || (IsPaidWithPayments(v) && (expectedPayments != |v.payments| || (AnyBatch(v.payments) && !AnyReconciled(v.payments))))
  }

  /** An existing bill outside a locked period that makes a run fail because of its payments. */
  predicate BillIsRefused(v: View, expectedPayments: nat) {
    v.life == Live && IsPaidWithPayments(v) && expectedPayments == |v.payments| && AnyReconciled(v.payments)
  }

  function Created(r: Request): View {
    View(Live, r.model, r.payments, AttachAll([], r.files))
  }

  /** An existing document after a completed run that was not skipped. */
  function Updated(v: View, r: Request, locked: bool, dateRefused: bool): View {
    View(v.life,
         if locked || dateRefused then v.content else r.model,
         if locked then (if v.payments != [] then v.payments else r.payments)
         else (if IsPaidWithPayments(v) then [] else v.payments) + r.payments,
         AttachAll(v.attachments, r.files))
  }

  function BillAfter(before: Option<View>, r: Request, locked: bool, dateRefused: bool): View {
    match before
    case None => Created(r)
    case Some(v) => if !locked && BillIsSkipped(v, r.expectedPayments) then v else Updated(v, r, locked, dateRefused)
  }

  function CreditNoteAfter(before: Option<View>, r: Request, locked: bool, dateRefused: bool): View {
    match before
    case None => Created(r)
    case Some(v) => if !locked && v.life != Live then v else Updated(v, r, locked, dateRefused)
  }

  function ViewAt(docs: seq<Document>, d: nat): Option<View> {
    if d < |docs| then Some(ViewOf(docs[d])) else None
  }

  // ---- Attachments ----

  function Missing(existing: seq<string>, names: seq<string>): seq<string> {
    if names == [] then []
    else if names[0] in existing then Missing(existing, names[1..])
    else [names[0]] + Missing(existing, names[1..])
  }

  lemma {:induction false} AttachAllSnoc(existing: seq<string>, names: seq<string>, k: nat)
    requires k < |names|
    ensures AttachAll(existing, names[..k + 1]) == Attach(AttachAll(existing, names[..k]), names[k])
    decreases k
  {
    if k == 0 {
      assert names[..1] == [names[0]] && names[..1][1..] == [];
    } else {
      assert names[..k + 1][1..] == names[1..][..k] && names[..k][1..] == names[1..][..k - 1];
      AttachAllSnoc(Attach(existing, names[0]), names[1..], k - 1);
    }
  }

  lemma {:induction false} AttachAllMeaning(existing: seq<string>, names: seq<string>)
    ensures existing <= AttachAll(existing, names)
    ensures |AttachAll(existing, names)| <= |existing| + |names|
    ensures forall n :: n in AttachAll(existing, names) <==> n in existing || n in names
    decreases |names|
  {
    if names == [] {
    } else {
      AttachAllMeaning(Attach(existing, names[0]), names[1..]);
    }
  }

  /** Leaving out the names that are already there does not change the result. */
  lemma {:induction false} AttachAllMissing(existing: seq<string>, now: seq<string>, names: seq<string>)
    requires existing <= now
    ensures AttachAll(now, Missing(existing, names)) == AttachAll(now, names)
    decreases |names|
  {
    if names == [] {
    } else {
      AttachAllMissing(existing, Attach(now, names[0]), names[1..]);
      if names[0] in existing {
        AttachAllMissing(existing, now, names[1..]);
      } else {
        assert ([names[0]] + Missing(existing, names[1..]))[1..] == Missing(existing, names[1..]);
      }
    }
  }

  lemma {:induction false} NothingMissing(existing: seq<string>, names: seq<string>)
    requires forall n <- names :: n in existing
    ensures Missing(existing, names) == []
    ensures AttachAll(existing, names) == existing
    decreases |names|
  {
    if names == [] {
    } else {
      NothingMissing(existing, names[1..]);
    }
  }

  /** A second run with the same files uploads nothing. */
  lemma {:induction false} RepeatedRunUploadsNothing(existing: seq<string>, names: seq<string>)
    ensures Missing(AttachAll(existing, names), names) == []
    ensures AttachAll(AttachAll(existing, names), names) == AttachAll(existing, names)
  {
    AttachAllMeaning(existing, names);
    NothingMissing(AttachAll(existing, names), names);
  }

  // ---- Steps of a run ----

  /** Why sending a document can fail. */
  ghost predicate SendingFailed(failure: Failure, data: ItemData, rejected: Option<Failure>, budget: nat) {
    || (failure == NoLineItems && data.lineItems == [])
    || (failure == Outage && budget == 0)
    || rejected == Some(failure)
  }

  method TryFallbackItemData(error: Failure, data: ItemData, account: Account) returns (result: Result<ItemData, Failure>)
    ensures result == Fallback(error, data, account.code, account.taxType)
    ensures result.Ok? <==> error in {InvalidAccountCode, ArchivedAccountCode, TaxTypeMandatory}
    ensures error in {InvalidAccountCode, ArchivedAccountCode} ==> result == Ok(data.(accountCode := account.code))
    ensures error == TaxTypeMandatory ==> result == Ok(data.(taxType := Some(account.taxType)))
    ensures result.Ok? ==> forall tracking :: ItemModel(result.value, tracking) == ItemModel(data, tracking)
    ensures result.Err? ==> result.error == error
  {
    forall tracking {
      FallbackSendsTheSameRequest(error, data, account.code, account.taxType, tracking);
    }
    if error.InvalidAccountCode? || error.ArchivedAccountCode? {
      return Ok(data.(accountCode := account.code));
    } else if error.TaxTypeMandatory? {
      return Ok(data.(taxType := Some(account.taxType)));
    }
    return Err(error);
  }

  /** Create, and create once more with fallback data: the second attempt never helps, so the
      document is created exactly when its first request is acceptable. */
  method CreateDocument(ledger: Ledger, key: string, data: ItemData, settings: Settings) returns (result: Result<nat, Failure>)
    requires ledger.Valid()
    modifies ledger
    ensures ledger.Valid() && ledger.nextPayment == old(ledger.nextPayment)
    ensures var model := ItemModel(data, settings.trackingOnFees);
            && (result.Ok? <==> data.lineItems != [] && old(ledger.budget) > 0 && ledger.rejects(model).None?)
            && (result.Ok? ==> result.value == |old(ledger.docs)| && ledger.docs == old(ledger.docs) + [Document(key, Live, model, [], [])])
            && (result.Err? ==> ledger.docs == old(ledger.docs) && SendingFailed(result.error, data, ledger.rejects(model), ledger.budget))
  {
    var first := GetAccountingItemModel(data, settings.trackingOnFees);
    if first.Err? {
      return Err(first.error);
    }
    result := ledger.Create(key, first.value);
    if result.Err? {
      var fallback := TryFallbackItemData(result.error, data, settings.general);
      if fallback.Err? {
        return Err(fallback.error);
      }
      var second := GetAccountingItemModel(fallback.value, settings.trackingOnFees);
      if second.Ok? {
        result := ledger.Create(key, second.value);
      }
    }
  }

  /** The same for an update; a refusal because of the document's date is passed over. */
  method UpdateDocument(ledger: Ledger, d: nat, data: ItemData, settings: Settings) returns (failure: Option<Failure>)
    requires ledger.Valid() && d < |ledger.docs|
    modifies ledger
    ensures ledger.Valid() && ledger.nextPayment == old(ledger.nextPayment)
    ensures var model := ItemModel(data, settings.trackingOnFees);
            && (failure.None? ==> data.lineItems != [] && (ledger.rejects(model) == None || ledger.rejects(model) == Some(DateInLockedPeriod)))
            && ledger.docs == (if failure.None? && ledger.rejects(model).None?
                               then old(ledger.docs)[d := old(ledger.docs)[d].(content := model)] else old(ledger.docs))
            && (failure.Some? ==> SendingFailed(failure.value, data, ledger.rejects(model), ledger.budget))
  {
    var first := GetAccountingItemModel(data, settings.trackingOnFees);
    if first.Err? {
      return Some(first.error);
    }
    failure := ledger.Update(d, first.value);
    if failure.Some? {
      if failure.value.DateInLockedPeriod? {
        return None;
      }
      var fallback := TryFallbackItemData(failure.value, data, settings.general);
      if fallback.Err? {
        return Some(fallback.error);
      }
      var second := GetAccountingItemModel(fallback.value, settings.trackingOnFees);
      if second.Ok? {
        failure := ledger.Update(d, second.value);
      }
    }
  }

  /** Deletes the payments that were read, in order. */
  method DeletePayments(ledger: Ledger, d: nat) returns (done: bool, ghost deleted: nat)
    requires ledger.Valid() && d < |ledger.docs|
    modifies ledger
    ensures ledger.Valid() && ledger.nextPayment == old(ledger.nextPayment)
    ensures deleted <= |old(ledger.docs)[d].payments|
    ensures if done then deleted == |old(ledger.docs)[d].payments| else ledger.budget == 0
    ensures done ==> ledger.docs == old(ledger.docs)[d := old(ledger.docs)[d].(payments := [])]
    ensures ledger.docs == old(ledger.docs)[d := old(ledger.docs)[d].(payments := old(ledger.docs)[d].payments[deleted..])]
  {
    var payments := ledger.docs[d].payments;
    deleted := 0;
    for i := 0 to |payments|
      invariant ledger.Valid() && ledger.nextPayment == old(ledger.nextPayment) && deleted == i
      invariant ledger.docs == old(ledger.docs)[d := old(ledger.docs)[d].(payments := payments[i..])]
    {
      assert ledger.docs[d].payments == payments[i..];
      WithoutFirst(payments[i..], ledger.nextPayment);
      done := ledger.DeletePayment(d, payments[i].id);
      if !done {
        return;
      }
      deleted := deleted + 1;
      assert payments[i..][1..] == payments[i + 1..];
    }
    assert payments[|payments|..] == [];
    done := true;
  }

  /** Why attaching files or paying can fail. */
  ghost predicate AttachingFailed(failure: Failure, existing: seq<string>, files: seq<string>, budget: nat) {
    var total := |Missing(existing, files)| + |existing|;
    || (failure == Outage && budget == 0)
    || (failure == TooManyAttachments(total) && total > 10 && Missing(existing, files) != [])
  }

  /** Uploads the files the document does not have, unless there would be too many. */
  method UploadFiles(ledger: Ledger, d: nat, files: seq<string>) returns (failure: Option<Failure>, ghost uploaded: nat)
    requires ledger.Valid() && d < |ledger.docs|
    modifies ledger
    ensures ledger.Valid() && ledger.nextPayment == old(ledger.nextPayment)
    ensures var existing := old(ledger.docs)[d].attachments;
            var missing := Missing(existing, files);
            && uploaded <= |missing|
            && ledger.docs == old(ledger.docs)[d := old(ledger.docs)[d].(attachments := AttachAll(existing, missing[..uploaded]))]
            && (failure.None? ==> ledger.docs == old(ledger.docs)[d := old(ledger.docs)[d].(attachments := AttachAll(existing, files))])
            && (uploaded > 0 ==> |existing| + |missing| <= MAX_ATTACHMENTS_PER_DOCUMENT)
            && (failure.Some? ==> AttachingFailed(failure.value, existing, files, ledger.budget))
  {
    ghost var docs := ledger.docs;
    var existing := ledger.docs[d].attachments;
    var missing := Missing(existing, files);
    uploaded := 0;
    assert docs == docs[d := docs[d].(attachments := AttachAll(existing, missing[..0]))];
    if |missing| > 0 && |missing| + |existing| > MAX_ATTACHMENTS_PER_DOCUMENT {
      return Some(TooManyAttachments(|missing| + |existing|)), 0;
    }
    for i := 0 to |missing|
      invariant ledger.Valid() && ledger.nextPayment == old(ledger.nextPayment) && uploaded == i
      invariant ledger.docs == docs[d := docs[d].(attachments := AttachAll(existing, missing[..i]))]
    {
      var done := ledger.Upload(d, missing[i]);
      if !done {
        return Some(Outage), uploaded;
      }
      AttachAllSnoc(existing, missing, i);
      uploaded := uploaded + 1;
    }
    AttachAllMissing(existing, existing, files);
    assert missing[..|missing|] == missing;
    return None, uploaded;
  }

  /** No payment reappears: each is one of the earlier ones or got an id, from `next` on, of its own. */
  ghost predicate OldOrNew(before: seq<Payment>, after: seq<Payment>, next: nat) {
    forall p <- after :: p in before || p.id >= next
  }

  /** Appends one payment for each of these. */
  method CreatePayments(ledger: Ledger, d: nat, infos: seq<PaymentInfo>) returns (done: bool, ghost created: nat)
    requires ledger.Valid() && d < |ledger.docs|
    modifies ledger
    ensures ledger.Valid()
    ensures created <= |infos|
    ensures if done then created == |infos| else ledger.budget == 0
    ensures |ledger.docs| == |old(ledger.docs)|
    ensures ledger.docs == old(ledger.docs)[d := old(ledger.docs)[d].(payments := ledger.docs[d].payments)]
    ensures old(ledger.docs)[d].payments <= ledger.docs[d].payments
    ensures Infos(ledger.docs[d].payments) == Infos(old(ledger.docs)[d].payments) + infos[..created]
    ensures OldOrNew(old(ledger.docs)[d].payments, ledger.docs[d].payments, old(ledger.nextPayment))
  {
    created := 0;
    for i := 0 to |infos|
      invariant ledger.Valid() && ledger.nextPayment >= old(ledger.nextPayment) && created == i
      invariant |ledger.docs| == |old(ledger.docs)|
      invariant ledger.docs == old(ledger.docs)[d := old(ledger.docs)[d].(payments := ledger.docs[d].payments)]
      invariant old(ledger.docs)[d].payments <= ledger.docs[d].payments
      invariant Infos(ledger.docs[d].payments) == Infos(old(ledger.docs)[d].payments) + infos[..i]
      invariant OldOrNew(old(ledger.docs)[d].payments, ledger.docs[d].payments, old(ledger.nextPayment))
    {
      ghost var before := ledger.docs[d].payments;
      done := ledger.CreatePayment(d, infos[i]);
      if !done {
        return;
      }
      assert Infos(ledger.docs[d].payments) == Infos(before) + [infos[i]];
      assert infos[..i + 1] == infos[..i] + [infos[i]];
      created := created + 1;
    }
    done := true;
  }

  // ---- Whole runs ----

  /** Nothing but document d, which may be new, has changed. */
  ghost predicate OnlyDocument(before: seq<Document>, after: seq<Document>, d: nat) {
    && d <= |before| <= |after| <= |before| + 1
    && (|after| > |before| ==> d == |before|)
    && (forall i :: 0 <= i < |before| && i != d ==> after[i] == before[i])
    && (d < |before| ==> after[d].key == before[d].key)
  }

  /** A run, completed or not, leaves a prefix of the missing files attached, and never takes a
      document over the limit. */
  ghost predicate AttachmentsGrew(existing: seq<string>, now: seq<string>, files: seq<string>) {
    var missing := Missing(existing, files);
    exists k :: 0 <= k <= |missing| && now == AttachAll(existing, missing[..k])
             && (k > 0 ==> |existing| + |missing| <= MAX_ATTACHMENTS_PER_DOCUMENT)
  }

  lemma {:induction false} GrownAttachmentsAreBounded(existing: seq<string>, now: seq<string>, files: seq<string>)
    requires AttachmentsGrew(existing, now, files)
    ensures existing <= now
    ensures now == existing || |now| <= 10
  {
    var missing := Missing(existing, files);
    var k :| 0 <= k <= |missing| && now == AttachAll(existing, missing[..k])
          && (k > 0 ==> |existing| + |missing| <= MAX_ATTACHMENTS_PER_DOCUMENT);
    AttachAllMeaning(existing, missing[..k]);
  }

  ghost predicate AttachmentsOk(before: seq<Document>, after: seq<Document>, d: nat, files: seq<string>) {
    d < |after| ==> AttachmentsGrew(if d < |before| then before[d].attachments else [], after[d].attachments, files)
  }

  /** The old payments of document d are all still there, in place. */
  ghost predicate PaymentsKept(before: seq<Document>, after: seq<Document>, d: nat) {
    d < |before| <= |after| ==> before[d].payments <= after[d].payments
  }

  ghost predicate ContentKept(before: seq<Document>, after: seq<Document>, d: nat) {
    d < |before| <= |after| ==> after[d].content == before[d].content && after[d].life == before[d].life
  }

  /** What attaching files and paying does, from one list of documents to the next. */
  ghost predicate AttachedAndPaid(before: seq<Document>, after: seq<Document>, d: nat, files: seq<string>,
                                  payments: seq<PaymentInfo>, failed: bool, next: nat)
  {
    && d < |before| == |after|
    && OnlyDocument(before, after, d)
    && PaymentsKept(before, after, d) && ContentKept(before, after, d)
    && OldOrNew(before[d].payments, after[d].payments, next)
    && AttachmentsGrew(before[d].attachments, after[d].attachments, files)
    && (!failed ==> && after[d].attachments == AttachAll(before[d].attachments, files)
                    && Infos(after[d].payments) == Infos(before[d].payments) + payments)
  }

  /** The end of both operations: attachments, then payments unless the period is locked and
      the document had payments already. */
  method AttachAndPay(ledger: Ledger, d: nat, files: seq<string>, payments: seq<PaymentInfo>, keepPayments: bool)
    returns (failure: Option<Failure>)
    requires ledger.Valid() && d < |ledger.docs|
    modifies ledger
    ensures ledger.Valid()
    ensures AttachedAndPaid(old(ledger.docs), ledger.docs, d, files, if keepPayments then [] else payments, failure.Some?,
                            old(ledger.nextPayment))
    ensures failure.Some? ==> AttachingFailed(failure.value, old(ledger.docs)[d].attachments, files, ledger.budget)
  {
    ghost var uploaded, created;
    failure, uploaded := UploadFiles(ledger, d, files);
    if failure.Some? || keepPayments {
      return;
    }
    var done;
    done, created := CreatePayments(ledger, d, payments);
    if !done {
      return Some(Outage);
    }
    assert payments[..created] == payments;
  }

  lemma {:induction false} NothingUploaded(existing: seq<string>, files: seq<string>)
    ensures AttachmentsGrew(existing, existing, files)
  {
    var missing := Missing(existing, files);
    assert existing == AttachAll(existing, missing[..0]);
  }

  /** How far the part before the attachments got: on to them, or to the end of the run. */
  datatype Progress = Continue | Return(result: Result<nat, Failure>)

  /** What reconciling an existing bill outside a locked period may do to it, `rejected` being
      Xero's verdict on the request. */
  ghost predicate BillReconciled(before: seq<Document>, after: seq<Document>, d: nat, b: NewBill, settings: Settings,
                                 rejected: Option<Failure>, budget: nat, progress: Progress)
    requires d < |before|
  {
    var v, model := ViewOf(before[d]), BillRequest(b, settings).model;
    match progress
    case Continue =>
      && !BillIsSkipped(v, |b.payments|) && !BillIsRefused(v, |b.payments|)
      && after == before[d := before[d].(
           content := if rejected == Some(DateInLockedPeriod) then v.content else model,
           payments := if IsPaidWithPayments(v) then [] else before[d].payments)]
    case Return(Ok(id)) => id == d && BillIsSkipped(v, |b.payments|) && after == before
    case Return(Err(failure)) =>
      && d < |after|
      && after == before[d := before[d].(payments := after[d].payments)]
      && (forall p <- after[d].payments :: p in before[d].payments)
      && (AnyReconciled(v.payments) ==> after[d].payments == before[d].payments)
      && !BillIsSkipped(v, |b.payments|)
      && (BillIsRefused(v, |b.payments|) ==> failure == PaymentsReconciled && after == before)
      && (|| (failure == PaymentsReconciled && BillIsRefused(v, |b.payments|))
          || SendingFailed(failure, GetBillData(b, settings), rejected, budget))
  }

  /** The exits that leave the bill as it is. */
  lemma {:induction false} ReconcileStops(docs: seq<Document>, d: nat, b: NewBill, settings: Settings, rejected: Option<Failure>, budget: nat)
    requires d < |docs|
    ensures var v := ViewOf(docs[d]);
            && (BillIsSkipped(v, |b.payments|) ==> BillReconciled(docs, docs, d, b, settings, rejected, budget, Return(Ok(d))))
            && (BillIsRefused(v, |b.payments|) ==>
                  BillReconciled(docs, docs, d, b, settings, rejected, budget, Return(Err(PaymentsReconciled))))
  {
    assert docs == docs[d := docs[d].(payments := docs[d].payments)];
  }

  /** The exits after its payments, if they settle it, have begun to be deleted. */
  lemma {:induction false} ReconcileFails(before: seq<Document>, d: nat, b: NewBill, settings: Settings, rejected: Option<Failure>,
                                          budget: nat, deleted: nat, failure: Failure)
    requires d < |before| && deleted <= |before[d].payments|
    requires var v := ViewOf(before[d]);
             && !BillIsSkipped(v, |b.payments|) && !BillIsRefused(v, |b.payments|)
             && (!IsPaidWithPayments(v) ==> deleted == 0)
    requires SendingFailed(failure, GetBillData(b, settings), rejected, budget)
    ensures BillReconciled(before, before[d := before[d].(payments := before[d].payments[deleted..])], d, b, settings, rejected, budget,
                           Return(Err(failure)))
  {
  }

  /** An existing bill outside a locked period: its payments are deleted if they settle it and
      may be replaced, then its content is updated. */
  method ReconcileBill(ledger: Ledger, d: nat, b: NewBill, settings: Settings) returns (progress: Progress)
    requires ledger.Valid() && d < |ledger.docs|
    modifies ledger
    ensures ledger.Valid() && ledger.nextPayment == old(ledger.nextPayment)
    ensures BillReconciled(old(ledger.docs), ledger.docs, d, b, settings, ledger.rejects(BillRequest(b, settings).model), ledger.budget, progress)
  {
    var bill := ledger.docs[d];
    ghost var before, rejected, deleted := ledger.docs, ledger.rejects(BillRequest(b, settings).model), 0;
    ReconcileStops(before, d, b, settings, rejected, ledger.budget);
    if bill.life == Voided || bill.life == Deleted {
      return Return(Ok(d));
    }
    if DocumentStatus(bill) == PAID && |bill.payments| > 0 {
      if |b.payments| != |bill.payments| {
        return Return(Ok(d));
      }
      if AnyReconciled(Infos(bill.payments)) {
        return Return(Err(PaymentsReconciled));
      }
      if AnyBatch(Infos(bill.payments)) {
        return Return(Ok(d));
      }
      var done;
      done, deleted := DeletePayments(ledger, d);
      if !done {
        ReconcileFails(before, d, b, settings, rejected, ledger.budget, deleted, Outage);
        return Return(Err(Outage));
      }
    }
    assert ledger.docs == before[d := bill.(payments := bill.payments[deleted..])];
    var failure := UpdateDocument(ledger, d, GetBillData(b, settings), settings);
    if failure.Some? {
      ReconcileFails(before, d, b, settings, rejected, ledger.budget, deleted, failure.value);
      return Return(Err(failure.value));
    }
    return Continue;
  }

  /** What one run of `createOrUpdateBill` may do, document d being the bill's and `next` the id of
      the next new payment. */
  ghost predicate BillRun(before: seq<Document>, after: seq<Document>, d: nat, b: NewBill, settings: Settings,
                          dateRefused: bool, next: nat, result: Result<nat, Failure>)
  {
    var r, locked := BillRequest(b, settings), IsInLockedPeriod(b.time, settings.lockDates);
    && OnlyDocument(before, after, d)
    && AttachmentsOk(before, after, d, b.files)
    && (d < |after| ==> after[d].key == b.url)
    && (d < |before| ==> OldOrNew(before[d].payments, after[d].payments, next))
    && (result.Ok? ==> result.value == d < |after| && ViewOf(after[d]) == BillAfter(ViewAt(before, d), r, locked, dateRefused))
    && (d < |before| && AnyReconciled(Infos(before[d].payments)) ==> PaymentsKept(before, after, d))
    && (d < |before| && !locked && BillIsRefused(ViewOf(before[d]), |b.payments|) ==> result == Err(PaymentsReconciled) && after == before)
    && (d < |before| && !locked && BillIsSkipped(ViewOf(before[d]), |b.payments|) ==> result == Ok(d) && after == before)
    && (locked ==> && PaymentsKept(before, after, d) && ContentKept(before, after, d)
                   && (d == |before| ==> result == Err(LockedPeriod) && after == before))
  }

  /** What a completed run leaves of the bill, in terms of the bill that was asked for. */
  ghost predicate BillIsShown(before: seq<Document>, after: seq<Document>, d: nat, b: NewBill, settings: Settings, dateRefused: bool) {
    && d < |after| && d <= |before|
    && if d == |before| then
         && after[d].life == Live && ShowsBill(after[d].content, b, settings)
         && ShowsPayments(Infos(after[d].payments), if b.isPaid then b.payments else [], false)
         && (forall f :: f in after[d].attachments <==> f in b.files)
       else if IsInLockedPeriod(b.time, settings.lockDates) then LockedBillIsShown(before[d], after[d], b)
       else if IsLeftAlone(before[d], b) then after == before
       else ExistingBillIsShown(before[d], after[d], b, settings, dateRefused)
  }

  /** A bill that is not live, or is settled by payments that are not as many as the new ones or are
      part of a batch. */
  ghost predicate IsLeftAlone(bill: Document, b: NewBill) {
    || bill.life != Live
    || (&& DocumentStatus(bill) == PAID && bill.payments != []
        && (|| |b.payments| != |bill.payments|
            || ((exists p <- bill.payments :: p.info.isBatch) && !exists p <- bill.payments :: p.info.isReconciled)))
  }

  ghost predicate LockedBillIsShown(before: Document, after: Document, b: NewBill) {
    && after.content == before.content
    && (if before.payments != [] then Infos(after.payments) == Infos(before.payments)
        else ShowsPayments(Infos(after.payments), if b.isPaid then b.payments else [], false))
    && (forall f :: f in after.attachments <==> f in before.attachments || f in b.files)
  }

  ghost predicate ExistingBillIsShown(before: Document, after: Document, b: NewBill, settings: Settings, dateRefused: bool) {
    var kept := if DocumentStatus(before) == PAID then 0 else |before.payments|;
    && (if dateRefused then after.content == before.content else ShowsBill(after.content, b, settings))
    && kept <= |after.payments|
    && Infos(after.payments)[..kept] == Infos(before.payments)[..kept]
    && ShowsPayments(Infos(after.payments)[kept..], if b.isPaid then b.payments else [], false)
    && (forall f :: f in after.attachments <==> f in before.attachments || f in b.files)
  }

  /** A bill with reconciled payments that would otherwise have to be replaced. */
  ghost predicate IsProtected(bill: Document, b: NewBill) {
    && bill.life == Live && DocumentStatus(bill) == PAID && |bill.payments| == |b.payments| > 0
    && exists p <- bill.payments :: p.info.isReconciled
  }

  lemma {:induction false} CreatedBillIsShown(after: Document, b: NewBill, settings: Settings)
    requires ViewOf(after) == Created(BillRequest(b, settings))
    ensures after.life == Live && ShowsBill(after.content, b, settings)
    ensures ShowsPayments(Infos(after.payments), if b.isPaid then b.payments else [], false)
    ensures forall f :: f in after.attachments <==> f in b.files
  {
    BillRequestShows(b, settings);
    PaymentsAreShown(b.payments);
    AttachAllMeaning([], b.files);
  }

  lemma {:induction false} UpdatedBillIsShown(before: Document, after: Document, b: NewBill, settings: Settings, locked: bool, dateRefused: bool)
    requires ViewOf(after) == Updated(ViewOf(before), BillRequest(b, settings), locked, dateRefused)
    ensures if locked then LockedBillIsShown(before, after, b) else ExistingBillIsShown(before, after, b, settings, dateRefused)
  {
    BillRequestShows(b, settings);
    PaymentsAreShown(b.payments);
    AttachAllMeaning(before.attachments, b.files);
    AppendedPayments(if DocumentStatus(before) == PAID then [] else Infos(before.payments), BillRequest(b, settings).payments);
  }

  lemma {:induction false} CompletedBillIsShown(before: seq<Document>, after: seq<Document>, d: nat, b: NewBill, settings: Settings,
                                                dateRefused: bool, next: nat, id: nat)
    requires d == Find(before, b.url, true) && BillRun(before, after, d, b, settings, dateRefused, next, Ok(id))
    ensures BillIsShown(before, after, d, b, settings, dateRefused)
  {
    if d == |before| {
      CreatedBillIsShown(after[d], b, settings);
    } else {
      SkippedIffLeftAlone(before[d], b);
      var locked := IsInLockedPeriod(b.time, settings.lockDates);
      if locked || !IsLeftAlone(before[d], b) {
        UpdatedBillIsShown(before[d], after[d], b, settings, locked, dateRefused);
      }
    }
  }

  lemma {:induction false} AppendedPayments(kept: seq<PaymentInfo>, more: seq<PaymentInfo>)
    ensures (kept + more)[..|kept|] == kept && (kept + more)[|kept|..] == more
  {
  }

  lemma {:induction false} SkippedIffLeftAlone(bill: Document, b: NewBill)
    ensures BillIsSkipped(ViewOf(bill), |b.payments|) <==> IsLeftAlone(bill, b)
    ensures BillIsRefused(ViewOf(bill), |b.payments|) <==> IsProtected(bill, b)
  {
    var infos := Infos(bill.payments);
    assert forall i :: 0 <= i < |infos| ==> infos[i] == bill.payments[i].info;
    assert AnyBatch(infos) <==> exists p <- bill.payments :: p.info.isBatch;
    assert AnyReconciled(infos) <==> exists p <- bill.payments :: p.info.isReconciled;
  }

  /** The only reasons for which a run can fail. */
  ghost predicate BillRunFailed(before: seq<Document>, b: NewBill, settings: Settings, rejected: Option<Failure>, budget: nat, failure: Failure) {
    var d, locked := Find(before, b.url, true), IsInLockedPeriod(b.time, settings.lockDates);
    || (failure == LockedPeriod && locked && d == |before|)
    || (failure == PaymentsReconciled && !locked && d < |before| && BillIsRefused(ViewOf(before[d]), |b.payments|))
    || SendingFailed(failure, GetBillData(b, settings), rejected, budget)
    || AttachingFailed(failure, if d < |before| then before[d].attachments else [], b.files, budget)
  }

  lemma {:induction false} NewBillRun(before: seq<Document>, after: seq<Document>, b: NewBill, settings: Settings, next: nat,
                                       result: Result<nat, Failure>)
    requires !IsInLockedPeriod(b.time, settings.lockDates)
    requires var r := BillRequest(b, settings);
             AttachedAndPaid(before + [Document(b.url, Live, r.model, [], [])], after, |before|, b.files, r.payments, result.Err?, next)
    requires result.Ok? ==> result.value == |before|
    ensures BillRun(before, after, |before|, b, settings, false, next, result)
  {
    var r := BillRequest(b, settings);
    var created := before + [Document(b.url, Live, r.model, [], [])];
    assert forall i :: 0 <= i < |before| ==> created[i] == before[i];
    assert Infos(created[|before|].payments) == [];
  }

  lemma {:induction false} ExistingBillRun(before: seq<Document>, mid: seq<Document>, after: seq<Document>, d: nat, b: NewBill, settings: Settings,
                        dateRefused: bool, next: nat, result: Result<nat, Failure>)
    requires d < |before| && before[d].key == b.url
    requires var r, v, locked := BillRequest(b, settings), ViewOf(before[d]), IsInLockedPeriod(b.time, settings.lockDates);
             && (!locked ==> !BillIsSkipped(v, |b.payments|) && !BillIsRefused(v, |b.payments|))
             && mid == before[d := before[d].(
                  content := if locked || dateRefused then v.content else r.model,
                  payments := if !locked && IsPaidWithPayments(v) then [] else before[d].payments)]
             && AttachedAndPaid(mid, after, d, b.files, if locked && v.payments != [] then [] else r.payments, result.Err?, next)
    requires result.Ok? ==> result.value == d
    ensures BillRun(before, after, d, b, settings, dateRefused, next, result)
  {
    assert Infos(mid[d].payments) == if mid[d].payments == [] then [] else Infos(before[d].payments);
  }

  lemma {:induction false} ReturnedBillRun(before: seq<Document>, after: seq<Document>, d: nat, b: NewBill, settings: Settings,
                        dateRefused: bool, next: nat, result: Result<nat, Failure>)
    requires d < |before| && before[d].key == b.url && !IsInLockedPeriod(b.time, settings.lockDates)
    requires var v := ViewOf(before[d]);
             match result
             case Ok(id) => id == d && BillIsSkipped(v, |b.payments|) && after == before
             case Err(failure) =>
               && d < |after| && after == before[d := before[d].(payments := after[d].payments)]
               && (forall p <- after[d].payments :: p in before[d].payments)
               && (AnyReconciled(v.payments) ==> after[d].payments == before[d].payments)
               && !BillIsSkipped(v, |b.payments|)
               && (BillIsRefused(v, |b.payments|) ==> failure == PaymentsReconciled && after == before)
    ensures BillRun(before, after, d, b, settings, dateRefused, next, result)
  {
    NothingUploaded(before[d].attachments, b.files);
  }

  /** `createOrUpdateBill` for a url that no bill has. */
  method CreateNewBill(ledger: Ledger, b: NewBill, settings: Settings) returns (result: Result<nat, Failure>)
    requires ledger.Valid() && Find(ledger.docs, b.url, true) == |ledger.docs|
    modifies ledger
    ensures ledger.Valid()
    ensures BillRun(old(ledger.docs), ledger.docs, |old(ledger.docs)|, b, settings,
                    ledger.rejects(BillRequest(b, settings).model) == Some(DateInLockedPeriod), old(ledger.nextPayment), result)
    ensures result.Err? ==> BillRunFailed(old(ledger.docs), b, settings, ledger.rejects(BillRequest(b, settings).model), ledger.budget, result.error)
  {
    ghost var before, next := ledger.docs, ledger.nextPayment;
    if IsInLockedPeriod(b.time, settings.lockDates) {
      return Err(LockedPeriod);
    }
    result := CreateDocument(ledger, b.url, GetBillData(b, settings), settings);
    if result.Ok? {
      var bill := result.value;
      var failure := AttachAndPay(ledger, bill, b.files, BillPayments(b.payments), !b.isPaid);
      result := if failure.Some? then Err(failure.value) else Ok(bill);
      NewBillRun(before, ledger.docs, b, settings, next, result);
    }
  }

  /** `createOrUpdateBill` for an existing bill. */
  method UpdateExistingBill(ledger: Ledger, bill: nat, b: NewBill, settings: Settings) returns (result: Result<nat, Failure>)
    requires ledger.Valid() && bill == Find(ledger.docs, b.url, true) < |ledger.docs|
    modifies ledger
    ensures ledger.Valid()
    ensures BillRun(old(ledger.docs), ledger.docs, bill, b, settings,
                    ledger.rejects(BillRequest(b, settings).model) == Some(DateInLockedPeriod), old(ledger.nextPayment), result)
    ensures result.Err? ==> BillRunFailed(old(ledger.docs), b, settings, ledger.rejects(BillRequest(b, settings).model), ledger.budget, result.error)
  {
    ghost var before, next := ledger.docs, ledger.nextPayment;
    ghost var dateRefused := ledger.rejects(BillRequest(b, settings).model) == Some(DateInLockedPeriod);
    var isInLockedPeriod := IsInLockedPeriod(b.time, settings.lockDates);
    var keepPayments := !b.isPaid || (isInLockedPeriod && |ledger.docs[bill].payments| > 0);
    if !isInLockedPeriod {
      var progress := ReconcileBill(ledger, bill, b, settings);
      if progress.Return? {
        ReturnedBillRun(before, ledger.docs, bill, b, settings, dateRefused, next, progress.result);
        return progress.result;
      }
    }
    ghost var mid := ledger.docs;
    var failure := AttachAndPay(ledger, bill, b.files, BillPayments(b.payments), keepPayments);
    result := if failure.Some? then Err(failure.value) else Ok(bill);
    ExistingBillRun(before, mid, ledger.docs, bill, b, settings, dateRefused, next, result);
  }

  /** `createOrUpdateBill` */
  method CreateOrUpdateBill(ledger: Ledger, b: NewBill, settings: Settings) returns (result: Result<nat, Failure>)
    requires ledger.Valid()
    modifies ledger
    ensures ledger.Valid()
    ensures BillRun(old(ledger.docs), ledger.docs, Find(old(ledger.docs), b.url, true), b, settings,
                    ledger.rejects(BillRequest(b, settings).model) == Some(DateInLockedPeriod), old(ledger.nextPayment), result)
    ensures result.Ok? ==> BillIsShown(old(ledger.docs), ledger.docs, Find(old(ledger.docs), b.url, true), b, settings,
                                       ledger.rejects(BillRequest(b, settings).model) == Some(DateInLockedPeriod))
    ensures var before, d := old(ledger.docs), Find(old(ledger.docs), b.url, true);
            d < |before| && !IsInLockedPeriod(b.time, settings.lockDates) ==>
              && (IsLeftAlone(before[d], b) ==> result == Ok(d) && ledger.docs == before)
              && (IsProtected(before[d], b) ==> result == Err(PaymentsReconciled) && ledger.docs == before)
    ensures result.Err? ==> BillRunFailed(old(ledger.docs), b, settings, ledger.rejects(BillRequest(b, settings).model), ledger.budget, result.error)
  {
    ghost var before, next := ledger.docs, ledger.nextPayment;
    var bill := Find(ledger.docs, b.url, true);
    if bill == |ledger.docs| {
      result := CreateNewBill(ledger, b, settings);
    } else {
      SkippedIffLeftAlone(ledger.docs[bill], b);
      result := UpdateExistingBill(ledger, bill, b, settings);
    }
    if result.Ok? {
      CompletedBillIsShown(before, ledger.docs, bill, b, settings,
                           ledger.rejects(BillRequest(b, settings).model) == Some(DateInLockedPeriod), next, result.value);
    }
  }
}
