/** What is sent to Xero (src/services/xero/client/Client.ts): the model of a bill or credit
    note with its line items and fees line. */
module Documents {
  import opened Basics
  import opened NumberConversion

  datatype Failure =
    | Outage                      // the call did not get through
    | InvalidAccountCode          // Xero's own validation messages, as far as the code tells them apart
    | ArchivedAccountCode
    | TaxTypeMandatory
    | DateInLockedPeriod
    | OtherRejection(code: int)
    | NoLineItems
    | LockedPeriod
    | PaymentsReconciled
    | TooManyAttachments(count: nat)
    | NoCurrency
    | MixedCurrencies
    | NotSettled
    | LineItemsMismatch
    | MultipleSettledPayments
    | PaymentTooSmall

  datatype Tracking = Tracking(categoryId: string, valueId: string)

  datatype LineItem = LineItem(
    amount: real, taxAmount: Option<real>, accountCode: string, taxType: Option<string>, tracking: Option<seq<Tracking>>)

  /** The part of the item data the request is built from, with the account code and tax type
      of the whole item, which it is not built from. */
  datatype ItemData = ItemData(
    date: string, dueDate: string, contactId: string, description: string, reference: string, url: string,
    currency: string, accountCode: string, taxType: Option<string>,
    fxFees: real, posFees: real, bankFees: real, feesAccountCode: string, lineItems: seq<LineItem>)

  datatype ModelLine = ModelLine(
    description: string, accountCode: string, unitAmount: real, taxAmount: Option<real>, taxType: Option<string>,
    tracking: Option<seq<Tracking>>)

  datatype Model = Model(
    date: string, dueDate: string, contactId: string, reference: string, url: string, currency: string, lines: seq<ModelLine>)

  function Amounts(lines: seq<ModelLine>): (r: seq<real>) {
    seq(|lines|, i requires 0 <= i < |lines| => lines[i].unitAmount)
  }

  /** Every line has quantity 1. */
  function LinesTotal(lines: seq<ModelLine>): real {
    Sum(Amounts(lines))
  }

  function ItemLine(description: string, item: LineItem): ModelLine {
    ModelLine(description, item.accountCode, item.amount, item.taxAmount, item.taxType, item.tracking)
  }

  function ItemLines(data: ItemData): seq<ModelLine> {
    seq(|data.lineItems|, i requires 0 <= i < |data.lineItems| => ItemLine(data.description, data.lineItems[i]))
  }

  function FeesTotal(data: ItemData): real {
    SumAmounts([data.bankFees, data.posFees, data.fxFees])
  }

  function FeesDescription(data: ItemData): string {
    if data.bankFees != 0.0 then "Bank transfer fees"
    else if data.fxFees != 0.0 && data.posFees != 0.0 then "Exchange + POS fees"
    else if data.fxFees != 0.0 then "Exchange fees"
    else "POS fees"
  }

  /** The fees line, present when there is an account for it and the fees are positive. */
  function FeesLines(data: ItemData, trackingOnFees: bool): seq<ModelLine> {
    if data.lineItems != [] && data.feesAccountCode != "" && FeesTotal(data) > 0.0 then
      [ModelLine(FeesDescription(data), data.feesAccountCode, FeesTotal(data), None, None,
                 if trackingOnFees then data.lineItems[0].tracking else None)]
    else []
  }

  function ItemModel(data: ItemData, trackingOnFees: bool): Model {
    Model(data.date, data.dueDate, data.contactId, data.reference, data.url, data.currency,
          ItemLines(data) + FeesLines(data, trackingOnFees))
  }

  /** `getAccountingItemModel` */
  method GetAccountingItemModel(data: ItemData, trackingOnFees: bool) returns (result: Result<Model, Failure>)
    ensures result == if data.lineItems == [] then Err(NoLineItems) else Ok(ItemModel(data, trackingOnFees))
    ensures result.Ok? ==> LinesTotal(result.value.lines) == LineItemsTotal(data.lineItems) + ChargedFees(data)
  {
    if |data.lineItems| == 0 {
      return Err(NoLineItems);
    }
    var items := ItemLines(data);
    var feesTotal := SumAmounts([data.bankFees, data.posFees, data.fxFees]);
    if data.feesAccountCode != "" && feesTotal > 0.0 {
      var feesItem := ModelLine(FeesDescription(data), data.feesAccountCode, feesTotal, None, None, None);
      if trackingOnFees {
        feesItem := feesItem.(tracking := items[0].tracking);
      }
      items := items + [feesItem];
    }
    assert items == ItemLines(data) + FeesLines(data, trackingOnFees);
    ModelTotal(data, trackingOnFees);
    return Ok(Model(data.date, data.dueDate, data.contactId, data.reference, data.url, data.currency, items));
  }

  function ItemAmounts(items: seq<LineItem>): (r: seq<real>) {
    seq(|items|, i requires 0 <= i < |items| => items[i].amount)
  }

  function LineItemsTotal(items: seq<LineItem>): real {
    Sum(ItemAmounts(items))
  }

  /** What the fees line adds to the document. */
  function ChargedFees(data: ItemData): real {
    if data.feesAccountCode != "" && FeesTotal(data) > 0.0 then FeesTotal(data) else 0.0
  }

  lemma {:induction false} ModelTotal(data: ItemData, trackingOnFees: bool)
    requires data.lineItems != []
    ensures LinesTotal(ItemModel(data, trackingOnFees).lines) == LineItemsTotal(data.lineItems) + ChargedFees(data)
  {
    var items, fees := ItemLines(data), FeesLines(data, trackingOnFees);
    assert Amounts(items) == ItemAmounts(data.lineItems);
    assert Amounts(items + fees) == Amounts(items) + Amounts(fees);
    SumConcat(Amounts(items), Amounts(fees));
    if fees != [] {
      assert Amounts(fees) == [FeesTotal(data)];
      assert Sum([FeesTotal(data)]) == FeesTotal(data) + Sum([]);
    }
  }

  /** `tryFallbackItemData` assigns the default account code or tax type to the item. */
  function Fallback(error: Failure, data: ItemData, defaultAccountCode: string, defaultTaxType: string): Result<ItemData, Failure> {
    match error
    case InvalidAccountCode => Ok(data.(accountCode := defaultAccountCode))
    case ArchivedAccountCode => Ok(data.(accountCode := defaultAccountCode))
    case TaxTypeMandatory => Ok(data.(taxType := Some(defaultTaxType)))
    case _ => Err(error)
  }

  /** The second attempt sends exactly what the first one did. */
  lemma {:induction false} FallbackSendsTheSameRequest(error: Failure, data: ItemData, code: string, taxType: string, trackingOnFees: bool)
    ensures var second := Fallback(error, data, code, taxType);
            second.Ok? ==> ItemModel(second.value, trackingOnFees) == ItemModel(data, trackingOnFees)
  {
    match Fallback(error, data, code, taxType)
    case Err(_) =>
    case Ok(other) =>
      assert other == data.(accountCode := other.accountCode, taxType := other.taxType);
      assert ItemLines(other) == ItemLines(data);
      assert FeesLines(other, trackingOnFees) == FeesLines(data, trackingOnFees);
  }
}
