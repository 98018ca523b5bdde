/** The outside world of src/managers/xero-entities/Manager.ts: one Xero endpoint (invoices or
    credit notes) with its documents, payments and attachments. Assumed of Xero: a live document
    is PAID exactly when its payments sum to its line total; uploading a file of an existing name
    replaces it; whether a document is rejected depends only on the request. */
module Ledgers {
  import opened Basics
  import opened Documents

  datatype PaymentInfo = PaymentInfo(date: string, account: string, amount: real, isReconciled: bool, isBatch: bool)

  datatype Payment = Payment(id: nat, info: PaymentInfo)

  datatype Life = Live | Voided | Deleted

  /** `key` is the url of a bill, the number of a credit note. */
  datatype Document = Document(key: string, life: Life, content: Model, payments: seq<Payment>, attachments: seq<string>)

  datatype Status = AUTHORISED | PAID | VOIDED | DELETED

  function Infos(payments: seq<Payment>): seq<PaymentInfo> {
    seq(|payments|, i requires 0 <= i < |payments| => payments[i].info)
  }

  function Paid(infos: seq<PaymentInfo>): seq<real> {
    seq(|infos|, i requires 0 <= i < |infos| => infos[i].amount)
  }

  function StatusOf(life: Life, content: Model, infos: seq<PaymentInfo>): Status {
    match life
    case Voided => VOIDED
    case Deleted => DELETED
    case Live => if Sum(Paid(infos)) == LinesTotal(content.lines) then PAID else AUTHORISED
  }

  function DocumentStatus(d: Document): Status {
    StatusOf(d.life, d.content, Infos(d.payments))
  }

  predicate AnyReconciled(infos: seq<PaymentInfo>) {
    exists i :: 0 <= i < |infos| && infos[i].isReconciled
  }

  predicate AnyBatch(infos: seq<PaymentInfo>) {
    exists i :: 0 <= i < |infos| && infos[i].isBatch
  }

  ghost predicate DistinctIds(payments: seq<Payment>, bound: nat) {
    && (forall i, j :: 0 <= i < j < |payments| ==> payments[i].id != payments[j].id)
    && (forall i :: 0 <= i < |payments| ==> payments[i].id < bound)
  }

  function WithoutPayment(payments: seq<Payment>, id: nat): seq<Payment> {
    if payments == [] then []
    else if payments[0].id == id then WithoutPayment(payments[1..], id)
    else [payments[0]] + WithoutPayment(payments[1..], id)
  }

  lemma {:induction false} WithoutAbsent(payments: seq<Payment>, id: nat)
    requires forall i :: 0 <= i < |payments| ==> payments[i].id != id
    ensures WithoutPayment(payments, id) == payments
  {
    if payments == [] {
    } else {
      WithoutAbsent(payments[1..], id);
    }
  }

  lemma {:induction false} WithoutFirst(payments: seq<Payment>, bound: nat)
    requires payments != [] && DistinctIds(payments, bound)
    ensures WithoutPayment(payments, payments[0].id) == payments[1..]
    ensures DistinctIds(payments[1..], bound)
  {
    WithoutAbsent(payments[1..], payments[0].id);
  }

  lemma {:induction false} WithoutKeepsMembers(payments: seq<Payment>, id: nat)
    ensures forall p <- WithoutPayment(payments, id) :: p in payments
  {
    if payments == [] {
    } else {
      WithoutKeepsMembers(payments[1..], id);
    }
  }

  lemma {:induction false} WithoutKeepsDistinct(payments: seq<Payment>, id: nat, bound: nat)
    requires DistinctIds(payments, bound)
    ensures DistinctIds(WithoutPayment(payments, id), bound)
  {
    if payments == [] {
    } else {
      var tail := WithoutPayment(payments[1..], id);
      WithoutKeepsDistinct(payments[1..], id, bound);
      WithoutKeepsMembers(payments[1..], id);
      forall i | 0 <= i < |tail|
        ensures tail[i].id != payments[0].id
      {
        assert tail[i] in payments[1..];
      }
    }
  }

  /** `PUT .../Attachments/{fileName}` */
  function Attach(existing: seq<string>, name: string): seq<string> {
    if name in existing then existing else existing + [name]
  }

  function AttachAll(existing: seq<string>, names: seq<string>): seq<string>
    decreases |names|
  {
    if names == [] then existing else AttachAll(Attach(existing, names[0]), names[1..])
  }

  /** The first document with this key; `skipDeleted` is the bill query's status filter. */
  function Find(docs: seq<Document>, key: string, skipDeleted: bool): (d: nat)
    ensures d <= |docs|
    ensures d < |docs| ==> docs[d].key == key && !(skipDeleted && docs[d].life == Deleted)
    ensures forall i :: 0 <= i < d ==> !(docs[i].key == key && !(skipDeleted && docs[i].life == Deleted))
  {
    if docs == [] then 0
    else if docs[0].key == key && !(skipDeleted && docs[0].life == Deleted) then 0
    else 1 + Find(docs[1..], key, skipDeleted)
  }

  class Ledger {
    const rejects: Model -> Option<Failure>
    var docs: seq<Document>
    var nextPayment: nat
    /** How many more writes get through before the connection fails for good. */
    var budget: nat

    ghost predicate Valid()
      reads this
    {
      forall i :: 0 <= i < |docs| ==> DistinctIds(docs[i].payments, nextPayment)
    }

    constructor (rejects: Model -> Option<Failure>, budget: nat)
      ensures this.rejects == rejects && docs == [] && this.budget == budget && Valid()
    {
      this.rejects := rejects;
      docs, nextPayment, this.budget := [], 0, budget;
    }

    method Create(key: string, model: Model) returns (result: Result<nat, Failure>)
      requires Valid()
      modifies this
      ensures Valid() && nextPayment == old(nextPayment)
      ensures result.Ok? <==> old(budget) > 0 && rejects(model).None?
      ensures result.Ok? ==> result.value == |old(docs)| && docs == old(docs) + [Document(key, Live, model, [], [])]
      ensures result.Err? ==> docs == old(docs) && result.error == if old(budget) == 0 then Outage else rejects(model).value
      ensures budget == if result.Ok? then old(budget) - 1 else old(budget)
    {
      if budget == 0 {
        return Err(Outage);
      }
      match rejects(model)
      case Some(failure) => return Err(failure);
      case None =>
        budget := budget - 1;
        docs := docs + [Document(key, Live, model, [], [])];
        return Ok(|docs| - 1);
    }

    method Update(d: nat, model: Model) returns (failure: Option<Failure>)
      requires Valid() && d < |docs|
      modifies this
      ensures Valid() && nextPayment == old(nextPayment)
      ensures failure.None? <==> old(budget) > 0 && rejects(model).None?
      ensures failure.None? ==> docs == old(docs)[d := old(docs)[d].(content := model)]
      ensures failure.Some? ==> docs == old(docs) && failure.value == if old(budget) == 0 then Outage else rejects(model).value
      ensures budget == if failure.None? then old(budget) - 1 else old(budget)
    {
      if budget == 0 {
        return Some(Outage);
      }
      failure := rejects(model);
      if failure.None? {
        budget := budget - 1;
        docs := docs[d := docs[d].(content := model)];
      }
    }

    method DeletePayment(d: nat, id: nat) returns (done: bool)
      requires Valid() && d < |docs|
      modifies this
      ensures Valid() && nextPayment == old(nextPayment)
      ensures done <==> old(budget) > 0
      ensures docs == if done then old(docs)[d := old(docs)[d].(payments := WithoutPayment(old(docs)[d].payments, id))] else old(docs)
      ensures budget == if done then old(budget) - 1 else old(budget)
    {
      if budget == 0 {
        return false;
      }
      WithoutKeepsDistinct(docs[d].payments, id, nextPayment);
      budget := budget - 1;
      docs := docs[d := docs[d].(payments := WithoutPayment(docs[d].payments, id))];
      return true;
    }

    method CreatePayment(d: nat, info: PaymentInfo) returns (done: bool)
      requires Valid() && d < |docs|
      modifies this
      ensures Valid() && nextPayment >= old(nextPayment)
      ensures done <==> old(budget) > 0
      ensures docs == if done then old(docs)[d := old(docs)[d].(payments := old(docs)[d].payments + [Payment(old(nextPayment), info)])]
                      else old(docs)
      ensures budget == if done then old(budget) - 1 else old(budget)
    {
      if budget == 0 {
        return false;
      }
      budget := budget - 1;
      docs := docs[d := docs[d].(payments := docs[d].payments + [Payment(nextPayment, info)])];
      nextPayment := nextPayment + 1;
      return true;
    }

    method Upload(d: nat, name: string) returns (done: bool)
      requires Valid() && d < |docs|
      modifies this
      ensures Valid() && nextPayment == old(nextPayment)
      ensures done <==> old(budget) > 0
      ensures docs == if done then old(docs)[d := old(docs)[d].(attachments := Attach(old(docs)[d].attachments, name))] else old(docs)
      ensures budget == if done then old(budget) - 1 else old(budget)
    {
      if budget == 0 {
        return false;
      }
      budget := budget - 1;
      docs := docs[d := docs[d].(attachments := Attach(docs[d].attachments, name))];
      return true;
    }

    method Void(d: nat) returns (done: bool)
      requires Valid() && d < |docs|
      modifies this
      ensures Valid() && nextPayment == old(nextPayment)
      ensures done <==> old(budget) > 0
      ensures docs == if done then old(docs)[d := old(docs)[d].(life := Voided)] else old(docs)
      ensures budget == if done then old(budget) - 1 else old(budget)
    {
      if budget == 0 {
        return false;
      }
      budget := budget - 1;
      docs := docs[d := docs[d].(life := Voided)];
      return true;
    }
  }
}
