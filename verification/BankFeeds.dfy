/** Bank statements and feed connections: src/managers/integration/Manager.ts with
    src/managers/xero-entities/bank-feeds/Manager.ts. Operations run one at a time; what Xero
    answers is a script that each call takes its next reply from. */
module BankFeeds {
  import opened Basics
  import opened NumberConversion
  import opened BankFeedStore
  import Expenses = ExpenseExport

  /** What Xero says to a statement it is sent. */
  datatype Reply =
    | Accepts
    | AcceptsUnheard     // Xero has the statement, but its answer is lost
    | RejectsConnection | RejectsDuplicate | RejectsStartDate | RejectsEndDate | RejectsInternally
    | RejectsOtherwise   // any other rejection, or a failure of the call

  datatype Accepted = Accepted(transactionId: string, statementId: nat, amount: real)

  datatype Failure =
    | Database(failure: DbFailure)
    | StatementRejected(reply: Reply)
    | NoConnection
    | AccountArchived
    | NoBankAccount
    | MixedCurrencies
    | NoCurrency
    | CloseFailed
    | OrganisationUnavailable
    | TypeError

  /** An entity whose payment appears on a bank statement. */
  datatype Entity = CardTransaction(id: string) | BalancePayment(id: string) | Transfer(balanceId: string, id: string)

  function TypeOf(e: Entity): EntityType {
    match e
    case CardTransaction(_) => TransactionEntity
    case BalancePayment(_) => BalancePaymentEntity
    case Transfer(_, _) => TransferEntity
  }

  /** The transaction id under which the entity is sent to Xero. */
  function TransactionId(e: Entity): string {
    match e
    case CardTransaction(id) => "transaction-" + id
    case BalancePayment(id) => "balance-payment-" + id
    case Transfer(balanceId, id) => "balanceId-" + balanceId + ":transferId-" + id
  }

  /** The Xero entity id that the lookup before an export asks for: none for a transfer. */
  function LookupId(e: Entity): string {
    if e.Transfer? then "" else TransactionId(e)
  }

  /** Different entities have different transaction ids, if no balance id contains a colon. */
  lemma {:induction false} TransactionIdsDiffer(a: Entity, b: Entity)
    requires a.Transfer? ==> ':' !in a.balanceId
    requires b.Transfer? ==> ':' !in b.balanceId
    ensures TransactionId(a) == TransactionId(b) <==> a == b
  {
    var x, y := TransactionId(a), TransactionId(b);
    assert x[0] == (if a.CardTransaction? then 't' else 'b') && y[0] == (if b.CardTransaction? then 't' else 'b');
    assert a.BalancePayment? ==> x[7] == '-';
    assert b.BalancePayment? ==> y[7] == '-';
    assert a.Transfer? ==> x[7] == 'I';
    assert b.Transfer? ==> y[7] == 'I';
    match (a, b)
    case (CardTransaction(i), CardTransaction(j)) => assert x[12..] == i && y[12..] == j;
    case (BalancePayment(i), BalancePayment(j)) => assert x[16..] == i && y[16..] == j;
    case (Transfer(p, i), Transfer(q, j)) => TransferIdsDiffer(p, i, q, j);
    case _ =>
  }

  /** How a transfer is named in its statement. */
  lemma {:induction false} TransferTransactionId(balanceId: string, id: string)
    ensures TransactionId(Transfer(balanceId, id)) == "balanceId-" + balanceId + ":transferId-" + id
    ensures TypeOf(Transfer(balanceId, id)) == TransferEntity && Transfer(balanceId, id).id == id
  {
  }

  lemma {:induction false} TransferIdsDiffer(p: string, i: string, q: string, j: string)
    requires ':' !in p && ':' !in q
    ensures "balanceId-" + p + ":transferId-" + i == "balanceId-" + q + ":transferId-" + j <==> p == q && i == j
  {
    var x, y := "balanceId-" + p + ":transferId-" + i, "balanceId-" + q + ":transferId-" + j;
    assert x[10..] == p + ([':'] + ("transferId-" + i)) && y[10..] == q + ([':'] + ("transferId-" + j));
    if x == y {
      SplitAtColon(p, "transferId-" + i, q, "transferId-" + j);
      assert ("transferId-" + i)[11..] == i && ("transferId-" + j)[11..] == j;
    }
  }

  lemma {:induction false} SplitAtColon(p: string, r: string, q: string, s: string)
    requires ':' !in p && ':' !in q && p + ([':'] + r) == q + ([':'] + s)
    ensures p == q && r == s
    decreases |p|
  {
    var x, y := p + ([':'] + r), q + ([':'] + s);
    assert p != [] ==> x[0] in p;
    assert q != [] ==> y[0] in q;
    if p == [] {
      assert x[1..] == r && y[1..] == s;
    } else {
      assert x[1..] == p[1..] + ([':'] + r) && y[1..] == q[1..] + ([':'] + s);
      SplitAtColon(p[1..], r, q[1..], s);
      assert p == [x[0]] + p[1..] && q == [y[0]] + q[1..];
    }
  }

  // ---- Statements and their balances ----

  datatype Statement = Statement(startBalance: real, endBalance: real, lineAmount: real, isCredit: bool)

  /** `createBankStatement`: a single line, between two balances. */
  function StatementFor(amount: real): Statement {
    Statement(if amount < 0.0 then -amount else 0.0, if amount < 0.0 then 0.0 else amount, amount, amount < 0.0)
  }

  /** `revertBankStatement` works the amount out from the original's balances. */
  function Reverting(original: Statement): Statement {
    StatementFor(original.startBalance - original.endBalance)
  }

  function RevertedTimes(s: Statement, n: nat): Statement {
    if n == 0 then s else Reverting(RevertedTimes(s, n - 1))
  }

  function LinesOfReverts(s: Statement, n: nat): real {
    if n == 0 then s.lineAmount else LinesOfReverts(s, n - 1) + RevertedTimes(s, n).lineAmount
  }

  /** Each revert swaps the balances, and the lines of the original and its reverts cancel out
      after every odd number of them. */
  lemma {:induction false} RevertsCloseTheBooks(amount: real, n: nat)
    ensures var s, r := StatementFor(amount), RevertedTimes(StatementFor(amount), n);
            && r.lineAmount == (if n % 2 == 0 then amount else -amount)
            && (if n % 2 == 0 then r.startBalance == s.startBalance && r.endBalance == s.endBalance
                else r.startBalance == s.endBalance && r.endBalance == s.startBalance)
            && LinesOfReverts(s, n) == (if n % 2 == 0 then amount else 0.0)
  {
    if n == 0 {
    } else {
      RevertsCloseTheBooks(amount, n - 1);
    }
  }

  // ---- Xero's bank feed ----

  /** How many writes an export needs to end in a row: one, after the two of a recovery if Xero
      calls the connection invalid. */
  function WritesForRow(replies: seq<Reply>): nat {
    if replies != [] && replies[0] == RejectsConnection then 3 else 1
  }

  /** The two balances are not negative, one of them is zero, and they differ by the line's amount,
      which is a credit if it is negative. */
  lemma {:induction false} StatementMeaning(amount: real)
    ensures var s := StatementFor(amount);
            && s.lineAmount == amount && s.endBalance - s.startBalance == amount
            && s.startBalance >= 0.0 && s.endBalance >= 0.0 && (s.startBalance == 0.0 || s.endBalance == 0.0)
            && (s.isCredit <==> amount < 0.0)
  {
  }

  predicate AlreadyAccepted(accepted: seq<Accepted>, transactionId: string) {
    exists i :: 0 <= i < |accepted| && accepted[i].transactionId == transactionId
  }

  /** The answer to a statement: the script's, or a failure once the script has run out, unless
      Xero would accept an id that it must refuse. */
  function Answer(replies: seq<Reply>, rejectsDuplicates: bool, accepted: seq<Accepted>, transactionId: string): Reply {
    if replies == [] then RejectsOtherwise
    else if replies[0] in {Accepts, AcceptsUnheard} && rejectsDuplicates && AlreadyAccepted(accepted, transactionId) then RejectsDuplicate
    else replies[0]
  }

  class Feed {
    /** Whether Xero refuses a transaction id it has already accepted. */
    const rejectsDuplicates: bool
    var accepted: seq<Accepted>
    var nextStatement: nat
    var duplicates: nat                    // how often a statement was rejected as a duplicate
    var replies: seq<Reply>
    var connections: seq<Option<string>>   // replies to requests for a connection
    var closes: seq<bool>                  // replies to requests to close one

    constructor (rejectsDuplicates: bool, replies: seq<Reply>, connections: seq<Option<string>>, closes: seq<bool>)
      ensures this.rejectsDuplicates == rejectsDuplicates && accepted == []
      ensures this.replies == replies && this.connections == connections && this.closes == closes
    {
      this.rejectsDuplicates := rejectsDuplicates;
      accepted, nextStatement, duplicates := [], 0, 0;
      this.replies, this.connections, this.closes := replies, connections, closes;
    }

    /** A new statement gets an id that was never used. */
    method CreateStatement(transactionId: string, amount: real) returns (result: Result<nat, Reply>)
      modifies this`accepted, this`nextStatement, this`replies, this`duplicates
      ensures replies == if old(replies) == [] then [] else old(replies)[1..]
      ensures match result
              case Ok(id) =>
                && Answer(old(replies), rejectsDuplicates, old(accepted), transactionId) == Accepts
                && id == old(nextStatement) && nextStatement == id + 1 && duplicates == old(duplicates)
                && accepted == old(accepted) + [Accepted(transactionId, id, amount)]
              case Err(reply) =>
                && reply == Answer(old(replies), rejectsDuplicates, old(accepted), transactionId) != Accepts
                && accepted == (if reply == AcceptsUnheard then old(accepted) + [Accepted(transactionId, old(nextStatement), amount)]
                                else old(accepted))
                && nextStatement == old(nextStatement) + (if reply == AcceptsUnheard then 1 else 0)
                && duplicates == old(duplicates) + (if reply == RejectsDuplicate then 1 else 0)
    {
      var reply := RejectsOtherwise;
      if |replies| > 0 {
        reply := replies[0];
        replies := replies[1..];
      }
      if reply in {Accepts, AcceptsUnheard} && rejectsDuplicates && AlreadyAccepted(accepted, transactionId) {
        reply := RejectsDuplicate;
      }
      if reply == RejectsDuplicate {
        duplicates := duplicates + 1;
      }
      if reply !in {Accepts, AcceptsUnheard} {
        return Err(reply);
      }
      accepted := accepted + [Accepted(transactionId, nextStatement, amount)];
      nextStatement := nextStatement + 1;
      return if reply == Accepts then Ok(nextStatement - 1) else Err(reply);
    }

    method GetConnection() returns (id: Option<string>)
      modifies this`connections
    {
      id := None;
      if |connections| > 0 {
        id := connections[0];
        connections := connections[1..];
      }
    }

    method CloseConnection() returns (closed: bool)
      modifies this`closes
      ensures closed == (old(closes) == [] || old(closes)[0])
      ensures closes == if old(closes) == [] then [] else old(closes)[1..]
    {
      closed := true;
      if |closes| > 0 {
        closed := closes[0];
        closes := closes[1..];
      }
    }
  }

  // ---- What every sequence of exports keeps ----

  ghost predicate SameEntity(r: StatementRow, s: StatementRow) {
    r.accountId == s.accountId && r.entityId == s.entityId && r.entityType == s.entityType
  }

  /** How many rows and accepted statements there were before the first of some exports. */
  datatype Mark = Mark(rows: nat, statements: nat)

  /** A row that came from Xero accepting the entity's own transaction id, from the given
      statement on. */
  ghost predicate CameFromXero(r: StatementRow, accepted: seq<Accepted>, from: nat) {
    exists e: Entity, i ::
      && e.id == r.entityId && TypeOf(e) == r.entityType && TransactionId(e) == r.xeroEntityId
      && from <= i < |accepted| && accepted[i].transactionId == r.xeroEntityId && accepted[i].statementId == r.statementId
  }

  ghost predicate HasRow(rows: seq<StatementRow>, accountId: string, e: Entity) {
    FirstStatement(rows, accountId, LookupId(e), e.id, TypeOf(e)).Some?
  }

  lemma {:induction false} RowsStay(rows: seq<StatementRow>, more: seq<StatementRow>, accountId: string, e: Entity)
    requires rows <= more && HasRow(rows, accountId, e)
    ensures HasRow(more, accountId, e)
  {
    var i :| 0 <= i < |rows| && Matches(rows[i], accountId, LookupId(e), e.id, TypeOf(e));
    assert more[i] == rows[i];
  }

  ghost predicate AcceptedOnce(accepted: seq<Accepted>) {
    forall i, j :: 0 <= i < j < |accepted| ==> accepted[i].transactionId != accepted[j].transactionId
  }

  ghost predicate Recorded(rows: seq<StatementRow>, start: Mark, accepted: seq<Accepted>) {
    && start.rows <= |rows| && start.statements <= |accepted|
    && (forall i, j :: start.rows <= i < j < |rows| ==> !SameEntity(rows[i], rows[j]))
    && (forall i :: start.rows <= i < |rows| ==> CameFromXero(rows[i], accepted, start.statements))
  }

  ghost predicate Good(store: Store, feed: Feed, start: Mark)
    reads store, feed
  {
    && Recorded(store.statements, start, feed.accepted)
    && (feed.rejectsDuplicates ==> AcceptedOnce(feed.accepted))
  }

  lemma {:induction false} GoodWhenOneMore(rows: seq<StatementRow>, start: Mark, accepted: seq<Accepted>, a: Accepted)
    requires Recorded(rows, start, accepted)
    ensures Recorded(rows, start, accepted + [a])
    ensures AcceptedOnce(accepted) && !AlreadyAccepted(accepted, a.transactionId) ==> AcceptedOnce(accepted + [a])
  {
    RecordedWhenMoreAccepted(rows, start, accepted, a);
  }

  lemma {:induction false} RecordedWhenMoreAccepted(rows: seq<StatementRow>, start: Mark, accepted: seq<Accepted>, a: Accepted)
    requires Recorded(rows, start, accepted)
    ensures Recorded(rows, start, accepted + [a])
  {
    forall i | start.rows <= i < |rows|
      ensures CameFromXero(rows[i], accepted + [a], start.statements)
    {
      var e: Entity, k :| e.id == rows[i].entityId && TypeOf(e) == rows[i].entityType && TransactionId(e) == rows[i].xeroEntityId
        && start.statements <= k < |accepted| && accepted[k].transactionId == rows[i].xeroEntityId && accepted[k].statementId == rows[i].statementId;
      assert (accepted + [a])[k] == accepted[k];
    }
  }

  /** A row of these exports that belongs to the entity would have been found. */
  lemma {:induction false} LookupFindsOwnRows(r: StatementRow, accepted: seq<Accepted>, from: nat, accountId: string, e: Entity)
    requires CameFromXero(r, accepted, from)
    requires r.accountId == accountId && r.entityId == e.id && r.entityType == TypeOf(e)
    ensures Matches(r, accountId, LookupId(e), e.id, TypeOf(e))
  {
  }

  lemma {:induction false} RecordedWithNewRow(rows: seq<StatementRow>, start: Mark, accepted: seq<Accepted>, accountId: string, e: Entity, id: nat, i: nat)
    requires Recorded(rows, start, accepted)
    requires FirstStatement(rows, accountId, LookupId(e), e.id, TypeOf(e)).None?
    requires start.statements <= i < |accepted| && accepted[i].transactionId == TransactionId(e) && accepted[i].statementId == id
    ensures Recorded(rows + [StatementRow(accountId, TransactionId(e), e.id, TypeOf(e), id)], start, accepted)
  {
    var row := StatementRow(accountId, TransactionId(e), e.id, TypeOf(e), id);
    assert CameFromXero(row, accepted, start.statements);
    forall k | start.rows <= k < |rows|
      ensures !SameEntity(rows[k], row)
    {
      if SameEntity(rows[k], row) {
        LookupFindsOwnRows(rows[k], accepted, start.statements, accountId, e);
      }
    }
  }

  // ---- Exporting ----

  datatype BankAccount = BankAccount(currency: string)

  /** What looking up the bank account gives; `ArchivedAccount` is recognised by its message. */
  datatype AccountReply = FoundAccount(account: BankAccount) | ArchivedAccount | NoAccount

  function CardStatementAmount(t: Expenses.Transaction): real {
    SumAmounts([t.cardAmount, t.fxFee, t.posFee])
  }

  function BalanceStatementAmount(p: Expenses.BalancePayment): real {
    SumAmounts([p.amount, p.fees])
  }

  /** A statement for one of the expense's payments, fees included. */
  ghost predicate StatesPaymentOf(a: Accepted, x: Expenses.Expense) {
    || (exists i :: 0 <= i < |x.transactions| && a.transactionId == TransactionId(CardTransaction(x.transactions[i].id))
                    && a.amount == CardStatementAmount(x.transactions[i]))
    || (exists p <- Expenses.SettledPayments(x.balancePayments) ::
          a.transactionId == TransactionId(BalancePayment(p.id)) && a.amount == BalanceStatementAmount(p))
  }

  /** All statements accepted from the given one on. */
  ghost predicate StatePaymentsOf(accepted: seq<Accepted>, from: nat, x: Expenses.Expense) {
    forall k :: from <= k < |accepted| ==> StatesPaymentOf(accepted[k], x)
  }

  ghost predicate CardsHaveRows(rows: seq<StatementRow>, accountId: string, ts: seq<Expenses.Transaction>, n: nat)
    requires n <= |ts|
  {
    forall i :: 0 <= i < n ==> HasRow(rows, accountId, CardTransaction(ts[i].id))
  }

  lemma {:induction false} CardStatesPayment(accepted: seq<Accepted>, from: nat, x: Expenses.Expense, i: nat, id: nat)
    requires StatePaymentsOf(accepted, from, x) && i < |x.transactions|
    ensures StatePaymentsOf(accepted + [Accepted(TransactionId(CardTransaction(x.transactions[i].id)), id,
                                                 CardStatementAmount(x.transactions[i]))], from, x)
  {
  }

  lemma {:induction false} OneMoreCardHasRow(rows: seq<StatementRow>, more: seq<StatementRow>, accountId: string,
                                             ts: seq<Expenses.Transaction>, n: nat)
    requires rows <= more && n < |ts| && CardsHaveRows(rows, accountId, ts, n)
    requires HasRow(more, accountId, CardTransaction(ts[n].id))
    ensures CardsHaveRows(more, accountId, ts, n + 1)
  {
    forall i | 0 <= i < n
      ensures HasRow(more, accountId, CardTransaction(ts[i].id))
    {
      RowsStay(rows, more, accountId, CardTransaction(ts[i].id));
    }
  }

  /** Whether statements of card payments are due. */
  predicate CardsAreDue(x: Expenses.Expense) {
    && x.transactions != [] && Expenses.SameCurrency(x.transactions) && Expenses.AllSettled(x.transactions)
    && x.transactions[0].cardCurrency != ""
  }

  /** Whether the statement of a balance payment is due. */
  predicate BalanceIsDue(x: Expenses.Expense) {
    && x.transactions == [] && x.isPaid && x.sourceType == Some(Expenses.Balance)
    && |Expenses.SettledPayments(x.balancePayments)| == 1 && x.balancePayments[0].currency != ""
  }

  /** How sending a statement ended. */
  datatype Sent = Received(id: nat) | Duplicate | NotSent(failure: Failure)

  /** Nothing more was accepted, or this statement was, if need be as the first with its id. */
  ghost predicate IsAtMostOneMore(before: seq<Accepted>, after: seq<Accepted>, a: Accepted, rejectsDuplicates: bool) {
    after == before || (after == before + [a] && (rejectsDuplicates ==> !AlreadyAccepted(before, a.transactionId)))
  }

  /** Whether the row of a received statement can be made. */
  ghost predicate RowFits(rows: seq<StatementRow>, id: nat, budget: nat, writes: nat) {
    budget >= writes && forall r <- rows :: r.statementId != id
  }

  // ---- Exports that nothing stands in the way of ----

  /** Store and feed at one time, as far as exports depend on them. */
  datatype Before = Before(rows: seq<StatementRow>, accepted: seq<Accepted>, replies: seq<Reply>, budget: nat, next: nat,
                           connections: seq<Connection>)

  /** The entity has no row and no statement, Xero will accept its statement, and the row will fit. */
  ghost predicate IsClear(b: Before, rejectsDuplicates: bool, accountId: string, e: Entity) {
    && (forall r <- b.rows :: !(r.accountId == accountId && r.entityId == e.id && r.entityType == TypeOf(e)
                                && (e.Transfer? || r.xeroEntityId == TransactionId(e))))
    && (rejectsDuplicates ==> forall a <- b.accepted :: a.transactionId != TransactionId(e))
    && b.replies != [] && b.replies[0] == Accepts
    && b.budget > 0 && forall r <- b.rows :: r.statementId != b.next
  }

  /** Exactly one statement and its row. */
  ghost predicate IsExported(b: Before, now: Before, accountId: string, e: Entity, amount: real) {
    && now.accepted == b.accepted + [Accepted(TransactionId(e), b.next, amount)]
    && now.rows == b.rows + [StatementRow(accountId, TransactionId(e), e.id, TypeOf(e), b.next)]
    && b.replies != [] && now.replies == b.replies[1..] && now.next == b.next + 1 && now.budget == b.budget - 1
    && now.connections == b.connections
  }

  lemma {:induction false} ClearMeaning(b: Before, rejectsDuplicates: bool, accountId: string, e: Entity)
    requires IsClear(b, rejectsDuplicates, accountId, e)
    ensures !HasRow(b.rows, accountId, e)
    ensures Answer(b.replies, rejectsDuplicates, b.accepted, TransactionId(e)) == Accepts
    ensures RowFits(b.rows, b.next, b.budget, 1)
  {
    assert forall i :: 0 <= i < |b.accepted| ==> b.accepted[i] in b.accepted;
    forall i | 0 <= i < |b.rows|
      ensures !Matches(b.rows[i], accountId, LookupId(e), e.id, TypeOf(e))
    {
      assert b.rows[i] in b.rows;
    }
  }

  /** The same for all card payments of an expense, which have different ids. */
  ghost predicate CardsAreClear(b: Before, rejectsDuplicates: bool, accountId: string, ts: seq<Expenses.Transaction>) {
    && (forall i, j :: 0 <= i < j < |ts| ==> ts[i].id != ts[j].id)
    && (forall i, r :: 0 <= i < |ts| && r in b.rows ==>
          !(r.accountId == accountId && r.entityId == ts[i].id && r.entityType == TransactionEntity && r.xeroEntityId == "transaction-" + ts[i].id))
    && (rejectsDuplicates ==> forall i, a :: 0 <= i < |ts| && a in b.accepted ==> a.transactionId != "transaction-" + ts[i].id)
    && |b.replies| >= |ts| && (forall i :: 0 <= i < |ts| ==> b.replies[i] == Accepts)
    && b.budget >= |ts| && forall r <- b.rows :: r.statementId < b.next
  }

  /** One statement for each card payment, in order, of amount and fees. */
  function CardStatements(ts: seq<Expenses.Transaction>, next: nat): (r: seq<Accepted>) {
    seq(|ts|, i requires 0 <= i < |ts| => Accepted("transaction-" + ts[i].id, next + i, SumAmounts([ts[i].cardAmount, ts[i].fxFee, ts[i].posFee])))
  }

  /** And one row for each of them. */
  function CardRows(accountId: string, ts: seq<Expenses.Transaction>, next: nat): (r: seq<StatementRow>) {
    seq(|ts|, i requires 0 <= i < |ts| => StatementRow(accountId, "transaction-" + ts[i].id, ts[i].id, TransactionEntity, next + i))
  }

  /** How they are after the first i card payments, if nothing stood in the way. */
  ghost predicate CardsExported(b: Before, now: Before, accountId: string, ts: seq<Expenses.Transaction>, i: nat)
    requires i <= |ts|
  {
    && now.accepted == b.accepted + CardStatements(ts, b.next)[..i] && now.rows == b.rows + CardRows(accountId, ts, b.next)[..i]
    && i <= |b.replies| && now.replies == b.replies[i..] && now.budget == b.budget - i && now.next == b.next + i
    && now.connections == b.connections
  }

  /** After the first i card payments the next one is clear. */
  lemma {:induction false} NextCardIsClear(b: Before, now: Before, rejectsDuplicates: bool, accountId: string, ts: seq<Expenses.Transaction>, i: nat)
    requires CardsAreClear(b, rejectsDuplicates, accountId, ts) && i < |ts| && CardsExported(b, now, accountId, ts, i)
    ensures IsClear(now, rejectsDuplicates, accountId, CardTransaction(ts[i].id))
  {
    var e := CardTransaction(ts[i].id);
    assert TransactionId(e) == "transaction-" + ts[i].id;
    forall k | 0 <= k < i
      ensures CardStatements(ts, b.next)[k].transactionId != TransactionId(e)
    {
      TransactionIdsDiffer(CardTransaction(ts[k].id), e);
    }
  }

  lemma {:induction false} OneMoreCardExported(b: Before, was: Before, now: Before, accountId: string, ts: seq<Expenses.Transaction>, i: nat)
    requires i < |ts| && CardsExported(b, was, accountId, ts, i)
    requires IsExported(was, now, accountId, CardTransaction(ts[i].id), CardStatementAmount(ts[i]))
    ensures CardsExported(b, now, accountId, ts, i + 1)
  {
    assert CardStatements(ts, b.next)[..i + 1] == CardStatements(ts, b.next)[..i] + [CardStatements(ts, b.next)[i]];
    assert CardRows(accountId, ts, b.next)[..i + 1] == CardRows(accountId, ts, b.next)[..i] + [CardRows(accountId, ts, b.next)[i]];
    assert b.replies[i..][1..] == b.replies[i + 1..];
  }

  class StatementExporter {
    const accountId: string
    const store: Store
    const feed: Feed

    constructor (accountId: string, store: Store, feed: Feed)
      ensures this.accountId == accountId && this.store == store && this.feed == feed
    {
      this.accountId, this.store, this.feed := accountId, store, feed;
    }

    ghost function Now(): Before
      reads store, feed
    {
      Before(store.statements, feed.accepted, feed.replies, store.budget, feed.nextStatement, store.connections)
    }

    ghost predicate AreClear(b: Before, ts: seq<Expenses.Transaction>) {
      CardsAreClear(b, feed.rejectsDuplicates, accountId, ts)
    }

    /** After Xero called a connection invalid: its row is deleted, a connection is asked for, the
        old id is stored again, and the statement is sent a second time. */
    method Recover(connectionId: string, e: Entity, bankAccount: BankAccount, amount: real) returns (result: Result<nat, Failure>)
      modifies store`connections, store`budget, feed
      ensures feed.duplicates >= old(feed.duplicates)
      ensures IsAtMostOneMore(old(feed.accepted), feed.accepted, Accepted(TransactionId(e), old(feed.nextStatement), amount), feed.rejectsDuplicates)
      ensures match result
              case Ok(id) =>
                && store.budget == old(store.budget) - 2
                && id == old(feed.nextStatement)
                && feed.accepted == old(feed.accepted) + [Accepted(TransactionId(e), id, amount)]
                && store.connections == WithoutConnection(old(store.connections), accountId, connectionId)
                                        + [Connection(accountId, connectionId, bankAccount.currency)]
              case Err(_) => true
    {
      var lost := store.DeleteConnectionForAccount(accountId, connectionId);
      if lost.Some? {
        return Err(Database(lost.value));
      }
      var newConnectionId := feed.GetConnection();
      if newConnectionId.None? {
        return Err(NoConnection);
      }
      lost := store.CreateConnection(Connection(accountId, connectionId, bankAccount.currency));
      if lost.Some? {
        return Err(Database(lost.value));
      }
      var again := feed.CreateStatement(TransactionId(e), amount);
      return if again.Ok? then Ok(again.value) else Err(StatementRejected(again.error));
    }

    /** The row of a statement that Xero has just accepted. */
    method Record(e: Entity, statementId: nat, ghost start: Mark) returns (failure: Option<Failure>)
      requires Good(store, feed, start) && !HasRow(store.statements, accountId, e)
      requires |feed.accepted| > start.statements && feed.accepted[|feed.accepted| - 1].transactionId == TransactionId(e)
      requires feed.accepted[|feed.accepted| - 1].statementId == statementId
      modifies store`statements, store`budget
      ensures Good(store, feed, start)
      ensures store.statements == if failure.Some? then old(store.statements)
                                  else old(store.statements) + [StatementRow(accountId, TransactionId(e), e.id, TypeOf(e), statementId)]
      ensures failure.None? ==> HasRow(store.statements, accountId, e)
      // the row is made if and only if the database answers and the id is free
      ensures failure.None? <==> RowFits(old(store.statements), statementId, old(store.budget), 1)
      ensures failure.None? ==> store.budget == old(store.budget) - 1
    {
      RecordedWithNewRow(store.statements, start, feed.accepted, accountId, e, statementId, |feed.accepted| - 1);
      var lost := store.CreateStatement(StatementRow(accountId, TransactionId(e), e.id, TypeOf(e), statementId));
      if lost.Some? {
        return Some(Database(lost.value));
      }
      assert Matches(store.statements[|store.statements| - 1], accountId, LookupId(e), e.id, TypeOf(e));
      return None;
    }

    /** The first half of `tryCreateBankStatement`: the statement is sent, once more after recovery. */
    method SendStatement(connectionId: string, e: Entity, bankAccount: BankAccount, amount: real, ghost start: Mark) returns (sent: Sent)
      requires Good(store, feed, start)
      modifies store`connections, store`budget, feed
      ensures Good(store, feed, start)
      ensures IsAtMostOneMore(old(feed.accepted), feed.accepted, Accepted(TransactionId(e), old(feed.nextStatement), amount), feed.rejectsDuplicates)
      ensures feed.duplicates >= old(feed.duplicates) && (sent.Duplicate? ==> feed.duplicates > old(feed.duplicates))
      ensures sent.Received? ==> && sent.id == old(feed.nextStatement) && feed.accepted != old(feed.accepted)
                                 && store.budget == old(store.budget) - (WritesForRow(old(feed.replies)) - 1)
      ensures var answer := Answer(old(feed.replies), feed.rejectsDuplicates, old(feed.accepted), TransactionId(e));
              && (answer == Accepts ==>
                    && sent.Received? && feed.replies == old(feed.replies)[1..] && feed.nextStatement == old(feed.nextStatement) + 1
                    && store.budget == old(store.budget) && feed.duplicates == old(feed.duplicates))
              && (answer != RejectsConnection ==> store.connections == old(store.connections))
              && (answer == RejectsConnection && sent.Received? ==>
                    store.connections == WithoutConnection(old(store.connections), accountId, connectionId)
                                         + [Connection(accountId, connectionId, bankAccount.currency)])
    {
      GoodWhenOneMore(store.statements, start, feed.accepted, Accepted(TransactionId(e), feed.nextStatement, amount));
      var created := feed.CreateStatement(TransactionId(e), amount);
      match created
      case Ok(id) => return Received(id);
      case Err(RejectsConnection) =>
        var recovered := Recover(connectionId, e, bankAccount, amount);
        return if recovered.Ok? then Received(recovered.value) else NotSent(recovered.error);
      case Err(RejectsDuplicate) => return Duplicate;
      case Err(reply) => return NotSent(StatementRejected(reply));
    }

    /** `tryCreateBankStatement`, for an entity whose lookup found no row. */
    method TryCreateBankStatement(connectionId: string, e: Entity, bankAccount: BankAccount, amount: real, ghost start: Mark)
      returns (failure: Option<Failure>, ghost received: bool)
      requires Good(store, feed, start) && !HasRow(store.statements, accountId, e)
      modifies store, feed
      ensures Good(store, feed, start)
      // at most one statement more, at most one row more, and no row without its statement
      ensures IsAtMostOneMore(old(feed.accepted), feed.accepted, Accepted(TransactionId(e), old(feed.nextStatement), amount), feed.rejectsDuplicates)
      ensures store.statements == old(store.statements)
           || (store.statements == old(store.statements)
                                   + [StatementRow(accountId, TransactionId(e), e.id, TypeOf(e), old(feed.nextStatement))]
               && feed.accepted != old(feed.accepted))
      ensures feed.duplicates >= old(feed.duplicates)
      ensures failure.None? ==> HasRow(store.statements, accountId, e) || feed.duplicates > old(feed.duplicates)
      ensures failure.Some? ==> store.statements == old(store.statements)
      // the row is made if and only if the accepted statement's id is received and free, and a write
      // is left after the two that a recovery takes
      ensures received ==> feed.accepted != old(feed.accepted)
      ensures store.statements != old(store.statements)
         <==> received && RowFits(old(store.statements), old(feed.nextStatement), old(store.budget), WritesForRow(old(feed.replies)))
      ensures Answer(old(feed.replies), feed.rejectsDuplicates, old(feed.accepted), TransactionId(e)) == Accepts ==> received
      // the stored connections change only in recovery, which ends with the old id stored again
      ensures var answer := Answer(old(feed.replies), feed.rejectsDuplicates, old(feed.accepted), TransactionId(e));
              && (answer != RejectsConnection ==> store.connections == old(store.connections))
              && (answer == RejectsConnection && failure.None? && feed.duplicates == old(feed.duplicates) ==>
                    store.connections == WithoutConnection(old(store.connections), accountId, connectionId)
                                         + [Connection(accountId, connectionId, bankAccount.currency)])
      // with nothing in the way: one statement and its row
      ensures IsClear(old(Now()), feed.rejectsDuplicates, accountId, e) ==> failure.None? && IsExported(old(Now()), Now(), accountId, e, amount)
    {
      if IsClear(Now(), feed.rejectsDuplicates, accountId, e) {
        ClearMeaning(Now(), feed.rejectsDuplicates, accountId, e);
      }
      var sent := SendStatement(connectionId, e, bankAccount, amount, start);
      match sent
      case Received(id) =>
        failure := Record(e, id, start);
        received := true;
      case Duplicate => return None, false;
      case NotSent(reason) => return Some(reason), false;
    }

    /** One entity, unless it has been exported already. */
    method ExportEntity(connectionId: string, e: Entity, bankAccount: BankAccount, amount: real, ghost start: Mark)
      returns (failure: Option<Failure>)
      requires Good(store, feed, start)
      modifies store, feed
      ensures Good(store, feed, start)
      ensures old(store.statements) <= store.statements && feed.duplicates >= old(feed.duplicates)
      ensures feed.accepted == old(feed.accepted)
           || feed.accepted == old(feed.accepted) + [Accepted(TransactionId(e), old(feed.nextStatement), amount)]
      ensures failure.None? ==> HasRow(store.statements, accountId, e) || feed.duplicates > old(feed.duplicates)
      ensures HasRow(old(store.statements), accountId, e) ==>
                failure.None? && store.statements == old(store.statements) && feed.accepted == old(feed.accepted)
      ensures IsClear(old(Now()), feed.rejectsDuplicates, accountId, e) ==> failure.None? && IsExported(old(Now()), Now(), accountId, e, amount)
    {
      if IsClear(Now(), feed.rejectsDuplicates, accountId, e) {
        ClearMeaning(Now(), feed.rejectsDuplicates, accountId, e);
      }
      var existing := FirstStatement(store.statements, accountId, LookupId(e), e.id, TypeOf(e));
      if existing.Some? {
        return None;
      }
      ghost var received;
      failure, received := TryCreateBankStatement(connectionId, e, bankAccount, amount, start);
    }

    /** The bank account and a stored connection for a currency. A connection whose account turns
        out to be archived is forgotten. */
    method EnsureConnection(currency: string, reply: AccountReply) returns (result: Result<(string, BankAccount), Failure>)
      modifies store`connections, store`budget, feed`connections
      ensures var stored := FirstConnection(old(store.connections), accountId, currency);
              match result
              case Ok((id, account)) =>
                && reply == FoundAccount(account)
                && (if stored.Some? then stored == Some(id) && store.connections == old(store.connections) && store.budget == old(store.budget)
                    else store.connections == old(store.connections) + [Connection(accountId, id, account.currency)])
              case Err(AccountArchived) =>
                && reply == ArchivedAccount
                && store.connections == if stored.Some? then WithoutConnection(old(store.connections), accountId, stored.value)
                                        else old(store.connections)
              case Err(_) => store.connections == old(store.connections)
      ensures FirstConnection(old(store.connections), accountId, currency).Some? && reply.FoundAccount? ==> result.Ok?
    {
      var connectionId := FirstConnection(store.connections, accountId, currency);
      match reply {
        case NoAccount => return Err(NoBankAccount);
        case ArchivedAccount =>
          if connectionId.Some? {
            var lost := store.DeleteConnectionForAccount(accountId, connectionId.value);
            if lost.Some? {
              return Err(Database(lost.value));
            }
          }
          return Err(AccountArchived);
        case FoundAccount(account) =>
          if connectionId.Some? {
            return Ok((connectionId.value, account));
          }
          var newId := feed.GetConnection();
          if newId.None? {
            return Err(NoConnection);
          }
          var lost := store.CreateConnection(Connection(accountId, newId.value, account.currency));
          if lost.Some? {
            return Err(Database(lost.value));
          }
          return Ok((newId.value, account));
      }
    }

    /** `exportBankStatementForTransfer` */
    method ExportForTransfer(balanceId: string, id: string, currency: string, amount: real, reply: AccountReply, ghost start: Mark)
      returns (failure: Option<Failure>)
      requires Good(store, feed, start)
      modifies store, feed
      ensures Good(store, feed, start)
      ensures old(store.statements) <= store.statements
      // at most one statement, of the transferred amount with its sign turned
      ensures var e := Transfer(balanceId, id);
              && IsAtMostOneMore(old(feed.accepted), feed.accepted, Accepted(TransactionId(e), old(feed.nextStatement), -amount), feed.rejectsDuplicates)
              && (store.statements != old(store.statements) ==> feed.accepted != old(feed.accepted))
              && (failure.None? ==> HasRow(store.statements, accountId, e) || feed.duplicates > old(feed.duplicates))
              && (HasRow(old(store.statements), accountId, e) ==>
                    failure.None? && store.statements == old(store.statements) && feed.accepted == old(feed.accepted))
      // with a connection at hand: when Xero accepts, and when the row is made then
      ensures var e := Transfer(balanceId, id);
              !HasRow(old(store.statements), accountId, e) && reply.FoundAccount?
              && FirstConnection(old(store.connections), accountId, currency).Some?
              && Answer(old(feed.replies), feed.rejectsDuplicates, old(feed.accepted), TransactionId(e)) == Accepts ==>
                && feed.accepted != old(feed.accepted)
                && (store.statements != old(store.statements)
                    <==> RowFits(old(store.statements), old(feed.nextStatement), old(store.budget), 1))
    {
      var e := Transfer(balanceId, id);
      var existing := FirstStatement(store.statements, accountId, LookupId(e), id, TransferEntity);
      if existing.Some? {
        return None;
      }
      var connection := EnsureConnection(currency, reply);
      if connection.Err? {
        return Some(connection.error);
      }
      assert store.statements == old(store.statements) && feed.accepted == old(feed.accepted) && feed.replies == old(feed.replies);
      ghost var received;
      failure, received := TryCreateBankStatement(connection.value.0, e, connection.value.1, -amount, start);
    }

    /** `_exportBankStatementForExpense` */
    method ExportForExpense(x: Expenses.Expense, reply: AccountReply, ghost start: Mark) returns (failure: Option<Failure>)
      requires Good(store, feed, start)
      modifies store, feed
      ensures Good(store, feed, start)
      ensures old(store.statements) <= store.statements
      // every new statement states a payment of this expense
      ensures old(feed.accepted) <= feed.accepted
      ensures StatePaymentsOf(feed.accepted, |old(feed.accepted)|, x)
      // an expense exported before statements were made per payment is left alone
      ensures FirstStatement(old(store.statements), accountId, "", x.id, ExpenseEntity).Some? ==>
                store.statements == old(store.statements) && feed.accepted == old(feed.accepted)
      // otherwise success means that every payment due is recorded, unless Xero called one a duplicate
      ensures (failure.None? && feed.duplicates == old(feed.duplicates)
               && FirstStatement(old(store.statements), accountId, "", x.id, ExpenseEntity).None?) ==>
                && (CardsAreDue(x) ==> CardsHaveRows(store.statements, accountId, x.transactions, |x.transactions|))
                && (BalanceIsDue(x) ==>
                      HasRow(store.statements, accountId, BalancePayment(Expenses.SettledPayments(x.balancePayments)[0].id)))
      // nothing is sent unless card payments or a balance payment are due
      ensures !CardsAreDue(x) && !BalanceIsDue(x) ==> store.statements == old(store.statements) && feed.accepted == old(feed.accepted)
      ensures (exists i :: 0 <= i < |x.transactions| && x.transactions[i].cardCurrency != x.transactions[0].cardCurrency) ==>
                failure == Some(MixedCurrencies)
      // with a connection at hand and nothing in the way: exactly one statement and one row for each payment that is due
      ensures (reply.FoundAccount? && FirstStatement(old(store.statements), accountId, "", x.id, ExpenseEntity).None?) ==>
                && (CardsAreDue(x) && FirstConnection(old(store.connections), accountId, x.transactions[0].cardCurrency).Some?
                    && AreClear(old(Now()), x.transactions) ==>
                      failure.None? && CardsExported(old(Now()), Now(), accountId, x.transactions, |x.transactions|))
                && (BalanceIsDue(x) && FirstConnection(old(store.connections), accountId, x.balancePayments[0].currency).Some? ==>
                      forall k: nat :: Expenses.IsOnlySettled(x.balancePayments, k) ==>
                        var p := x.balancePayments[k];
                        IsClear(old(Now()), feed.rejectsDuplicates, accountId, BalancePayment(p.id)) ==>
                          && failure.None?
                          && feed.accepted == old(feed.accepted) + [Accepted("balance-payment-" + p.id, old(feed.nextStatement), SumAmounts([p.amount, p.fees]))]
                          && store.statements == old(store.statements)
                                                 + [StatementRow(accountId, "balance-payment-" + p.id, p.id, BalancePaymentEntity, old(feed.nextStatement))])
    {
      var currency;
      var isPaidWithBalancePayment := x.isPaid && x.sourceType == Some(Expenses.Balance);
      if |x.transactions| > 0 {
        if !Expenses.SameCurrency(x.transactions) {
          return Some(MixedCurrencies);
        }
        if !Expenses.AllSettled(x.transactions) {
          return None;
        }
        currency := x.transactions[0].cardCurrency;
      } else {
        if !isPaidWithBalancePayment {
          return None;
        }
        if |x.balancePayments| == 0 {
          return Some(TypeError);
        }
        currency := x.balancePayments[0].currency;
      }
      if currency == "" {
        return Some(NoCurrency);
      }
      var existing := FirstStatement(store.statements, accountId, "", x.id, ExpenseEntity);
      if existing.Some? {
        return None;
      }
      var connection := EnsureConnection(currency, reply);
      if connection.Err? {
        return Some(connection.error);
      }
      if |x.transactions| > 0 {
        failure := ExportCards(x, connection.value.0, connection.value.1, start);
        return;
      }
      var settled := Expenses.SettledPayments(x.balancePayments);
      if |settled| != 1 {
        return None;
      }
      Expenses.SettledPaymentsMeaning(x.balancePayments);
      failure := ExportEntity(connection.value.0, BalancePayment(settled[0].id), connection.value.1,
                              BalanceStatementAmount(settled[0]), start);
      assert settled[0] in Expenses.SettledPayments(x.balancePayments);
    }

    /** One turn of the loop over the expense's card payments. */
    method ExportCard(x: Expenses.Expense, i: nat, connectionId: string, bankAccount: BankAccount, ghost start: Mark, ghost from: nat,
                      ghost before: Before)
      returns (failure: Option<Failure>)
      requires Good(store, feed, start) && i < |x.transactions|
      requires from <= |feed.accepted| && StatePaymentsOf(feed.accepted, from, x)
      modifies store, feed
      ensures Good(store, feed, start)
      ensures old(store.statements) <= store.statements && old(feed.accepted) <= feed.accepted
      ensures StatePaymentsOf(feed.accepted, from, x) && feed.duplicates >= old(feed.duplicates)
      ensures (failure.None? && feed.duplicates == old(feed.duplicates)
               && CardsHaveRows(old(store.statements), accountId, x.transactions, i)) ==>
                CardsHaveRows(store.statements, accountId, x.transactions, i + 1)
      ensures AreClear(before, x.transactions) && CardsExported(before, old(Now()), accountId, x.transactions, i) ==>
                failure.None? && CardsExported(before, Now(), accountId, x.transactions, i + 1)
    {
      var ts := x.transactions;
      ghost var rows, was := store.statements, Now();
      ghost var clear := AreClear(before, ts) && CardsExported(before, was, accountId, ts, i);
      CardStatesPayment(feed.accepted, from, x, i, feed.nextStatement);
      if clear {
        NextCardIsClear(before, was, feed.rejectsDuplicates, accountId, ts, i);
      }
      failure := ExportEntity(connectionId, CardTransaction(ts[i].id), bankAccount, CardStatementAmount(ts[i]), start);
      if failure.None? && feed.duplicates == old(feed.duplicates) && CardsHaveRows(rows, accountId, ts, i) {
        OneMoreCardHasRow(rows, store.statements, accountId, ts, i);
      }
      if clear {
        OneMoreCardExported(before, was, Now(), accountId, ts, i);
      }
    }

    /** The loop over the expense's card payments. */
    method ExportCards(x: Expenses.Expense, connectionId: string, bankAccount: BankAccount, ghost start: Mark)
      returns (failure: Option<Failure>)
      requires Good(store, feed, start)
      modifies store, feed
      ensures Good(store, feed, start)
      ensures old(store.statements) <= store.statements && old(feed.accepted) <= feed.accepted
      ensures StatePaymentsOf(feed.accepted, |old(feed.accepted)|, x)
      ensures (failure.None? && feed.duplicates == old(feed.duplicates)) ==>
                CardsHaveRows(store.statements, accountId, x.transactions, |x.transactions|)
      // with nothing in the way: exactly one statement and one row for each card payment
      ensures AreClear(old(Now()), x.transactions) ==>
                failure.None? && CardsExported(old(Now()), Now(), accountId, x.transactions, |x.transactions|)
    {
      ghost var before := Now();
      for i := 0 to |x.transactions|
        invariant Good(store, feed, start)
        invariant old(store.statements) <= store.statements && old(feed.accepted) <= feed.accepted
        invariant feed.duplicates >= old(feed.duplicates)
        invariant StatePaymentsOf(feed.accepted, |old(feed.accepted)|, x)
        invariant feed.duplicates == old(feed.duplicates) ==> CardsHaveRows(store.statements, accountId, x.transactions, i)
        invariant AreClear(before, x.transactions) ==> CardsExported(before, Now(), accountId, x.transactions, i)
      {
        failure := ExportCard(x, i, connectionId, bankAccount, start, |old(feed.accepted)|, before);
        if failure.Some? {
          return;
        }
      }
      return None;
    }
  }

  // ---- What recovery leaves ----

  lemma {:induction false} FirstConnectionAppended(cs: seq<Connection>, c: Connection, accountId: string, currency: string)
    ensures FirstConnection(cs + [c], accountId, currency)
         == if FirstConnection(cs, accountId, currency).Some? then FirstConnection(cs, accountId, currency)
            else if IsFor(c, accountId, currency) then Some(c.connectionId) else None
  {
    if cs == [] {
    } else {
      assert (cs + [c])[1..] == cs[1..] + [c];
      FirstConnectionAppended(cs[1..], c, accountId, currency);
    }
  }

  lemma {:induction false} RemovedConnectionIsNotFirst(cs: seq<Connection>, accountId: string, connectionId: string, currency: string)
    ensures FirstConnection(WithoutConnection(cs, accountId, connectionId), accountId, currency) != Some(connectionId)
  {
    if cs == [] {
    } else {
      RemovedConnectionIsNotFirst(cs[1..], accountId, connectionId, currency);
    }
  }

  /** After a recovery the next export for the currency is given the id that Xero called invalid
      again, unless the account has another connection for it. */
  lemma {:induction false} RecoveryKeepsTheInvalidId(cs: seq<Connection>, accountId: string, connectionId: string, currency: string)
    ensures var rest := WithoutConnection(cs, accountId, connectionId);
            (FirstConnection(rest + [Connection(accountId, connectionId, currency)], accountId, currency) == Some(connectionId))
                <==> FirstConnection(rest, accountId, currency).None?
  {
    var rest := WithoutConnection(cs, accountId, connectionId);
    FirstConnectionAppended(rest, Connection(accountId, connectionId, currency), accountId, currency);
    RemovedConnectionIsNotFirst(cs, accountId, connectionId, currency);
  }

  // ---- Whole runs ----

  /** One export, and how many writes the database takes before it fails during that export. */
  datatype Job =
    | ForExpense(accountId: string, writes: nat, x: Expenses.Expense, reply: AccountReply)
    | ForTransfer(accountId: string, writes: nat, balanceId: string, id: string, currency: string, amount: real, reply: AccountReply)

  /** If Xero rejects duplicates, no row of these exports is for a statement it had accepted before
      them: a row that was lost is never recorded later. */
  lemma {:induction false} LostRowsStayLost(rows: seq<StatementRow>, start: Mark, accepted: seq<Accepted>)
    requires Recorded(rows, start, accepted) && AcceptedOnce(accepted)
    ensures forall i :: start.rows <= i < |rows| ==> !AlreadyAccepted(accepted[..start.statements], rows[i].xeroEntityId)
  {
  }

  /** Any sequence of exports by any accounts, whatever fails in each, the database being back for the
      next: each entity of an account has at
      most one row made by them, each such row's statement came from Xero accepting that entity's
      own transaction id during these exports, and if Xero rejects duplicates it holds one
      statement per id, and statements it already had get no row any more. */
  method RunExports(store: Store, feed: Feed, jobs: seq<Job>)
    requires feed.rejectsDuplicates ==> AcceptedOnce(feed.accepted)
    modifies store, feed
    ensures old(store.statements) <= store.statements && old(feed.accepted) <= feed.accepted
    ensures Recorded(store.statements, Mark(|old(store.statements)|, |old(feed.accepted)|), feed.accepted)
    ensures feed.rejectsDuplicates ==> AcceptedOnce(feed.accepted)
    ensures feed.rejectsDuplicates ==> forall i :: |old(store.statements)| <= i < |store.statements| ==>
              !AlreadyAccepted(old(feed.accepted), store.statements[i].xeroEntityId)
  {
    ghost var start := Mark(|store.statements|, |feed.accepted|);
    for n := 0 to |jobs|
      invariant Good(store, feed, start)
      invariant old(store.statements) <= store.statements && old(feed.accepted) <= feed.accepted
    {
      store.budget := jobs[n].writes;
      var exporter := new StatementExporter(jobs[n].accountId, store, feed);
      var failure;
      match jobs[n] {
        case ForExpense(_, _, x, reply) => failure := exporter.ExportForExpense(x, reply, start);
        case ForTransfer(_, _, balanceId, id, currency, amount, reply) =>
          failure := exporter.ExportForTransfer(balanceId, id, currency, amount, reply, start);
      }
    }
    assert feed.accepted[..start.statements] == old(feed.accepted);
    if feed.rejectsDuplicates {
      LostRowsStayLost(store.statements, start, feed.accepted);
    }
  }
}
