/** The tables of src/stores/bank-feeds/PgStore.ts. Ids of connections and of statements are
    unique; writes fail once the database is lost, after `budget` more of them. */
module BankFeedStore {
  import opened Basics

  datatype Connection = Connection(accountId: string, connectionId: string, currency: string)

  datatype EntityType = ExpenseEntity | TransactionEntity | BalancePaymentEntity | TransferEntity

  datatype StatementRow = StatementRow(accountId: string, xeroEntityId: string, entityId: string, entityType: EntityType, statementId: nat)

  datatype DbFailure = DatabaseLost | UniqueViolation

  function UpperChar(c: char): char {
    if 'a' <= c <= 'z' then ((c as int) - 32) as char else c
  }

  /** UPPER, on currency codes. */
  function Upper(s: string): string {
    if s == [] then [] else [UpperChar(s[0])] + Upper(s[1..])
  }

  /** Letters lose their case; upper case stays as it is, and so does everything else. */
  lemma {:induction false} UpperMeaning(s: string)
    ensures |Upper(s)| == |s|
    ensures forall i :: 0 <= i < |s| && !('a' <= s[i] <= 'z') ==> Upper(s)[i] == s[i]
    ensures forall i :: 0 <= i < |s| && 'a' <= s[i] <= 'z' ==> 'A' <= Upper(s)[i] <= 'Z' && Upper(s)[i] - 'A' == s[i] - 'a'
  {
    if s == [] {
    } else {
      UpperMeaning(s[1..]);
    }
  }

  /** The currency is looked up whatever its case. */
  lemma {:induction false} CaseIsIgnored(cs: seq<Connection>, accountId: string, currency: string)
    ensures FirstConnection(cs, accountId, Upper(currency)) == FirstConnection(cs, accountId, currency)
  {
    UpperTwice(currency);
    if cs == [] {
    } else {
      CaseIsIgnored(cs[1..], accountId, currency);
    }
  }

  lemma {:induction false} UpperTwice(s: string)
    ensures Upper(Upper(s)) == Upper(s)
  {
    if s == [] {
    } else {
      UpperTwice(s[1..]);
    }
  }

  predicate IsFor(c: Connection, accountId: string, currency: string) {
    c.accountId == accountId && Upper(c.currency) == Upper(currency)
  }

  function FirstConnection(cs: seq<Connection>, accountId: string, currency: string): Option<string> {
    if cs == [] then None
    else if IsFor(cs[0], accountId, currency) then Some(cs[0].connectionId)
    else FirstConnection(cs[1..], accountId, currency)
  }

  function ConnectionIds(cs: seq<Connection>, accountId: string): seq<string> {
    if cs == [] then []
    else if cs[0].accountId == accountId then [cs[0].connectionId] + ConnectionIds(cs[1..], accountId)
    else ConnectionIds(cs[1..], accountId)
  }

  function WithoutConnection(cs: seq<Connection>, accountId: string, connectionId: string): seq<Connection> {
    if cs == [] then []
    else if cs[0].accountId == accountId && cs[0].connectionId == connectionId then WithoutConnection(cs[1..], accountId, connectionId)
    else [cs[0]] + WithoutConnection(cs[1..], accountId, connectionId)
  }

  /** `getStatementByEntityId`; an empty Xero entity id adds no condition. */
  predicate Matches(r: StatementRow, accountId: string, xeroEntityId: string, entityId: string, entityType: EntityType) {
    && r.accountId == accountId && r.entityId == entityId && r.entityType == entityType
    && (xeroEntityId != "" ==> r.xeroEntityId == xeroEntityId)
  }

  function FirstStatement(rows: seq<StatementRow>, accountId: string, xeroEntityId: string, entityId: string, entityType: EntityType): (id: Option<nat>)
    ensures id.None? <==> forall i :: 0 <= i < |rows| ==> !Matches(rows[i], accountId, xeroEntityId, entityId, entityType)
  {
    if rows == [] then None
    else if Matches(rows[0], accountId, xeroEntityId, entityId, entityType) then Some(rows[0].statementId)
    else FirstStatement(rows[1..], accountId, xeroEntityId, entityId, entityType)
  }

  /** The lookup by currency gives the first connection of the account for it. */
  lemma {:induction false} FirstConnectionMeaning(cs: seq<Connection>, accountId: string, currency: string, i: nat)
    requires i < |cs| && cs[i].accountId == accountId && Upper(cs[i].currency) == Upper(currency)
    requires forall j :: 0 <= j < i ==> !(cs[j].accountId == accountId && Upper(cs[j].currency) == Upper(currency))
    ensures FirstConnection(cs, accountId, currency) == Some(cs[i].connectionId)
  {
    if i == 0 {
    } else {
      assert forall j :: 0 <= j < i ==> cs[1..][j] == cs[j + 1];
      FirstConnectionMeaning(cs[1..], accountId, currency, i - 1);
    }
  }

  /** And none if the account has none for it. */
  lemma {:induction false} NoConnectionMeaning(cs: seq<Connection>, accountId: string, currency: string)
    requires forall c <- cs :: !(c.accountId == accountId && Upper(c.currency) == Upper(currency))
    ensures FirstConnection(cs, accountId, currency) == None
  {
    if cs == [] {
    } else {
      NoConnectionMeaning(cs[1..], accountId, currency);
    }
  }

  /** The ids listed are those of the account's connections. */
  lemma {:induction false} ConnectionIdsMeaning(cs: seq<Connection>, accountId: string, id: string)
    ensures id in ConnectionIds(cs, accountId) <==> exists c <- cs :: c.accountId == accountId && c.connectionId == id
  {
    if cs == [] {
    } else {
      ConnectionIdsMeaning(cs[1..], accountId, id);
      assert forall c :: c in cs <==> c == cs[0] || c in cs[1..];
    }
  }

  /** A deletion removes exactly the account's rows with that id. */
  lemma {:induction false} WithoutConnectionMeaning(cs: seq<Connection>, accountId: string, connectionId: string, c: Connection)
    ensures c in WithoutConnection(cs, accountId, connectionId) <==> c in cs && !(c.accountId == accountId && c.connectionId == connectionId)
  {
    if cs == [] {
    } else {
      WithoutConnectionMeaning(cs[1..], accountId, connectionId, c);
      assert c in cs <==> c == cs[0] || c in cs[1..];
    }
  }

  /** The lookup of a statement finds one exactly if a row of the account is for that entity and, when
      a Xero id is asked for, under that id. */
  lemma {:induction false} FirstStatementMeaning(rows: seq<StatementRow>, accountId: string, xeroEntityId: string, entityId: string, entityType: EntityType)
    ensures FirstStatement(rows, accountId, xeroEntityId, entityId, entityType).Some?
       <==> exists r <- rows :: r.accountId == accountId && r.entityId == entityId && r.entityType == entityType
                                && (xeroEntityId == "" || r.xeroEntityId == xeroEntityId)
  {
    if exists r <- rows :: r.accountId == accountId && r.entityId == entityId && r.entityType == entityType
                           && (xeroEntityId == "" || r.xeroEntityId == xeroEntityId) {
      var i :| 0 <= i < |rows| && rows[i].accountId == accountId && rows[i].entityId == entityId && rows[i].entityType == entityType
               && (xeroEntityId == "" || rows[i].xeroEntityId == xeroEntityId);
      assert Matches(rows[i], accountId, xeroEntityId, entityId, entityType);
    }
  }

  ghost predicate UniqueIds(cs: seq<Connection>) {
    forall i, j :: 0 <= i < j < |cs| ==> cs[i].connectionId != cs[j].connectionId
  }

  class Store {
    var connections: seq<Connection>
    var statements: seq<StatementRow>
    var budget: nat

    constructor (budget: nat)
      ensures connections == [] && statements == [] && this.budget == budget
    {
      connections, statements, this.budget := [], [], budget;
    }

    method DeleteConnectionForAccount(accountId: string, connectionId: string) returns (failure: Option<DbFailure>)
      modifies this`connections, this`budget
      ensures failure == if old(budget) > 0 then None else Some(DatabaseLost)
      ensures connections == if failure.None? then WithoutConnection(old(connections), accountId, connectionId) else old(connections)
      ensures budget == if failure.None? then old(budget) - 1 else old(budget)
    {
      if budget == 0 {
        return Some(DatabaseLost);
      }
      budget := budget - 1;
      connections := WithoutConnection(connections, accountId, connectionId);
      return None;
    }

    method CreateConnection(c: Connection) returns (failure: Option<DbFailure>)
      modifies this`connections, this`budget
      ensures failure.None? <==> old(budget) > 0 && forall r <- old(connections) :: r.connectionId != c.connectionId
      ensures connections == if failure.None? then old(connections) + [c] else old(connections)
      ensures budget == if failure.None? then old(budget) - 1 else old(budget)
    {
      if budget == 0 {
        return Some(DatabaseLost);
      }
      if exists r <- connections :: r.connectionId == c.connectionId {
        return Some(UniqueViolation);
      }
      budget := budget - 1;
      connections := connections + [c];
      return None;
    }

    method CreateStatement(row: StatementRow) returns (failure: Option<DbFailure>)
      modifies this`statements, this`budget
      ensures failure.None? <==> old(budget) > 0 && forall r <- old(statements) :: r.statementId != row.statementId
      ensures statements == if failure.None? then old(statements) + [row] else old(statements)
      ensures budget == if failure.None? then old(budget) - 1 else old(budget)
    {
      if budget == 0 {
        return Some(DatabaseLost);
      }
      if exists r <- statements :: r.statementId == row.statementId {
        return Some(UniqueViolation);
      }
      budget := budget - 1;
      statements := statements + [row];
      return None;
    }
  }
}
