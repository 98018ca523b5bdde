/** Which account is connected to which Xero organisation: src/stores/access-tokens/PgStore.ts
    and src/managers/xero-connection/Manager.ts. Operations run one at a time. */
module TenantTokens {
  import opened Basics

  const DEMO_SUFFIX := "_demo"
  const MIN_EXPIRATION_TIME := 60

  datatype TokenSet = TokenSet(accessToken: string, refreshToken: Option<string>, expiresIn: Option<int>)

  datatype Row = Row(userId: string, tenantId: string, token: TokenSet)

  /** `account_id` is the primary key. */
  type Rows = map<string, Row>

  // ---- The two ways of recognising a demo account ----

  /** SQL LIKE: '%' stands for any text and '_' for any one character. */
  predicate Like(s: string, pattern: string)
    decreases |s| + |pattern|
  {
    if pattern == [] then s == []
    else if pattern[0] == '%' then Like(s, pattern[1..]) || (s != [] && Like(s[1..], pattern))
    else s != [] && (pattern[0] == '_' || pattern[0] == s[0]) && Like(s[1..], pattern[1..])
  }

  predicate EndsWith(s: string, suffix: string) {
    |s| >= |suffix| && s[|s| - |suffix|..] == suffix
  }

  predicate LikeDemo(account: string) {
    Like(account, "%" + DEMO_SUFFIX)
  }

  predicate IsDemo(account: string) {
    EndsWith(account, DEMO_SUFFIX)
  }

  lemma {:induction false} LikeLiteral(s: string, pattern: string)
    requires '%' !in pattern && '_' !in pattern
    ensures Like(s, pattern) <==> s == pattern
    decreases |pattern|
  {
    if pattern == [] {
    } else {
      assert pattern[0] in pattern;
      assert forall c <- pattern[1..] :: c in pattern;
      if s != [] {
        LikeLiteral(s[1..], pattern[1..]);
        assert s == [s[0]] + s[1..] && pattern == [pattern[0]] + pattern[1..];
      }
    }
  }

  /** '%' and '_' before plain text ask for one character or more before that text. */
  lemma {:induction false} LikeWithWildcardsFirst(s: string, pattern: string, text: string)
    requires '%' !in text && '_' !in text
    requires |pattern| == |text| + 2 && pattern[0] == '%' && pattern[1] == '_' && pattern[2..] == text
    ensures Like(s, pattern) <==> |s| > |text| && EndsWith(s, text)
    decreases |s|
  {
    var one := pattern[1..];
    assert one[1..] == text;
    LikeOneMore(s, one, text);
    if s == [] {
    } else {
      LikeWithWildcardsFirst(s[1..], pattern, text);
      if |s| > |text| + 1 {
        assert s[1..][|s| - 1 - |text|..] == s[|s| - |text|..];
      }
    }
  }

  lemma {:induction false} LikeOneMore(s: string, one: string, text: string)
    requires '%' !in text && '_' !in text && |one| == |text| + 1 && one[0] == '_' && one[1..] == text
    ensures Like(s, one) <==> |s| == |text| + 1 && s[1..] == text
  {
    if s != [] {
      LikeLiteral(s[1..], text);
    }
  }

  /** The underscore is a wildcard: '%_demo' asks for one more character before "demo". */
  lemma {:induction false} LikeDemoMeaning(account: string)
    ensures LikeDemo(account) <==> |account| >= 5 && account[|account| - 4..] == "demo"
  {
    var pattern := "%" + DEMO_SUFFIX;
    assert pattern[2..] == "demo";
    LikeWithWildcardsFirst(account, pattern, "demo");
  }

  lemma {:induction false} DemoIsLikeDemo(account: string)
    requires IsDemo(account)
    ensures LikeDemo(account)
  {
    LikeDemoMeaning(account);
    assert account[|account| - 4..] == account[|account| - 5..][1..];
  }

  // ---- The table ----

  predicate Conflicts(rows: Rows, account: string, tenant: string, other: string) {
    other in rows && other != account && !LikeDemo(other) && rows[other].tenantId == tenant
  }

  predicate HasConflict(rows: Rows, account: string, tenant: string) {
    exists other :: other in rows && Conflicts(rows, account, tenant, other)
  }

  /** Another account has the tenant, and does not end in "demo" after at least one character. */
  lemma {:induction false} ConflictMeaning(rows: Rows, account: string, tenant: string)
    ensures HasConflict(rows, account, tenant)
       <==> exists other :: other in rows && other != account && rows[other].tenantId == tenant
                            && !(|other| >= 5 && other[|other| - 4..] == "demo")
  {
    forall other | other in rows
      ensures Conflicts(rows, account, tenant, other)
         <==> other != account && rows[other].tenantId == tenant && !(|other| >= 5 && other[|other| - 4..] == "demo")
    {
      LikeDemoMeaning(other);
    }
  }

  function WithoutTenant(rows: Rows, tenant: string): Rows {
    map account | account in rows && rows[account].tenantId != tenant :: rows[account]
  }

  datatype TenantConflict = TenantConflict(tenantId: string, accountId: string, conflictingAccountId: string)

  class TokenStore {
    var rows: Rows

    constructor ()
      ensures rows == map[]
    {
      rows := map[];
    }

    /** Insert or update, unless another account that does not match '%_demo' has the tenant;
        an account whose own id ends in "_demo" is let through all the same. */
    method Create(account: string, userId: string, tenant: string, token: TokenSet) returns (result: Result<(), TenantConflict>)
      modifies this
      ensures result.Err? <==> HasConflict(old(rows), account, tenant) && !IsDemo(account)
      ensures result.Err? <==>
                && !(|account| >= 5 && account[|account| - 5..] == "_demo")
                && exists other :: other in old(rows) && other != account && old(rows)[other].tenantId == tenant
                                   && !(|other| >= 5 && other[|other| - 4..] == "demo")
      ensures result.Ok? ==> rows == old(rows)[account := Row(userId, tenant, token)]
      ensures result.Err? ==> rows == old(rows) && result.error.tenantId == tenant && result.error.accountId == account
                              && Conflicts(old(rows), account, tenant, result.error.conflictingAccountId)
    {
      ConflictMeaning(rows, account, tenant);
      if HasConflict(rows, account, tenant) && !IsDemo(account) {
        var other :| other in rows && Conflicts(rows, account, tenant, other);
        return Err(TenantConflict(tenant, account, other));
      }
      rows := rows[account := Row(userId, tenant, token)];
      return Ok(());
    }

    method UpdateToken(account: string, tenant: string, token: TokenSet) returns (updated: bool)
      modifies this
      ensures updated <==> account in old(rows) && old(rows)[account].tenantId == tenant
      ensures rows == if updated then old(rows)[account := old(rows)[account].(token := token)] else old(rows)
    {
      updated := account in rows && rows[account].tenantId == tenant;
      if updated {
        rows := rows[account := rows[account].(token := token)];
      }
    }

    method Delete(tenant: string)
      modifies this
      ensures rows == WithoutTenant(old(rows), tenant)
      ensures forall a :: a in rows <==> a in old(rows) && old(rows)[a].tenantId != tenant
      ensures forall a :: a in rows ==> rows[a] == old(rows)[a]
    {
      rows := map account | account in rows && rows[account].tenantId != tenant :: rows[account];
    }
  }

  // ---- The connection manager ----

  /** What the authorisation server answers to a refresh. */
  datatype RefreshReply = Refreshed(token: TokenSet) | NoToken | RefreshFails

  predicate IsAccessTokenExpired(token: TokenSet) {
    token.expiresIn.None? || token.expiresIn.value == 0 || token.expiresIn.value <= MIN_EXPIRATION_TIME
  }

  ghost predicate HasMinuteLeft(token: TokenSet) {
    token.expiresIn.Some? && token.expiresIn.value > 60
  }

  /** One operation of an account, with the answers of the outside world. */
  datatype Operation =
    | CreateToken(account: string, userId: string, tenant: string, token: TokenSet)
    | UseToken(account: string, canRefresh: bool, reply: RefreshReply)
    | Disconnect(account: string, canRefresh: bool, reply: RefreshReply)

  function AfterUse(rows: Rows, account: string, canRefresh: bool, reply: RefreshReply): Rows {
    if account in rows && IsAccessTokenExpired(rows[account].token) && canRefresh
       && rows[account].token.refreshToken.Some? && reply.Refreshed?
    then rows[account := rows[account].(token := reply.token)]
    else rows
  }

  /** The table after one operation. */
  function After(rows: Rows, op: Operation): Rows {
    match op
    case CreateToken(account, userId, tenant, token) =>
      if HasConflict(rows, account, tenant) && !IsDemo(account) then rows else rows[account := Row(userId, tenant, token)]
    case UseToken(account, canRefresh, reply) => AfterUse(rows, account, canRefresh, reply)
    case Disconnect(account, canRefresh, reply) =>
      if account in rows && rows[account].tenantId != "" then WithoutTenant(rows, rows[account].tenantId) else rows
  }

  class ConnectionManager {
    const accountId: string
    const store: TokenStore

    constructor (accountId: string, store: TokenStore)
      ensures this.accountId == accountId && this.store == store
    {
      this.accountId := accountId;
      this.store := store;
    }

    method CreateAccessToken(token: TokenSet, userId: string, tenant: string) returns (result: Result<(), TenantConflict>)
      modifies store
      ensures store.rows == After(old(store.rows), CreateToken(accountId, userId, tenant, token))
      ensures result.Err? <==> HasConflict(old(store.rows), accountId, tenant) && !IsDemo(accountId)
    {
      result := store.Create(accountId, userId, tenant, token);
    }

    /** The stored token, refreshed if it has expired and that is possible. */
    method GetAccessToken(canRefresh: bool, reply: RefreshReply) returns (token: Option<TokenSet>)
      modifies store
      ensures store.rows == After(old(store.rows), UseToken(accountId, canRefresh, reply))
      ensures accountId !in old(store.rows) ==> token.None?
      ensures token.Some? ==> accountId in store.rows && store.rows[accountId].token == token.value
      // a token returned has more than a minute left, or was just given by a refresh
      ensures token.Some? ==> HasMinuteLeft(token.value) || reply == Refreshed(token.value)
      // a stored token that has more than a minute left is returned as it is
      ensures accountId in old(store.rows) && HasMinuteLeft(old(store.rows)[accountId].token) ==>
                token == Some(old(store.rows)[accountId].token) && store.rows == old(store.rows)
      // any other one is replaced if a refresh is possible and succeeds, and kept back if not
      ensures accountId in old(store.rows) && !HasMinuteLeft(old(store.rows)[accountId].token) ==>
                var row := old(store.rows)[accountId];
                if canRefresh && row.token.refreshToken.Some? && reply.Refreshed?
                then token == Some(reply.token) && store.rows == old(store.rows)[accountId := row.(token := reply.token)]
                else token.None? && store.rows == old(store.rows)
    {
      if accountId !in store.rows {
        return None;
      }
      var row := store.rows[accountId];
      if !IsAccessTokenExpired(row.token) {
        return Some(row.token);
      }
      if !canRefresh || row.token.refreshToken.None? || !reply.Refreshed? {
        return None;
      }
      var updated := store.UpdateToken(accountId, row.tenantId, reply.token);
      return if updated then Some(reply.token) else None;
    }

    /** Whatever happens to the token and to the call that disconnects, the tenant's rows go. */
    method DisconnectActiveTenant(canRefresh: bool, reply: RefreshReply)
      modifies store
      ensures store.rows == After(old(store.rows), Disconnect(accountId, canRefresh, reply))
      ensures accountId in old(store.rows) && old(store.rows)[accountId].tenantId != "" ==>
                forall a :: a in store.rows <==> a in old(store.rows) && old(store.rows)[a].tenantId != old(store.rows)[accountId].tenantId
      ensures accountId !in old(store.rows) || old(store.rows)[accountId].tenantId == "" ==> store.rows == old(store.rows)
    {
      if accountId !in store.rows || store.rows[accountId].tenantId == "" {
        return;
      }
      var tenantId := store.rows[accountId].tenantId;
      ghost var before := store.rows;
      var token := GetAccessToken(canRefresh, reply);
      store.Delete(tenantId);
      assert store.rows == WithoutTenant(before, tenantId);
    }
  }

  // ---- Whole runs ----

  function AfterAll(rows: Rows, ops: seq<Operation>): Rows
    decreases |ops|
  {
    if ops == [] then rows else AfterAll(After(rows, ops[0]), ops[1..])
  }

  /** Of two different accounts on one tenant, at least one matches '%_demo'. */
  ghost predicate TenantsAreExclusive(rows: Rows) {
    forall a, b :: a in rows && b in rows && a != b && rows[a].tenantId == rows[b].tenantId ==> LikeDemo(a) || LikeDemo(b)
  }

  lemma {:induction false} AfterKeepsExclusive(rows: Rows, op: Operation)
    requires TenantsAreExclusive(rows)
    ensures TenantsAreExclusive(After(rows, op))
  {
    match op
    case CreateToken(account, userId, tenant, token) =>
      var after := After(rows, op);
      if IsDemo(account) {
        DemoIsLikeDemo(account);
      }
      forall a, b | a in after && b in after && a != b && after[a].tenantId == after[b].tenantId
        ensures LikeDemo(a) || LikeDemo(b)
      {
        if after != rows && (a == account || b == account) {
          var other := if a == account then b else a;
          if !LikeDemo(other) {
            assert Conflicts(rows, account, tenant, other);
          }
        }
      }
    case UseToken(account, canRefresh, reply) =>
    case Disconnect(account, canRefresh, reply) =>
  }

  /** In every table that any sequence of operations can produce, tenants are exclusive. */
  lemma {:induction false} ExclusiveInEveryRun(rows: Rows, ops: seq<Operation>)
    requires TenantsAreExclusive(rows)
    ensures TenantsAreExclusive(AfterAll(rows, ops))
    decreases |ops|
  {
    if ops == [] {
    } else {
      AfterKeepsExclusive(rows, ops[0]);
      ExclusiveInEveryRun(After(rows, ops[0]), ops[1..]);
    }
  }

  /** The stricter reading, by suffix, fails for exactly the ids that only the wildcard matches:
      such an account can be joined on its tenant by an ordinary account, though not the other
      way round. */
  lemma {:induction false} WildcardAccountsCanBeJoined(a: string, b: string, tenant: string, userId: string, token: TokenSet)
    requires a != b && !LikeDemo(b)
    ensures var createA, createB := CreateToken(a, userId, tenant, token), CreateToken(b, userId, tenant, token);
            && (b in AfterAll(map[], [createA, createB]) <==> LikeDemo(a))
            && (a in AfterAll(map[], [createB, createA]) <==> IsDemo(a))
  {
    var createA, createB := CreateToken(a, userId, tenant, token), CreateToken(b, userId, tenant, token);
    var row := Row(userId, tenant, token);
    var rowsA, rowsB: Rows := map[a := row], map[b := row];
    assert !HasConflict(map[], a, tenant) && !HasConflict(map[], b, tenant);
    assert After(map[], createA) == rowsA && After(map[], createB) == rowsB;
    assert [createA, createB][1..] == [createB] && [createB, createA][1..] == [createA];
    assert AfterAll(map[], [createA, createB]) == AfterAll(rowsA, [createB]) == After(rowsA, createB);
    assert AfterAll(map[], [createB, createA]) == AfterAll(rowsB, [createA]) == After(rowsB, createA);
    assert HasConflict(rowsA, b, tenant) <==> !LikeDemo(a) by {
      assert Conflicts(rowsA, b, tenant, a) <==> !LikeDemo(a);
    }
    assert HasConflict(rowsB, a, tenant) by {
      assert Conflicts(rowsB, a, tenant, b);
    }
    if IsDemo(b) {
      DemoIsLikeDemo(b);
    }
  }

  /** When no id is matched by the wildcard alone, sharing a tenant takes an id ending in "_demo". */
  lemma {:induction false} SuffixExclusiveWithoutWildcards(ops: seq<Operation>)
    requires forall a :: a in AfterAll(map[], ops) && LikeDemo(a) ==> IsDemo(a)
    ensures var rows := AfterAll(map[], ops);
            forall a, b :: a in rows && b in rows && a != b && rows[a].tenantId == rows[b].tenantId ==> IsDemo(a) || IsDemo(b)
  {
    ExclusiveInEveryRun(map[], ops);
  }
}
