/** Disconnecting an account's bank feed (src/managers/integration/Manager.ts). */
module FeedDisconnection {
  import opened Basics
  import opened BankFeedStore
  import opened BankFeeds

  datatype Organisation = Authorised(isDemoCompany: bool) | NotAuthorised | Unavailable

  /** How many of n connections one call handles: all, or those up to the first that fails to
      close. Replies that run out are successes. */
  function Handled(closes: seq<bool>, n: nat): (k: nat)
    ensures k <= n
    decreases n
  {
    if n == 0 then 0
    else if closes != [] && !closes[0] then 1
    else 1 + Handled(if closes == [] then [] else closes[1..], n - 1)
  }

  function Min(a: nat, b: nat): nat {
    if a < b then a else b
  }

  /** Whether the last of the connections that are handled fails to close. */
  predicate Fails(closes: seq<bool>, n: nat) {
    exists i :: 0 <= i < |closes| && i < n && !closes[i]
  }

  function WithoutConnections(cs: seq<Connection>, accountId: string, ids: seq<string>): seq<Connection>
    decreases |ids|
  {
    if ids == [] then cs else WithoutConnections(WithoutConnection(cs, accountId, ids[0]), accountId, ids[1..])
  }

  lemma {:induction false} HandledBounds(closes: seq<bool>, n: nat)
    ensures n > 0 ==> Handled(closes, n) > 0
    ensures !Fails(closes, n) ==> Handled(closes, n) == n
    ensures Fails(closes, n) ==> var k := Handled(closes, n) - 1;
              0 <= k < |closes| && k < n && !closes[k] && forall i :: 0 <= i < k ==> closes[i]
    decreases n
  {
    if n > 0 && (closes == [] || closes[0]) {
      HandledBounds(if closes == [] then [] else closes[1..], n - 1);
      if closes != [] {
        var rest := closes[1..];
        assert Fails(closes, n) <==> Fails(rest, n - 1) by {
          if Fails(closes, n) {
            var i :| 0 <= i < |closes| && i < n && !closes[i];
            assert !rest[i - 1];
          }
          if Fails(rest, n - 1) {
            var i :| 0 <= i < |rest| && i < n - 1 && !rest[i];
            assert !closes[i + 1];
          }
        }
        if Fails(closes, n) {
          var k := Handled(closes, n) - 1;
          assert forall i :: 0 < i < k ==> closes[i] == rest[i - 1];
        }
      }
    }
  }

  lemma {:induction false} WithoutOneMore(cs: seq<Connection>, accountId: string, ids: seq<string>, i: nat)
    requires i < |ids|
    ensures WithoutConnections(cs, accountId, ids[..i + 1])
         == WithoutConnection(WithoutConnections(cs, accountId, ids[..i]), accountId, ids[i])
    decreases i
  {
    if i == 0 {
      assert ids[..1][1..] == [] && ids[..0] == [];
    } else {
      assert ids[..i + 1][1..] == ids[1..][..i] && ids[..i][1..] == ids[1..][..i - 1];
      WithoutOneMore(WithoutConnection(cs, accountId, ids[0]), accountId, ids[1..], i - 1);
    }
  }

  class Disconnector {
    const accountId: string
    const store: Store
    const feed: Feed

    constructor (accountId: string, store: Store, feed: Feed)
      ensures this.accountId == accountId && this.store == store && this.feed == feed
    {
      this.accountId, this.store, this.feed := accountId, store, feed;
    }

    /** The loop over the listed connections: each is closed, and its row is deleted whether or
        not that worked; the first failure of either ends the loop. */
    method CloseAll(ids: seq<string>) returns (failure: Option<Failure>)
      modifies store`connections, store`budget, feed`closes
      ensures var k := Handled(old(feed.closes), |ids|);
              && store.connections == WithoutConnections(old(store.connections), accountId, ids[..Min(k, old(store.budget))])
              && store.budget == old(store.budget) - Min(k, old(store.budget))
              && failure == if old(store.budget) < k then Some(Database(DatabaseLost))
                            else if Fails(old(feed.closes), |ids|) then Some(CloseFailed) else None
    {
      ghost var cs, closes := store.connections, feed.closes;
      HandledBounds(closes, |ids|);
      for i := 0 to |ids|
        invariant feed.closes == if i <= |closes| then closes[i..] else []
        invariant forall j :: 0 <= j < i && j < |closes| ==> closes[j]
        invariant store.connections == WithoutConnections(cs, accountId, ids[..i])
        invariant store.budget == old(store.budget) - i
      {
        var closed := feed.CloseConnection();
        var lost := store.DeleteConnectionForAccount(accountId, ids[i]);
        if lost.Some? {
          return Some(Database(lost.value));
        }
        WithoutOneMore(cs, accountId, ids, i);
        if !closed {
          return Some(CloseFailed);
        }
      }
      assert ids[..|ids|] == ids;
      return None;
    }

    /** `disconnectBankFeed` */
    method DisconnectBankFeed(organisation: Organisation) returns (failure: Option<Failure>)
      modifies store`connections, store`budget, feed`closes
      ensures organisation != Authorised(false) ==>
                && store.connections == old(store.connections) && store.budget == old(store.budget)
                && failure == if organisation.Unavailable? then Some(OrganisationUnavailable) else None
      ensures organisation == Authorised(false) ==>
                var ids := ConnectionIds(old(store.connections), accountId);
                var k := Handled(old(feed.closes), |ids|);
                && store.connections == WithoutConnections(old(store.connections), accountId, ids[..Min(k, old(store.budget))])
                && store.budget == old(store.budget) - Min(k, old(store.budget))
                && failure == if old(store.budget) < k then Some(Database(DatabaseLost))
                              else if Fails(old(feed.closes), |ids|) then Some(CloseFailed) else None
    {
      if organisation.NotAuthorised? {
        return None;
      }
      if organisation.Unavailable? {
        return Some(OrganisationUnavailable);
      }
      if organisation.isDemoCompany {
        return None;
      }
      failure := CloseAll(ConnectionIds(store.connections, accountId));
    }

    /** An authorised, ordinary organisation is rid of its n connections after at most n calls,
        whatever fails to close, unless the database is lost before n rows are deleted. */
    method DisconnectUntilEmpty() returns (calls: nat, lost: bool)
      requires UniqueIds(store.connections)
      modifies store`connections, store`budget, feed`closes
      ensures lost <==> old(store.budget) < |ConnectionIds(old(store.connections), accountId)|
      ensures !lost ==> calls <= |ConnectionIds(old(store.connections), accountId)| && ConnectionIds(store.connections, accountId) == []
      ensures lost ==> calls <= old(store.budget) + 1
                       && ConnectionIds(store.connections, accountId) == ConnectionIds(old(store.connections), accountId)[old(store.budget)..]
      ensures OthersOnly(old(store.connections), store.connections, accountId)
    {
      ghost var before, budget := store.connections, store.budget;
      ghost var all := ConnectionIds(before, accountId);
      ghost var removed := 0;
      calls, lost := 0, false;
      while !lost && |ConnectionIds(store.connections, accountId)| > 0
        invariant UniqueIds(store.connections) && OthersOnly(before, store.connections, accountId)
        invariant 0 <= removed <= |all| && ConnectionIds(store.connections, accountId) == all[removed..]
        invariant store.budget == budget - removed
        invariant lost ==> store.budget == 0 && removed < |all|
        invariant calls <= removed + (if lost then 1 else 0)
        decreases !lost, |ConnectionIds(store.connections, accountId)|
      {
        ghost var cs, ids := store.connections, ConnectionIds(store.connections, accountId);
        ghost var handled := Handled(feed.closes, |ids|);
        ghost var done := Min(handled, store.budget);
        HandledBounds(feed.closes, |ids|);
        var failure := DisconnectBankFeed(Authorised(false));
        RemovingAPrefix(cs, accountId, done);
        lost := failure == Some(Database(DatabaseLost));
        removed := removed + done;
        calls := calls + 1;
      }
    }
  }

  /** Nothing but connections of this account is gone, and nothing is new or moved. */
  ghost predicate OthersOnly(before: seq<Connection>, after: seq<Connection>, accountId: string) {
    Others(after, accountId) == Others(before, accountId)
  }

  function Others(cs: seq<Connection>, accountId: string): seq<Connection> {
    if cs == [] then []
    else if cs[0].accountId == accountId then Others(cs[1..], accountId)
    else [cs[0]] + Others(cs[1..], accountId)
  }

  lemma {:induction false} WithoutAbsentConnection(cs: seq<Connection>, accountId: string, id: string)
    requires forall c <- cs :: c.connectionId != id
    ensures WithoutConnection(cs, accountId, id) == cs
  {
    if cs == [] {
    } else {
      WithoutAbsentConnection(cs[1..], accountId, id);
    }
  }

  lemma {:induction false} WithoutKeepsOthers(cs: seq<Connection>, accountId: string, id: string)
    ensures Others(WithoutConnection(cs, accountId, id), accountId) == Others(cs, accountId)
  {
    if cs == [] {
    } else {
      WithoutKeepsOthers(cs[1..], accountId, id);
    }
  }

  lemma {:induction false} WithoutKeepsUnique(cs: seq<Connection>, accountId: string, id: string)
    requires UniqueIds(cs)
    ensures UniqueIds(WithoutConnection(cs, accountId, id))
  {
    if cs == [] {
    } else {
      var rest := WithoutConnection(cs[1..], accountId, id);
      WithoutKeepsUnique(cs[1..], accountId, id);
      forall i | 0 <= i < |rest|
        ensures rest[i].connectionId != cs[0].connectionId
      {
        WithoutConnectionMeaning(cs[1..], accountId, id, rest[i]);
      }
    }
  }

  lemma {:induction false} WithoutFirstId(cs: seq<Connection>, accountId: string)
    requires UniqueIds(cs) && ConnectionIds(cs, accountId) != []
    ensures ConnectionIds(WithoutConnection(cs, accountId, ConnectionIds(cs, accountId)[0]), accountId) == ConnectionIds(cs, accountId)[1..]
  {
    var id := ConnectionIds(cs, accountId)[0];
    if cs[0].accountId == accountId {
      assert forall c <- cs[1..] :: c.connectionId != id;
      WithoutAbsentConnection(cs[1..], accountId, id);
    } else {
      WithoutFirstId(cs[1..], accountId);
    }
  }

  /** Deleting the first k listed connections leaves the list without them. */
  lemma {:induction false} RemovingAPrefix(cs: seq<Connection>, accountId: string, k: nat)
    requires UniqueIds(cs) && k <= |ConnectionIds(cs, accountId)|
    ensures var rest := WithoutConnections(cs, accountId, ConnectionIds(cs, accountId)[..k]);
            && ConnectionIds(rest, accountId) == ConnectionIds(cs, accountId)[k..]
            && UniqueIds(rest) && OthersOnly(cs, rest, accountId)
    decreases k
  {
    if k == 0 {
    } else {
      var ids := ConnectionIds(cs, accountId);
      var next := WithoutConnection(cs, accountId, ids[0]);
      WithoutFirstId(cs, accountId);
      WithoutKeepsUnique(cs, accountId, ids[0]);
      WithoutKeepsOthers(cs, accountId, ids[0]);
      RemovingAPrefix(next, accountId, k - 1);
      assert ids[..k][1..] == ids[1..][..k - 1];
    }
  }
}
