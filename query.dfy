/** The transaction query of get_transactions:
    SELECT * FROM transactions WHERE account_id = ? ORDER BY timestamp DESC LIMIT 10. */
module Query {
  import opened Records

  const StatementLimit: nat := 10

  /** The rows of one account, in table order. */
  function OfAccount(txns: seq<Transaction>, accountId: nat): (r: seq<Transaction>)
    ensures |r| <= |txns|
  {
    if txns == [] then []
    else
      var last := txns[|txns| - 1];
      OfAccount(txns[..|txns| - 1], accountId) + (if last.accountId == accountId then [last] else [])
  }

  /** The WHERE clause: exactly the rows of the account are selected. */
  lemma {:induction false} OfAccountMembers(txns: seq<Transaction>, accountId: nat)
    ensures forall t :: t in OfAccount(txns, accountId) <==> t in txns && t.accountId == accountId
  {
    if txns != [] {
      var init, last := txns[..|txns| - 1], txns[|txns| - 1];
      OfAccountMembers(init, accountId);
      assert txns == init + [last];
    }
  }

  lemma {:induction false} OfAccountAppend(xs: seq<Transaction>, ys: seq<Transaction>, accountId: nat)
    ensures OfAccount(xs + ys, accountId) == OfAccount(xs, accountId) + OfAccount(ys, accountId)
  {
    if ys == [] {
      assert xs + ys == xs;
    } else {
      assert (xs + ys)[..|xs + ys| - 1] == xs + ys[..|ys| - 1];
      OfAccountAppend(xs, ys[..|ys| - 1], accountId);
    }
  }

  /** A table holding only rows of the account selects all of them. */
  lemma {:induction false} OfAccountAll(txns: seq<Transaction>, accountId: nat)
    requires forall i :: 0 <= i < |txns| ==> txns[i].accountId == accountId
    ensures OfAccount(txns, accountId) == txns
  {
    if txns != [] {
      var init := txns[..|txns| - 1];
      OfAccountAll(init, accountId);
      assert txns == init + [txns[|txns| - 1]];
    }
  }

  /** A table with no row of the account selects nothing. */
  lemma {:induction false} OfAccountNone(txns: seq<Transaction>, accountId: nat)
    requires forall i :: 0 <= i < |txns| ==> txns[i].accountId != accountId
    ensures OfAccount(txns, accountId) == []
  {
    if txns != [] {
      OfAccountNone(txns[..|txns| - 1], accountId);
    }
  }

  /** ORDER BY timestamp DESC: no row is newer than one before it. */
  predicate NewestFirst(s: seq<Transaction>) {
    forall i, j :: 0 <= i < j < |s| ==> s[i].timestamp >= s[j].timestamp
  }

  /** Puts t in front of the first row that is not newer than it. */
  function InsertNewestFirst(t: Transaction, s: seq<Transaction>): (r: seq<Transaction>)
    ensures multiset(r) == multiset(s) + multiset{t}
    ensures |r| == |s| + 1
  {
    if s == [] then [t]
    else if t.timestamp >= s[0].timestamp then [t] + s
    else
      assert s == [s[0]] + s[1..];
      [s[0]] + InsertNewestFirst(t, s[1..])
  }

  /** Every row of s is no newer than bound. */
  predicate NotNewerThan(s: seq<Transaction>, bound: int) {
    forall i :: 0 <= i < |s| ==> s[i].timestamp <= bound
  }

  lemma {:induction false} InsertNotNewer(t: Transaction, s: seq<Transaction>, bound: int)
    requires NotNewerThan(s, bound) && t.timestamp <= bound
    ensures NotNewerThan(InsertNewestFirst(t, s), bound)
  {
    if s != [] && t.timestamp < s[0].timestamp {
      InsertNotNewer(t, s[1..], bound);
    }
  }

  /** Inserting into a newest-first sequence keeps it newest-first. */
  lemma {:induction false} InsertKeepsNewestFirst(t: Transaction, s: seq<Transaction>)
    requires NewestFirst(s)
    ensures NewestFirst(InsertNewestFirst(t, s))
  {
    if s != [] && t.timestamp < s[0].timestamp {
      var rest := InsertNewestFirst(t, s[1..]);
      InsertKeepsNewestFirst(t, s[1..]);
      InsertNotNewer(t, s[1..], s[0].timestamp);
      assert InsertNewestFirst(t, s) == [s[0]] + rest;
    }
  }

  /** Insertion sort: a permutation of s. */
  function SortNewestFirst(s: seq<Transaction>): (r: seq<Transaction>)
    ensures multiset(r) == multiset(s)
    ensures |r| == |s|
  {
    if s == [] then []
    else
      assert s == [s[0]] + s[1..];
      InsertNewestFirst(s[0], SortNewestFirst(s[1..]))
  }

  /** The sort puts the rows newest first. */
  lemma {:induction false} SortIsNewestFirst(s: seq<Transaction>)
    ensures NewestFirst(SortNewestFirst(s))
  {
    if s != [] {
      SortIsNewestFirst(s[1..]);
      InsertKeepsNewestFirst(s[0], SortNewestFirst(s[1..]));
    }
  }

  /** The at most ten newest rows of an account. */
  function Recent(txns: seq<Transaction>, accountId: nat): (r: seq<Transaction>)
    ensures |r| <= StatementLimit
  {
    var sorted := SortNewestFirst(OfAccount(txns, accountId));
    if |sorted| <= StatementLimit then sorted else sorted[..StatementLimit]
  }

  /** The query returns min(10, n) of the n rows of the account, newest
      first, each one a row of the account, none twice more than stored. */
  lemma {:induction false} RecentShape(txns: seq<Transaction>, accountId: nat)
    ensures |Recent(txns, accountId)|
         == if |OfAccount(txns, accountId)| < StatementLimit then |OfAccount(txns, accountId)| else StatementLimit
    ensures NewestFirst(Recent(txns, accountId))
    ensures multiset(Recent(txns, accountId)) <= multiset(OfAccount(txns, accountId))
    ensures forall t :: t in Recent(txns, accountId) ==> t in txns && t.accountId == accountId
  {
    var mine := OfAccount(txns, accountId);
    var sorted := SortNewestFirst(mine);
    var r := Recent(txns, accountId);
    SortIsNewestFirst(mine);
    PrefixKeepsOrder(sorted, |r|);
    assert r == sorted[..|r|];
    OfAccountMembers(txns, accountId);
    forall t | t in r ensures t in mine {
      assert t in multiset(r);
    }
  }

  /** A prefix of a newest-first sequence is newest-first and a sub-multiset. */
  lemma {:induction false} PrefixKeepsOrder(s: seq<Transaction>, n: nat)
    requires NewestFirst(s) && n <= |s|
    ensures NewestFirst(s[..n])
    ensures multiset(s[..n]) <= multiset(s)
  {
    assert s == s[..n] + s[n..];
  }

  /** A row of the account that the query leaves out is no newer than the
      oldest row it returns, and it is only left out when ten are returned. */
  lemma {:induction false} RecentOmitsOnlyOlder(txns: seq<Transaction>, accountId: nat, t: Transaction)
    requires t in txns && t.accountId == accountId && t !in Recent(txns, accountId)
    ensures |Recent(txns, accountId)| == StatementLimit
    ensures t.timestamp <= Recent(txns, accountId)[StatementLimit - 1].timestamp
  {
    var mine := OfAccount(txns, accountId);
    var sorted := SortNewestFirst(mine);
    OfAccountMembers(txns, accountId);
    SortIsNewestFirst(mine);
    assert t in multiset(mine);
    assert t in multiset(sorted);
    var j :| 0 <= j < |sorted| && sorted[j] == t;
    var r := Recent(txns, accountId);
    assert r == sorted[..|r|];
    assert j >= |r|;
  }

  /** When an account has at most ten rows, the query returns all of them. */
  lemma {:induction false} RecentKeepsShortHistory(txns: seq<Transaction>, accountId: nat)
    requires |OfAccount(txns, accountId)| <= StatementLimit
    ensures multiset(Recent(txns, accountId)) == multiset(OfAccount(txns, accountId))
  {
  }

  /** The rows of a new account, appended after rows of older accounts only,
      are what the query returns for it when there are at most ten. */
  lemma {:induction false} RecentOfNewAccount(older: seq<Transaction>, batch: seq<Transaction>, accountId: nat)
    requires forall i :: 0 <= i < |older| ==> older[i].accountId < accountId
    requires forall i :: 0 <= i < |batch| ==> batch[i].accountId == accountId
    requires |batch| <= StatementLimit
    ensures multiset(Recent(older + batch, accountId)) == multiset(batch)
  {
    OfAccountAppend(older, batch, accountId);
    OfAccountAll(batch, accountId);
    OfAccountNone(older, accountId);
    assert OfAccount(older + batch, accountId) == batch;
    RecentKeepsShortHistory(older + batch, accountId);
  }
}
