/** The four tables of init_db as one value, the constraints the schema and
    the insert order keep on them, the lookups the endpoints run, and the
    inserts of generate_transactions and register as functions on that value. */
module Schema {
  import opened Wrappers
  import opened Identifiers
  import opened Records

  datatype Db = Db(users: seq<User>, accounts: seq<Account>, transactions: seq<Transaction>, payloads: seq<Payload>)

  // ------------------------------------------------ table constraints

  /** users: AUTOINCREMENT ids 1, 2, ...; every mobile passed the mobile check and
      the mobile column is UNIQUE. */
  ghost predicate UsersOk(users: seq<User>) {
    && (forall i :: 0 <= i < |users| ==> users[i].id == i + 1 && IsMobile(users[i].mobile))
    && (forall i, j :: 0 <= i < j < |users| ==> users[i].mobile != users[j].mobile)
  }

  /** accounts: created one per user and in the same order, so the i-th
      account belongs to the i-th user; its upi_id is built from that user's
      mobile and the upi_id column is UNIQUE. */
  ghost predicate AccountsOk(users: seq<User>, accounts: seq<Account>) {
    && |accounts| == |users|
    && (forall i :: 0 <= i < |accounts| ==>
          && accounts[i].id == i + 1
          && accounts[i].userId == users[i].id
          && IsUpiOf(accounts[i].upiId, users[i].mobile))
    && (forall i, j :: 0 <= i < j < |accounts| ==> accounts[i].upiId != accounts[j].upiId)
  }

  /** transactions: AUTOINCREMENT ids, account_id references an account,
      and the amount lies in the generated range (type and status are kept
      within their CHECK lists by their datatypes). */
  ghost predicate TransactionsOk(accounts: seq<Account>, txns: seq<Transaction>) {
    forall i :: 0 <= i < |txns| ==>
      && txns[i].id == i + 1
      && 1 <= txns[i].accountId <= |accounts|
      && MinAmount <= txns[i].amount <= MaxAmount
  }

  /** The payload of a transaction mirrors it and its owner's account and user. */
  ghost predicate PayloadOf(p: Payload, t: Transaction, users: seq<User>, accounts: seq<Account>) {
    && 1 <= t.accountId <= |accounts|
    && |accounts| == |users|
    && Mirrors(p, t, users[t.accountId - 1], accounts[t.accountId - 1])
  }

  /** transaction_payloads: one row per transaction, inserted right after it,
      so the i-th payload refers to the i-th transaction. */
  ghost predicate PayloadsOk(users: seq<User>, accounts: seq<Account>, txns: seq<Transaction>, payloads: seq<Payload>) {
    && |payloads| == |txns|
    && (forall i :: 0 <= i < |payloads| ==>
         payloads[i].id == i + 1 && PayloadOf(payloads[i], txns[i], users, accounts))
  }

  ghost predicate TablesOk(db: Db) {
    && UsersOk(db.users)
    && AccountsOk(db.users, db.accounts)
    && TransactionsOk(db.accounts, db.transactions)
    && PayloadsOk(db.users, db.accounts, db.transactions, db.payloads)
  }

  // ------------------------------------------------------------ lookups

  /** SELECT * FROM users WHERE mobile = ?, fetchone(): the first match. */
  function UserByMobile(users: seq<User>, mobile: string): (r: Option<nat>)
    ensures r.Some? ==> r.value < |users| && users[r.value].mobile == mobile
    ensures r.Some? ==> forall i :: 0 <= i < r.value ==> users[i].mobile != mobile
    ensures r.None? <==> forall i :: 0 <= i < |users| ==> users[i].mobile != mobile
  {
    if users == [] then None
    else if users[0].mobile == mobile then Some(0)
    else match UserByMobile(users[1..], mobile)
      case None => None
      case Some(j) => Some(j + 1)
  }

  /** Some user with this id has this mobile (the JOIN condition). */
  predicate Owns(users: seq<User>, userId: nat, mobile: string) {
    exists u :: 0 <= u < |users| && users[u].id == userId && users[u].mobile == mobile
  }

  /** SELECT a.id, a.balance FROM accounts a JOIN users u ON a.user_id = u.id
      WHERE u.mobile = ?, fetchone(): the first account whose owner has the mobile. */
  function AccountForMobile(users: seq<User>, accounts: seq<Account>, mobile: string): (r: Option<nat>)
    ensures r.Some? ==> r.value < |accounts| && Owns(users, accounts[r.value].userId, mobile)
    ensures r.Some? ==> forall i :: 0 <= i < r.value ==> !Owns(users, accounts[i].userId, mobile)
    ensures r.None? <==> forall i :: 0 <= i < |accounts| ==> !Owns(users, accounts[i].userId, mobile)
  {
    if accounts == [] then None
    else if Owns(users, accounts[0].userId, mobile) then Some(0)
    else match AccountForMobile(users, accounts[1..], mobile)
      case None => None
      case Some(j) => Some(j + 1)
  }

  /** Under the table constraints the JOIN finds the account at the position
      of the user with that mobile, and nothing when there is no such user. */
  lemma {:induction false} AccountOfUser(users: seq<User>, accounts: seq<Account>, mobile: string)
    requires UsersOk(users) && AccountsOk(users, accounts)
    ensures AccountForMobile(users, accounts, mobile) == UserByMobile(users, mobile)
  {
    forall i | 0 <= i < |accounts|
      ensures Owns(users, accounts[i].userId, mobile) <==> users[i].mobile == mobile
    {
      OwnerAt(users, accounts, i, mobile);
    }
  }

  /** The i-th account is owned by the i-th user and by no other. */
  lemma {:induction false} OwnerAt(users: seq<User>, accounts: seq<Account>, i: nat, mobile: string)
    requires UsersOk(users) && AccountsOk(users, accounts) && i < |accounts|
    ensures Owns(users, accounts[i].userId, mobile) <==> users[i].mobile == mobile
  {
    if Owns(users, accounts[i].userId, mobile) {
      var u :| 0 <= u < |users| && users[u].id == accounts[i].userId && users[u].mobile == mobile;
      assert u == i;
    }
  }

  // ------------------------------------------- generate_transactions

  /** One iteration of the loop for the account at position k, whose user
      and UPI id were fetched before the loop: the transaction row gets the
      next id, the payload row the next id and the transaction's id, and the
      balance moves by the signed amount. */
  function InsertOne(db: Db, k: nat, user: User, vpa: string, d: Draw): (r: Db)
    requires k < |db.accounts| && ValidDraw(d)
    ensures r.users == db.users && |r.accounts| == |db.accounts|
    ensures r.accounts == db.accounts[k := db.accounts[k].(balance := db.accounts[k].balance + Signed(d))]
    ensures r.transactions == db.transactions + [TxnRow(|db.transactions| + 1, k + 1, d)]
    ensures r.payloads == db.payloads + [PayloadRow(|db.payloads| + 1, |db.transactions| + 1, user, vpa, d)]
  {
    var t := TxnRow(|db.transactions| + 1, k + 1, d);
    var p := PayloadRow(|db.payloads| + 1, t.id, user, vpa, d);
    var a := db.accounts[k];
    Db(db.users, db.accounts[k := a.(balance := a.balance + Signed(d))], db.transactions + [t], db.payloads + [p])
  }

  /** The whole loop over the draws ds, in closed form: the account at k has
      moved by the net change of the batch and the transactions and payloads
      tables have grown by the batch rows, ids handed out consecutively. The
      step lemmas below show it is what the iterations build one by one. */
  function InsertBatch(db: Db, k: nat, user: User, vpa: string, ds: seq<Draw>): (r: Db)
    requires k < |db.accounts| && AllValid(ds)
    ensures r.users == db.users && |r.accounts| == |db.accounts| && r.accounts[k].upiId == db.accounts[k].upiId
    ensures |r.transactions| == |db.transactions| + |ds| && |r.payloads| == |db.payloads| + |ds|
  {
    var a := db.accounts[k];
    Db(db.users, db.accounts[k := a.(balance := a.balance + NetChange(ds))],
       db.transactions + TxnBatch(|db.transactions| + 1, k + 1, ds),
       db.payloads + PayloadBatch(|db.payloads| + 1, |db.transactions| + 1, user, vpa, ds))
  }

  /** Before the first iteration nothing has changed. */
  lemma {:induction false} InsertBatchNone(db: Db, k: nat, user: User, vpa: string)
    requires k < |db.accounts|
    ensures InsertBatch(db, k, user, vpa, []) == db
  {
    var a := db.accounts[k];
    assert db.accounts[k := a.(balance := a.balance + NetChange([]))] == db.accounts;
    assert db.transactions + TxnBatch(|db.transactions| + 1, k + 1, []) == db.transactions;
    assert db.payloads + PayloadBatch(|db.payloads| + 1, |db.transactions| + 1, user, vpa, []) == db.payloads;
  }

  lemma {:induction false} UpdateTwice<T>(s: seq<T>, k: nat, x: T, y: T)
    requires k < |s|
    ensures s[k := x][k := y] == s[k := y]
  {
  }

  /** One more iteration moves the balance by the signed amount of the draw. */
  lemma {:induction false} StepAccounts(db: Db, k: nat, user: User, vpa: string, ds: seq<Draw>, d: Draw)
    requires k < |db.accounts| && AllValid(ds) && ValidDraw(d) && AllValid(ds + [d])
    ensures InsertOne(InsertBatch(db, k, user, vpa, ds), k, user, vpa, d).accounts
         == InsertBatch(db, k, user, vpa, ds + [d]).accounts
  {
    var a := db.accounts[k];
    NetChangeSnoc(ds, d);
    UpdateTwice(db.accounts, k, a.(balance := a.balance + NetChange(ds)), a.(balance := a.balance + NetChange(ds + [d])));
  }

  /** One more iteration appends the next transaction row of the batch. */
  lemma {:induction false} StepTransactions(db: Db, k: nat, user: User, vpa: string, ds: seq<Draw>, d: Draw)
    requires k < |db.accounts| && AllValid(ds) && ValidDraw(d) && AllValid(ds + [d])
    ensures InsertOne(InsertBatch(db, k, user, vpa, ds), k, user, vpa, d).transactions
         == InsertBatch(db, k, user, vpa, ds + [d]).transactions
  {
    var first := |db.transactions| + 1;
    var row := TxnRow(first + |ds|, k + 1, d);
    TxnBatchSnoc(first, k + 1, ds, d);
    AppendRow(db.transactions, TxnBatch(first, k + 1, ds), TxnBatch(first, k + 1, ds + [d]), row);
  }

  lemma {:induction false} AppendRow<T>(table: seq<T>, batch: seq<T>, longer: seq<T>, row: T)
    requires longer == batch + [row]
    ensures (table + batch) + [row] == table + longer
  {
  }

  /** One more iteration appends the next payload row of the batch. */
  lemma {:induction false} StepPayloads(db: Db, k: nat, user: User, vpa: string, ds: seq<Draw>, d: Draw)
    requires k < |db.accounts| && AllValid(ds) && ValidDraw(d) && AllValid(ds + [d])
    ensures InsertOne(InsertBatch(db, k, user, vpa, ds), k, user, vpa, d).payloads
         == InsertBatch(db, k, user, vpa, ds + [d]).payloads
  {
    var first, firstTxn := |db.payloads| + 1, |db.transactions| + 1;
    var row := PayloadRow(first + |ds|, firstTxn + |ds|, user, vpa, d);
    PayloadBatchSnoc(first, firstTxn, user, vpa, ds, d);
    AppendRow(db.payloads, PayloadBatch(first, firstTxn, user, vpa, ds), PayloadBatch(first, firstTxn, user, vpa, ds + [d]), row);
  }

  /** The loop invariant step: one more iteration turns the closed form for
      the draws so far into the closed form for one more draw. */
  lemma {:induction false} InsertBatchStep(db: Db, k: nat, user: User, vpa: string, ds: seq<Draw>, d: Draw)
    requires k < |db.accounts| && AllValid(ds) && ValidDraw(d) && AllValid(ds + [d])
    ensures InsertOne(InsertBatch(db, k, user, vpa, ds), k, user, vpa, d) == InsertBatch(db, k, user, vpa, ds + [d])
  {
    StepAccounts(db, k, user, vpa, ds, d);
    StepTransactions(db, k, user, vpa, ds, d);
    StepPayloads(db, k, user, vpa, ds, d);
  }

  /** The loop moves only the balance of account k, by the CREDIT total
      minus the DEBIT total of the batch; every other account is unchanged. */
  lemma {:induction false} BatchBalance(db: Db, k: nat, user: User, vpa: string, ds: seq<Draw>)
    requires k < |db.accounts| && AllValid(ds)
    ensures InsertBatch(db, k, user, vpa, ds).accounts[k]
         == db.accounts[k].(balance := db.accounts[k].balance + Sum(AmountsOf(ds, Credit)) - Sum(AmountsOf(ds, Debit)))
    ensures forall j :: 0 <= j < |db.accounts| && j != k ==> InsertBatch(db, k, user, vpa, ds).accounts[j] == db.accounts[j]
  {
    NetIsCreditsMinusDebits(ds);
  }

  /** The balance of account k moves by the CREDIT amounts minus the DEBIT
      amounts of the transaction rows the loop stored. */
  lemma {:induction false} BatchBalanceOfRows(db: Db, k: nat, user: User, vpa: string, ds: seq<Draw>)
    requires k < |db.accounts| && AllValid(ds)
    ensures var r := InsertBatch(db, k, user, vpa, ds);
      var added := r.transactions[|db.transactions|..];
      r.accounts[k].balance == db.accounts[k].balance + Sum(RowAmountsOf(added, Credit)) - Sum(RowAmountsOf(added, Debit))
  {
    var r := InsertBatch(db, k, user, vpa, ds);
    var batch := TxnBatch(|db.transactions| + 1, k + 1, ds);
    assert r.transactions[|db.transactions|..] == batch;
    BatchRowAmounts(|db.transactions| + 1, k + 1, ds, Credit);
    BatchRowAmounts(|db.transactions| + 1, k + 1, ds, Debit);
    BatchBalance(db, k, user, vpa, ds);
  }

  /** The loop keeps every stored row and appends exactly |ds| transactions
      of account k and |ds| payloads, the i-th payload pointing at the i-th
      new transaction, every new row meeting the column formats. */
  lemma {:induction false} BatchRows(db: Db, k: nat, user: User, vpa: string, ds: seq<Draw>)
    requires k < |db.accounts| && AllValid(ds)
    ensures var r := InsertBatch(db, k, user, vpa, ds);
      && r.users == db.users
      && |r.transactions| == |db.transactions| + |ds| && r.transactions[..|db.transactions|] == db.transactions
      && |r.payloads| == |db.payloads| + |ds| && r.payloads[..|db.payloads|] == db.payloads
    ensures var r := InsertBatch(db, k, user, vpa, ds);
      var added, paid := r.transactions[|db.transactions|..], r.payloads[|db.payloads|..];
      forall i :: 0 <= i < |ds| ==>
        && added[i].id == |db.transactions| + i + 1
        && added[i].accountId == k + 1
        && WellFormedTxn(added[i])
        && paid[i].transactionId == added[i].id
        && WellFormedBody(paid[i].body)
  {
    var r := InsertBatch(db, k, user, vpa, ds);
    var t0, p0 := |db.transactions|, |db.payloads|;
    var tb, pb := TxnBatch(t0 + 1, k + 1, ds), PayloadBatch(p0 + 1, t0 + 1, user, vpa, ds);
    assert r.transactions[..t0] == db.transactions && r.transactions[t0..] == tb;
    assert r.payloads[..p0] == db.payloads && r.payloads[p0..] == pb;
    TxnBatchWellFormed(t0 + 1, k + 1, ds);
    PayloadBatchWellFormed(p0 + 1, t0 + 1, user, vpa, ds);
  }

  /** The i-th new transaction is the row built from the i-th draw, so it
      stores that draw's amount, type, merchant, status and timestamp. */
  lemma {:induction false} BatchStoresDraws(db: Db, k: nat, user: User, vpa: string, ds: seq<Draw>)
    requires k < |db.accounts| && AllValid(ds)
    ensures var added := InsertBatch(db, k, user, vpa, ds).transactions[|db.transactions|..];
      forall i :: 0 <= i < |ds| ==> added[i] == TxnRow(|db.transactions| + i + 1, k + 1, ds[i])
  {
    var r := InsertBatch(db, k, user, vpa, ds);
    assert r.transactions[|db.transactions|..] == TxnBatch(|db.transactions| + 1, k + 1, ds);
    TxnBatchRows(|db.transactions| + 1, k + 1, ds);
  }

  /** With the user and UPI id fetched from account k, as the loop does,
      each new payload mirrors its transaction, that user and that account. */
  lemma {:induction false} BatchMirrors(db: Db, k: nat, ds: seq<Draw>)
    requires k < |db.accounts| && k < |db.users| && AllValid(ds)
    ensures var r := InsertBatch(db, k, db.users[k], db.accounts[k].upiId, ds);
      var added, paid := r.transactions[|db.transactions|..], r.payloads[|db.payloads|..];
      forall i :: 0 <= i < |ds| ==> Mirrors(paid[i], added[i], r.users[k], r.accounts[k])
  {
    var user, a := db.users[k], db.accounts[k];
    var r := InsertBatch(db, k, user, a.upiId, ds);
    var t0, p0 := |db.transactions|, |db.payloads|;
    var tb, pb := TxnBatch(t0 + 1, k + 1, ds), PayloadBatch(p0 + 1, t0 + 1, user, a.upiId, ds);
    assert r.transactions[t0..] == tb && r.payloads[p0..] == pb;
    PayloadBatchMirrors(p0 + 1, t0 + 1, k + 1, user, a, ds);
    assert r.accounts[k].upiId == a.upiId;
  }

  /** Inserting one generated transaction of account k and its payload keeps
      every table constraint. */
  lemma {:induction false} InsertKeepsTables(db: Db, k: nat, user: User, vpa: string, d: Draw)
    requires TablesOk(db) && k < |db.accounts| && ValidDraw(d)
    requires user == db.users[k] && vpa == db.accounts[k].upiId
    ensures TablesOk(InsertOne(db, k, user, vpa, d))
  {
    var r := InsertOne(db, k, user, vpa, d);
    var t := TxnRow(|db.transactions| + 1, k + 1, d);
    var p := PayloadRow(|db.payloads| + 1, |db.transactions| + 1, user, vpa, d);
    PayloadRowMirrors(|db.payloads| + 1, |db.transactions| + 1, k + 1, user, r.accounts[k], d);
    assert forall i :: 0 <= i < |db.accounts| ==> r.accounts[i].upiId == db.accounts[i].upiId;
    forall i | 0 <= i < |r.payloads| ensures r.payloads[i].id == i + 1 && PayloadOf(r.payloads[i], r.transactions[i], r.users, r.accounts) {
      if i < |db.payloads| {
        assert r.payloads[i] == db.payloads[i] && r.transactions[i] == db.transactions[i];
        assert PayloadOf(db.payloads[i], db.transactions[i], db.users, db.accounts);
      }
    }
  }

  // ---------------------------------------------------------- register

  /** The two inserts of register: the user with the next id, then that
      user's account with the next id, its UPI id and starting balance. */
  function AddUser(db: Db, mobile: string, name: Option<string>, handle: nat, balance: int): (r: Db)
    requires handle < |Handles|
    ensures |r.users| == |db.users| + 1 && |r.accounts| == |db.accounts| + 1
  {
    var user := User(|db.users| + 1, mobile, name);
    Db(db.users + [user], db.accounts + [Account(|db.accounts| + 1, user.id, balance, UpiId(mobile, handle))],
       db.transactions, db.payloads)
  }

  /** Inserting a user with a new accepted mobile and that user's account
      keeps every table constraint, the UNIQUE upi_id column included. */
  lemma {:induction false} AddUserKeepsTables(db: Db, mobile: string, name: Option<string>, handle: nat, balance: int)
    requires TablesOk(db)
    requires IsMobile(mobile) && handle < |Handles|
    requires forall i :: 0 <= i < |db.users| ==> db.users[i].mobile != mobile
    ensures TablesOk(AddUser(db, mobile, name, handle, balance))
  {
    var r := AddUser(db, mobile, name, handle, balance);
    UpiIdOf(mobile, handle);
    forall i | 0 <= i < |db.accounts| ensures db.accounts[i].upiId != UpiId(mobile, handle) {
      DistinctMobilesDistinctUpi(db.accounts[i].upiId, db.users[i].mobile, UpiId(mobile, handle), mobile);
    }
    forall i | 0 <= i < |db.payloads| ensures PayloadOf(db.payloads[i], db.transactions[i], r.users, r.accounts) {
      assert PayloadOf(db.payloads[i], db.transactions[i], db.users, db.accounts);
      assert r.users[db.transactions[i].accountId - 1] == db.users[db.transactions[i].accountId - 1];
      assert r.accounts[db.transactions[i].accountId - 1] == db.accounts[db.transactions[i].accountId - 1];
    }
  }

  /** A whole successful registration: the two inserts, then
      generate_transactions for the new account. */
  function Registered(db: Db, mobile: string, name: Option<string>, handle: nat, balance: int, ds: seq<Draw>): (r: Db)
    requires handle < |Handles| && AllValid(ds)
    ensures |r.users| == |db.users| + 1 && r.users[|db.users|] == User(|db.users| + 1, mobile, name)
    ensures |r.accounts| == |db.accounts| + 1 && r.accounts[|db.accounts|].upiId == UpiId(mobile, handle)
    ensures |r.transactions| == |db.transactions| + |ds| && |r.payloads| == |db.payloads| + |ds|
  {
    InsertBatch(AddUser(db, mobile, name, handle, balance), |db.accounts|,
                User(|db.users| + 1, mobile, name), UpiId(mobile, handle), ds)
  }

  /** After a registration the tables hold one more user, that user's
      account with the starting balance moved by the net change of the batch,
      and the batch of transactions and payloads; nothing stored before
      changes. */
  lemma {:induction false} RegisteredShape(db: Db, mobile: string, name: Option<string>, handle: nat, balance: int, ds: seq<Draw>)
    requires handle < |Handles| && AllValid(ds)
    ensures Registered(db, mobile, name, handle, balance, ds).users == db.users + [User(|db.users| + 1, mobile, name)]
    ensures Registered(db, mobile, name, handle, balance, ds).accounts
         == db.accounts + [Account(|db.accounts| + 1, |db.users| + 1, balance + NetChange(ds), UpiId(mobile, handle))]
    ensures Registered(db, mobile, name, handle, balance, ds).transactions
         == db.transactions + TxnBatch(|db.transactions| + 1, |db.accounts| + 1, ds)
    ensures Registered(db, mobile, name, handle, balance, ds).payloads
         == db.payloads + PayloadBatch(|db.payloads| + 1, |db.transactions| + 1,
                                       User(|db.users| + 1, mobile, name), UpiId(mobile, handle), ds)
  {
    var added := AddUser(db, mobile, name, handle, balance);
    assert added.accounts[|db.accounts| := added.accounts[|db.accounts|].(balance := balance + NetChange(ds))]
        == db.accounts + [Account(|db.accounts| + 1, |db.users| + 1, balance + NetChange(ds), UpiId(mobile, handle))];
  }
}
