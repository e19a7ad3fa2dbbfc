/** The API server's ledger: the four tables of init_db, held in memory, and
    the endpoints that change or read them. HTTP and sqlite plumbing are not
    modelled; each endpoint's response is a Result value. */
module Server {
  import opened Wrappers
  import opened Identifiers
  import opened Records
  import opened Query
  import opened Schema

  /** The error responses of the endpoints. */
  datatype ApiError = InvalidMobileNumber | UserAlreadyExists | AccountNotFound

  /** The body of a successful get_transactions response. */
  datatype Statement = Statement(balance: int, transactions: seq<Transaction>)

  const OtpLength: nat := 6

  /** The OTP endpoint: the same mobile check as register; the six random
      digits are passed in. */
  function GenerateOtp(mobile: Option<string>, otp: string): (r: Result<string, ApiError>)
    requires |otp| == OtpLength && AllDigits(otp)
    ensures r.Ok? <==> MobileAccepted(mobile)
    ensures r.Err? ==> r.error == InvalidMobileNumber
    ensures r.Ok? ==> r.value == otp
  {
    if !MobileAccepted(mobile) then Err(InvalidMobileNumber) else Ok(otp)
  }

  /** get_transactions on the tables db: the balance and the at most ten
      newest transactions of the account whose user has this mobile, or
      "not found". A function of the tables, so it changes none of them. */
  function GetTransactions(db: Db, mobile: string): (r: Result<Statement, ApiError>)
    ensures r.Err? <==> forall i :: 0 <= i < |db.accounts| ==> !Owns(db.users, db.accounts[i].userId, mobile)
    ensures r.Err? ==> r.error == AccountNotFound
    ensures r.Ok? ==> exists i ::
      && 0 <= i < |db.accounts| && Owns(db.users, db.accounts[i].userId, mobile)
      && r.value.balance == db.accounts[i].balance
      && r.value.transactions == Recent(db.transactions, db.accounts[i].id)
    ensures r.Ok? ==> |r.value.transactions| <= StatementLimit && NewestFirst(r.value.transactions)
  {
    match AccountForMobile(db.users, db.accounts, mobile)
    case None => Err(AccountNotFound)
    case Some(i) =>
      RecentShape(db.transactions, db.accounts[i].id);
      Ok(Statement(db.accounts[i].balance, Recent(db.transactions, db.accounts[i].id)))
  }

  /** With the user and account constraints in force, the statement of a
      registered mobile is the balance and newest transactions of that
      user's account. */
  lemma {:induction false} StatementOfUser(db: Db, n: nat)
    requires UsersOk(db.users) && AccountsOk(db.users, db.accounts) && n < |db.users|
    ensures GetTransactions(db, db.users[n].mobile)
         == Ok(Statement(db.accounts[n].balance, Recent(db.transactions, db.accounts[n].id)))
  {
    AccountOfUser(db.users, db.accounts, db.users[n].mobile);
  }

  /** With the same constraints, "not found" is returned exactly for a
      mobile no user has. */
  lemma {:induction false} StatementNotFound(db: Db, mobile: string)
    requires UsersOk(db.users) && AccountsOk(db.users, db.accounts)
    ensures GetTransactions(db, mobile) == Err(AccountNotFound) <==> forall i :: 0 <= i < |db.users| ==> db.users[i].mobile != mobile
  {
    AccountOfUser(db.users, db.accounts, mobile);
  }

  /** The outcome of a successful registration taking the tables from db0
      to db: the returned UPI id is built from the mobile, db is Registered
      of db0, and the mobile's statement shows the new account's final
      balance and, as a multiset, the whole generated batch. */
  ghost predicate Registration(db0: Db, db: Db, mobile: string, name: Option<string>, handle: nat,
                               initialBalance: int, draws: seq<Draw>, upi: string)
    requires handle < |Handles| && AllValid(draws)
  {
    var accountId := |db0.accounts| + 1;
    && upi == UpiId(mobile, handle)
    && db == Registered(db0, mobile, name, handle, initialBalance, draws)
    && GetTransactions(db, mobile) == Ok(Statement(initialBalance + NetChange(draws), Recent(db.transactions, accountId)))
    && multiset(Recent(db.transactions, accountId)) == multiset(TxnBatch(|db0.transactions| + 1, accountId, draws))
  }

  /** The statement of a freshly registered mobile: its account is the last
      one, its rows come after those of older accounts only, so the
      statement holds the final balance and, when at most ten rows were
      generated, exactly those rows. */
  lemma {:induction false} NewAccountStatement(db0: Db, db: Db, mobile: string, name: Option<string>, upi: string,
                            balance: int, draws: seq<Draw>)
    requires UsersOk(db.users) && AccountsOk(db.users, db.accounts)
    requires TransactionsOk(db0.accounts, db0.transactions)
    requires AllValid(draws) && |draws| <= MaxBatch && |db0.users| == |db0.accounts|
    requires db.users == db0.users + [User(|db0.users| + 1, mobile, name)]
    requires db.accounts == db0.accounts + [Account(|db0.accounts| + 1, |db0.users| + 1, balance, upi)]
    requires db.transactions == db0.transactions + TxnBatch(|db0.transactions| + 1, |db0.accounts| + 1, draws)
    ensures GetTransactions(db, mobile) == Ok(Statement(balance, Recent(db.transactions, |db0.accounts| + 1)))
    ensures multiset(Recent(db.transactions, |db0.accounts| + 1))
         == multiset(TxnBatch(|db0.transactions| + 1, |db0.accounts| + 1, draws))
  {
    var n := |db0.accounts|;
    assert db.users[n].mobile == mobile;
    StatementOfUser(db, n);
    RecentOfNewAccount(db0.transactions, TxnBatch(|db0.transactions| + 1, n + 1, draws), n + 1);
  }

  /** Registering a new mobile on consistent tables, with at most ten
      draws, yields the Registration outcome. */
  lemma {:induction false} RegistrationHolds(db0: Db, mobile: string, name: Option<string>, handle: nat,
                          initialBalance: int, draws: seq<Draw>)
    requires TablesOk(db0) && handle < |Handles| && AllValid(draws) && |draws| <= MaxBatch
    requires TablesOk(Registered(db0, mobile, name, handle, initialBalance, draws))
    ensures Registration(db0, Registered(db0, mobile, name, handle, initialBalance, draws),
                         mobile, name, handle, initialBalance, draws, UpiId(mobile, handle))
  {
    var db := Registered(db0, mobile, name, handle, initialBalance, draws);
    RegisteredShape(db0, mobile, name, handle, initialBalance, draws);
    NewAccountStatement(db0, db, mobile, name, UpiId(mobile, handle), initialBalance + NetChange(draws), draws);
  }

  class Ledger {
    var users: seq<User>
    var accounts: seq<Account>
    var transactions: seq<Transaction>
    var payloads: seq<Payload>
    /** The next AUTOINCREMENT id of each table. */
    var nextUserId: nat
    var nextAccountId: nat
    var nextTransactionId: nat
    var nextPayloadId: nat

    /** The four tables as one value. */
    function Tables(): Db
      reads this
    {
      Db(users, accounts, transactions, payloads)
    }

    ghost predicate Valid()
      reads this
    {
      && nextUserId == |users| + 1
      && nextAccountId == |accounts| + 1
      && nextTransactionId == |transactions| + 1
      && nextPayloadId == |payloads| + 1
      && TablesOk(Tables())
    }

    /** init_db on a fresh database: four empty tables. */
    constructor ()
      ensures Valid()
      ensures users == [] && accounts == [] && transactions == [] && payloads == []
    {
      users, accounts, transactions, payloads := [], [], [], [];
      nextUserId, nextAccountId, nextTransactionId, nextPayloadId := 1, 1, 1, 1;
    }

    /** One iteration of generate_transactions for the account at position
        k: insert the transaction row, then the payload row pointing at the
        id just inserted, then move the balance by the signed amount. */
    method InsertGenerated(k: nat, user: User, vpa: string, d: Draw)
      requires Valid()
      requires k < |accounts| && user == users[k] && vpa == accounts[k].upiId
      requires ValidDraw(d)
      modifies this
      ensures Valid()
      ensures Tables() == InsertOne(old(Tables()), k, user, vpa, d)
    {
      InsertKeepsTables(Tables(), k, user, vpa, d);
      ghost var target := InsertOne(Tables(), k, user, vpa, d);
      var txnId := nextTransactionId;
      transactions := transactions + [TxnRow(txnId, k + 1, d)];
      nextTransactionId := nextTransactionId + 1;
      payloads := payloads + [PayloadRow(nextPayloadId, txnId, user, vpa, d)];
      nextPayloadId := nextPayloadId + 1;
      var current := accounts[k];
      var balance := if d.kind == Credit then current.balance + d.amount else current.balance - d.amount;
      accounts := accounts[k := current.(balance := balance)];
      assert users == target.users && accounts == target.accounts;
      assert transactions == target.transactions && payloads == target.payloads;
    }

    /** generate_transactions(account_id, len(draws)): fetch the account and
        its user, then for each draw insert one transaction row for the
        account, one payload row pointing at it, and move the account
        balance by +amount (CREDIT) or -amount (DEBIT). The tables end as
        InsertBatch of the old ones: Schema.BatchRows, Schema.BatchBalance
        and Schema.BatchMirrors spell out what that state holds. */
    method GenerateTransactions(accountId: nat, draws: seq<Draw>)
      requires Valid()
      requires 1 <= accountId <= |accounts|
      requires AllValid(draws)
      modifies this
      ensures Valid()
      ensures Tables() == InsertBatch(old(Tables()), accountId - 1, old(users)[accountId - 1],
                                      old(accounts)[accountId - 1].upiId, draws)
    {
      var k := accountId - 1;
      var account := accounts[k];
      var user := users[account.userId - 1];
      assert user == users[k];
      ghost var db0 := Tables();
      InsertBatchNone(db0, k, user, account.upiId);
      for i := 0 to |draws|
        invariant Valid()
        invariant Tables() == InsertBatch(db0, k, user, account.upiId, draws[..i])
      {
        assert draws[..i + 1] == draws[..i] + [draws[i]];
        InsertBatchStep(db0, k, user, account.upiId, draws[..i], draws[i]);
        InsertGenerated(k, user, account.upiId, draws[i]);
      }
      assert draws[..|draws|] == draws;
    }

    /** register: check the mobile, reject one that is already stored, else
        create the user, account and transactions. */
    method Register(mobile: Option<string>, name: Option<string>, handle: nat,
                    initialBalance: int, draws: seq<Draw>) returns (r: Result<string, ApiError>)
      requires Valid()
      requires handle < |Handles|
      requires MinInitialBalance <= initialBalance <= MaxInitialBalance
      requires MinBatch <= |draws| <= MaxBatch
      requires AllValid(draws)
      modifies this
      ensures Valid()
      ensures r == Err(InvalidMobileNumber) <==> !MobileAccepted(mobile)
      ensures r == Err(UserAlreadyExists) <==>
        MobileAccepted(mobile) && exists i :: 0 <= i < |old(users)| && old(users)[i].mobile == mobile.value
      ensures r.Ok? <==>
        MobileAccepted(mobile) && forall i :: 0 <= i < |old(users)| ==> old(users)[i].mobile != mobile.value
      ensures r.Err? ==> unchanged(this)
      ensures r.Ok? ==> mobile.Some? && Registration(old(Tables()), Tables(), mobile.value, name, handle, initialBalance, draws, r.value)
    {
      if !MobileAccepted(mobile) {
        return Err(InvalidMobileNumber);
      }
      var m := mobile.value;
      if UserByMobile(users, m).Some? {
        return Err(UserAlreadyExists);
      }
      var upi := CreateUser(m, name, handle, initialBalance, draws);
      r := Ok(upi);
    }

    /** The insert steps of register for a checked, new mobile: the user,
        then the account with its UPI id and starting balance, then
        generate_transactions for that account. */
    method CreateUser(mobile: string, name: Option<string>, handle: nat,
                      initialBalance: int, draws: seq<Draw>) returns (upi: string)
      requires Valid()
      requires IsMobile(mobile) && forall i :: 0 <= i < |users| ==> users[i].mobile != mobile
      requires handle < |Handles| && AllValid(draws) && |draws| <= MaxBatch
      modifies this
      ensures Valid()
      ensures Registration(old(Tables()), Tables(), mobile, name, handle, initialBalance, draws, upi)
    {
      ghost var db0 := Tables();
      AddUserKeepsTables(db0, mobile, name, handle, initialBalance);
      var userId := nextUserId;
      users := users + [User(userId, mobile, name)];
      nextUserId := nextUserId + 1;
      upi := UpiId(mobile, handle);
      var accountId := nextAccountId;
      accounts := accounts + [Account(accountId, userId, initialBalance, upi)];
      nextAccountId := nextAccountId + 1;
      assert Tables() == AddUser(db0, mobile, name, handle, initialBalance);
      ghost var user := users[accountId - 1];
      assert user == User(|db0.users| + 1, mobile, name) && accounts[accountId - 1].upiId == upi;
      GenerateTransactions(accountId, draws);
      assert Tables() == Registered(db0, mobile, name, handle, initialBalance, draws);
      RegistrationHolds(db0, mobile, name, handle, initialBalance, draws);
    }
  }
}
