/** The rows of the four tables (users, accounts, transactions,
    transaction_payloads), the random choices that one iteration of
    generate_transactions makes, the rows built from them, and the net
    balance change a batch causes. Money is integer paise. */
module Records {
  import opened Wrappers
  import opened Identifiers

  datatype TxnType = Credit | Debit
  datatype TxnStatus = Success | Failed | Pending

  const Merchants: seq<string> := ["Amazon", "Flipkart", "Zomato", "Swiggy", "IRCTC"]

  /** round(random.uniform(10, 5000), 2), in paise. */
  const MinAmount: int := 1000
  const MaxAmount: int := 500000
  /** random.uniform(1000, 5000) for a new account, in paise. */
  const MinInitialBalance: int := 100000
  const MaxInitialBalance: int := 500000
  /** random.randint(5, 10) transactions per registration. */
  const MinBatch: nat := 5
  const MaxBatch: nat := 10
  /** A timestamp is now minus random.randint(0, 30) days. */
  const MaxDaysAgo: nat := 30
  const SecondsPerDay: nat := 86400

  const ReferencePrefix: string := "UPI"
  const MerchantIdPrefix: string := "MERCHANTUAT"
  const InstrumentType: string := "UPI"

  datatype User = User(id: nat, mobile: string, name: Option<string>)

  datatype Account = Account(id: nat, userId: nat, balance: int, upiId: string)

  datatype Transaction = Transaction(
    id: nat,
    accountId: nat,
    amount: int,
    kind: TxnType,
    merchant: string,
    status: TxnStatus,
    timestamp: int,
    upiReference: string)

  /** The fields of the JSON payload stored for one transaction. */
  datatype PayloadBody = PayloadBody(
    merchantId: string,
    merchantTransactionId: string,
    userId: nat,
    amount: int,
    mobileNumber: string,
    instrumentType: string,
    vpa: string,
    accountNumber: string,
    ifsc: string,
    timestamp: int)

  datatype Payload = Payload(id: nat, transactionId: nat, body: PayloadBody)

  /** The random choices and the clock reading of one loop iteration. */
  datatype Draw = Draw(
    amount: int,
    kind: TxnType,
    merchant: nat,
    status: TxnStatus,
    now: int,
    daysAgo: nat,
    referenceNumber: string,
    merchantDigits: string,
    merchantTransactionId: string,
    accountNumber: string,
    ifscBank: nat,
    ifscDigits: string)

  predicate IsUpperOrDigit(c: char) {
    'A' <= c <= 'Z' || IsDigit(c)
  }

  /** The decimal text of random.randint(100000000, 999999999). */
  predicate IsReferenceNumber(s: string) {
    |s| == 9 && AllDigits(s) && s[0] != '0'
  }

  predicate IsUpiReference(s: string) {
    |s| == 12 && s[..3] == ReferencePrefix && IsReferenceNumber(s[3..])
  }

  predicate IsMerchantId(s: string) {
    |s| == 15 && s[..11] == MerchantIdPrefix && AllDigits(s[11..])
  }

  predicate IsMerchantTransactionId(s: string) {
    |s| == 12 && forall i :: 0 <= i < |s| ==> IsUpperOrDigit(s[i])
  }

  predicate IsAccountNumber(s: string) {
    |s| == 12 && AllDigits(s)
  }

  /** What the random module can deliver for one iteration. */
  predicate ValidDraw(d: Draw) {
    && MinAmount <= d.amount <= MaxAmount
    && d.merchant < |Merchants|
    && d.daysAgo <= MaxDaysAgo
    && IsReferenceNumber(d.referenceNumber)
    && |d.merchantDigits| == 4 && AllDigits(d.merchantDigits)
    && IsMerchantTransactionId(d.merchantTransactionId)
    && IsAccountNumber(d.accountNumber)
    && d.ifscBank < |Banks| && |d.ifscDigits| == BranchDigits && AllDigits(d.ifscDigits)
  }

  predicate AllValid(ds: seq<Draw>) {
    forall i :: 0 <= i < |ds| ==> ValidDraw(ds[i])
  }

  /** The column constraints of a transaction row: the amount range, a
      listed merchant and a "UPI"-prefixed reference. Type and status are
      restricted to the CHECK lists by their datatypes. */
  predicate WellFormedTxn(t: Transaction) {
    && MinAmount <= t.amount <= MaxAmount
    && t.merchant in Merchants
    && IsUpiReference(t.upiReference)
  }

  predicate WellFormedBody(b: PayloadBody) {
    && IsMerchantId(b.merchantId)
    && IsMerchantTransactionId(b.merchantTransactionId)
    && b.instrumentType == InstrumentType
    && IsAccountNumber(b.accountNumber)
    && IsIfsc(b.ifsc)
  }

  /** A payload mirrors its transaction and the user and account it belongs to. */
  predicate Mirrors(p: Payload, t: Transaction, u: User, a: Account) {
    && p.transactionId == t.id
    && p.body.amount == t.amount
    && p.body.timestamp == t.timestamp
    && p.body.userId == u.id
    && p.body.mobileNumber == u.mobile
    && p.body.vpa == a.upiId
  }

  /** datetime.now() - timedelta(days=daysAgo), in seconds. */
  function Timestamp(d: Draw): (ts: int)
    requires d.daysAgo <= MaxDaysAgo
    ensures d.now - MaxDaysAgo * SecondsPerDay <= ts <= d.now
  {
    d.now - d.daysAgo * SecondsPerDay
  }

  /** The transactions row inserted in one iteration. */
  function TxnRow(id: nat, accountId: nat, d: Draw): (t: Transaction)
    requires ValidDraw(d)
    ensures t.id == id && t.accountId == accountId
    ensures t.amount == d.amount && t.kind == d.kind && t.status == d.status
    ensures d.now - MaxDaysAgo * SecondsPerDay <= t.timestamp <= d.now
  {
    Transaction(id, accountId, d.amount, d.kind, Merchants[d.merchant], d.status, Timestamp(d),
                ReferencePrefix + d.referenceNumber)
  }

  /** A generated transaction row meets the column constraints. */
  lemma {:induction false} TxnRowWellFormed(id: nat, accountId: nat, d: Draw)
    requires ValidDraw(d)
    ensures WellFormedTxn(TxnRow(id, accountId, d))
  {
    var reference := TxnRow(id, accountId, d).upiReference;
    assert reference[..3] == ReferencePrefix && reference[3..] == d.referenceNumber;
  }

  /** The transaction_payloads row inserted in the same iteration, pointing at
      the transaction id just inserted. */
  function PayloadRow(id: nat, txnId: nat, u: User, vpa: string, d: Draw): (p: Payload)
    requires ValidDraw(d)
    ensures p.id == id && p.transactionId == txnId
  {
    var merchantId := MerchantIdPrefix + d.merchantDigits;
    Payload(id, txnId, PayloadBody(
      merchantId, d.merchantTransactionId, u.id, d.amount, u.mobile, InstrumentType,
      vpa, d.accountNumber, Ifsc(d.ifscBank, d.ifscDigits), Timestamp(d)))
  }

  /** A generated payload has the field formats of the generators. */
  lemma {:induction false} PayloadRowWellFormed(id: nat, txnId: nat, u: User, vpa: string, d: Draw)
    requires ValidDraw(d)
    ensures WellFormedBody(PayloadRow(id, txnId, u, vpa, d).body)
  {
    var merchantId := PayloadRow(id, txnId, u, vpa, d).body.merchantId;
    assert merchantId[..11] == MerchantIdPrefix && merchantId[11..] == d.merchantDigits;
    IfscWellFormed(d.ifscBank, d.ifscDigits);
  }

  lemma {:induction false} PayloadRowMirrors(id: nat, txnId: nat, accountId: nat, u: User, a: Account, d: Draw)
    requires ValidDraw(d)
    ensures Mirrors(PayloadRow(id, txnId, u, a.upiId, d), TxnRow(txnId, accountId, d), u, a)
  {
  }

  /** The transactions rows of one generate_transactions call, in loop
      order, with ids handed out consecutively from firstId. */
  function TxnBatch(firstId: nat, accountId: nat, ds: seq<Draw>): (b: seq<Transaction>)
    requires AllValid(ds)
    ensures |b| == |ds|
    ensures forall i :: 0 <= i < |b| ==> b[i].id == firstId + i && b[i].accountId == accountId
  {
    if ds == [] then []
    else TxnBatch(firstId, accountId, ds[..|ds| - 1]) + [TxnRow(firstId + |ds| - 1, accountId, ds[|ds| - 1])]
  }

  /** The payload rows of the same call: the i-th one points at the i-th
      transaction of the batch. */
  function PayloadBatch(firstId: nat, firstTxnId: nat, u: User, vpa: string, ds: seq<Draw>): (b: seq<Payload>)
    requires AllValid(ds)
    ensures |b| == |ds|
    ensures forall i :: 0 <= i < |b| ==> b[i].id == firstId + i && b[i].transactionId == firstTxnId + i
  {
    if ds == [] then []
    else PayloadBatch(firstId, firstTxnId, u, vpa, ds[..|ds| - 1])
         + [PayloadRow(firstId + |ds| - 1, firstTxnId + |ds| - 1, u, vpa, ds[|ds| - 1])]
  }

  /** Row i of a batch is the row built from draw i: it stores that draw's
      amount, type, merchant, status and timestamp. */
  lemma {:induction false} TxnBatchRows(firstId: nat, accountId: nat, ds: seq<Draw>)
    requires AllValid(ds)
    ensures forall i :: 0 <= i < |ds| ==> TxnBatch(firstId, accountId, ds)[i] == TxnRow(firstId + i, accountId, ds[i])
  {
    if ds != [] {
      var n := |ds| - 1;
      TxnBatchRows(firstId, accountId, ds[..n]);
    }
  }

  /** One more draw appends one more row to the batch. */
  lemma {:induction false} TxnBatchSnoc(firstId: nat, accountId: nat, ds: seq<Draw>, d: Draw)
    requires AllValid(ds) && ValidDraw(d) && AllValid(ds + [d])
    ensures TxnBatch(firstId, accountId, ds + [d]) == TxnBatch(firstId, accountId, ds) + [TxnRow(firstId + |ds|, accountId, d)]
  {
    assert (ds + [d])[..|ds|] == ds;
  }

  lemma {:induction false} PayloadBatchSnoc(firstId: nat, firstTxnId: nat, u: User, vpa: string, ds: seq<Draw>, d: Draw)
    requires AllValid(ds) && ValidDraw(d) && AllValid(ds + [d])
    ensures PayloadBatch(firstId, firstTxnId, u, vpa, ds + [d])
         == PayloadBatch(firstId, firstTxnId, u, vpa, ds) + [PayloadRow(firstId + |ds|, firstTxnId + |ds|, u, vpa, d)]
  {
    assert (ds + [d])[..|ds|] == ds;
  }

  /** Every payload of a batch mirrors the transaction at the same position. */
  lemma {:induction false} PayloadBatchMirrors(firstId: nat, firstTxnId: nat, accountId: nat, u: User, a: Account, ds: seq<Draw>)
    requires AllValid(ds)
    ensures forall i :: 0 <= i < |ds| ==>
      Mirrors(PayloadBatch(firstId, firstTxnId, u, a.upiId, ds)[i], TxnBatch(firstTxnId, accountId, ds)[i], u, a)
  {
    if ds != [] {
      var n := |ds| - 1;
      PayloadBatchMirrors(firstId, firstTxnId, accountId, u, a, ds[..n]);
      PayloadRowMirrors(firstId + n, firstTxnId + n, accountId, u, a, ds[n]);
    }
  }

  /** Every row of a batch meets the column constraints. */
  lemma {:induction false} TxnBatchWellFormed(firstId: nat, accountId: nat, ds: seq<Draw>)
    requires AllValid(ds)
    ensures forall i :: 0 <= i < |ds| ==> WellFormedTxn(TxnBatch(firstId, accountId, ds)[i])
  {
    if ds != [] {
      var n := |ds| - 1;
      TxnBatchWellFormed(firstId, accountId, ds[..n]);
      TxnRowWellFormed(firstId + n, accountId, ds[n]);
    }
  }

  /** Every payload of a batch has the field formats of the generators. */
  lemma {:induction false} PayloadBatchWellFormed(firstId: nat, firstTxnId: nat, u: User, vpa: string, ds: seq<Draw>)
    requires AllValid(ds)
    ensures forall i :: 0 <= i < |ds| ==> WellFormedBody(PayloadBatch(firstId, firstTxnId, u, vpa, ds)[i].body)
  {
    if ds != [] {
      var n := |ds| - 1;
      PayloadBatchWellFormed(firstId, firstTxnId, u, vpa, ds[..n]);
      PayloadRowWellFormed(firstId + n, firstTxnId + n, u, vpa, ds[n]);
    }
  }

  // ------------------------------------------------------- balance change

  /** The amount one iteration adds to the balance. */
  function Signed(d: Draw): (delta: int)
    ensures d.kind == Credit ==> delta == d.amount
    ensures d.kind == Debit ==> delta == -d.amount
  {
    if d.kind == Credit then d.amount else -d.amount
  }

  /** The balance change of a batch, accumulated in loop order. */
  function NetChange(ds: seq<Draw>): int {
    if ds == [] then 0 else NetChange(ds[..|ds| - 1]) + Signed(ds[|ds| - 1])
  }

  /** The amounts of the draws of one type, in order. */
  function AmountsOf(ds: seq<Draw>, kind: TxnType): seq<int> {
    if ds == [] then []
    else AmountsOf(ds[..|ds| - 1], kind) + (if ds[|ds| - 1].kind == kind then [ds[|ds| - 1].amount] else [])
  }

  /** The amount column of the stored rows of one type, in table order. */
  function RowAmountsOf(ts: seq<Transaction>, kind: TxnType): seq<int> {
    if ts == [] then []
    else RowAmountsOf(ts[..|ts| - 1], kind) + (if ts[|ts| - 1].kind == kind then [ts[|ts| - 1].amount] else [])
  }

  /** The rows of a batch store the type and amount of their draws: the
      CREDIT (or DEBIT) amounts of the stored rows are those of the draws. */
  lemma {:induction false} BatchRowAmounts(firstId: nat, accountId: nat, ds: seq<Draw>, kind: TxnType)
    requires AllValid(ds)
    ensures RowAmountsOf(TxnBatch(firstId, accountId, ds), kind) == AmountsOf(ds, kind)
  {
    if ds != [] {
      var n := |ds| - 1;
      var b := TxnBatch(firstId, accountId, ds);
      var init := TxnBatch(firstId, accountId, ds[..n]);
      assert b == init + [TxnRow(firstId + n, accountId, ds[n])];
      assert b[..|b| - 1] == init;
      BatchRowAmounts(firstId, accountId, ds[..n], kind);
    }
  }

  function Sum(xs: seq<int>): int {
    if xs == [] then 0 else Sum(xs[..|xs| - 1]) + xs[|xs| - 1]
  }

  lemma {:induction false} SumAppend(xs: seq<int>, ys: seq<int>)
    ensures Sum(xs + ys) == Sum(xs) + Sum(ys)
  {
    if ys != [] {
      assert (xs + ys)[..|xs + ys| - 1] == xs + ys[..|ys| - 1];
      SumAppend(xs, ys[..|ys| - 1]);
    } else {
      assert xs + ys == xs;
    }
  }

  /** The balance change of a batch is the sum of its CREDIT amounts minus
      the sum of its DEBIT amounts. */
  lemma {:induction false} NetIsCreditsMinusDebits(ds: seq<Draw>)
    ensures NetChange(ds) == Sum(AmountsOf(ds, Credit)) - Sum(AmountsOf(ds, Debit))
  {
    if ds != [] {
      var init, last := ds[..|ds| - 1], ds[|ds| - 1];
      NetIsCreditsMinusDebits(init);
      SumAppend(AmountsOf(init, Credit), if last.kind == Credit then [last.amount] else []);
      SumAppend(AmountsOf(init, Debit), if last.kind == Debit then [last.amount] else []);
      assert Sum([last.amount]) == last.amount;
    }
  }

  /** Each iteration moves the balance by at most MaxAmount either way. */
  lemma {:induction false} NetChangeBounded(ds: seq<Draw>)
    requires AllValid(ds)
    ensures -MaxAmount * |ds| <= NetChange(ds) <= MaxAmount * |ds|
  {
    if ds != [] {
      NetChangeBounded(ds[..|ds| - 1]);
    }
  }

  /** One more draw moves the net change by its signed amount. */
  lemma {:induction false} NetChangeSnoc(ds: seq<Draw>, d: Draw)
    ensures NetChange(ds + [d]) == NetChange(ds) + Signed(d)
  {
    assert (ds + [d])[..|ds|] == ds;
  }
}
