# PhonePe mock API server: a Dafny model of its ledger

The mock server keeps four sqlite tables:

- users
- accounts
- transactions
- transaction_payloads

It serves three endpoints: `/api/register`, `/api/transactions/<mobile>` and `/api/otp/generate`. The core modelled here is the logic behind them:

- the ten-digit mobile check;
- the UPI id built from the mobile;
- the IFSC generator;
- `generate_transactions`, which inserts a batch of random transactions and payloads for an account and moves its balance;
- `register`, which checks the mobile, rejects a known one, inserts the user and account and then generates 5 to 10 transactions;
- `get_transactions`, which joins users and accounts on the mobile and returns the balance and the ten newest transactions.

Modules:

- `Wrappers`: `Option` and `Result`.
- `Identifiers`: the mobile check, UPI ids and IFSC codes. UPI ids and IFSC codes come with a parser and round-trip lemmas. The mobile check is stated as an iff with the predicate `IsMobile`.
- `Records`: the rows of the four tables. It also holds `Draw`, the random choices and clock reading of one loop iteration; the row builders; their column formats; and the balance change of a batch.
- `Query`: the `WHERE account_id = ? ORDER BY timestamp DESC LIMIT 10` query, as a selection, an insertion sort and a prefix.
- `Schema`: the tables as one `Db` value, plus:
  - the constraints the schema and insert order keep (AUTOINCREMENT ids, UNIQUE columns, the i-th account belonging to the i-th user, the i-th payload describing the i-th transaction);
  - the lookups;
  - the inserts, as functions on `Db`.
- `Server`: the endpoints. The class `Ledger` holds the four tables and their AUTOINCREMENT counters as fields. The methods `Register`, `CreateUser`, `GenerateTransactions` and `InsertGenerated` update those fields. Each is proved against the `Schema` function that describes its new state. `GetTransactions` and `GenerateOtp` change nothing and are functions.

How values are represented:

- Money is integer paise. `round(uniform(10, 5000), 2)` is an amount in 1000..500000 paise.
- Timestamps are integer seconds.
- Every random choice and the clock reading (`datetime.now()`) are parameters. Their ranges are stated by `requires` clauses (`ValidDraw`, and the initial-balance and batch-size bounds of `Register`).

Facts about the code that a reader might not expect, all modelled as written:

- Mobile numbers have no rule on their first digit (`AnyLeadingDigitAccepted`).
- A DEBIT can take a balance below zero; no floor is applied.
- The generated IFSC is 4 letters, "000" and 3 digits: 10 characters, not the 11 of a standard IFSC.

## Model

| member | source | states |
|---|---|---|
| Identifiers.MobileAccepted | api_server.py:140 | the register check accepts exactly a present string of ten decimal digits |
| Identifiers.AnyLeadingDigitAccepted | api_server.py:207 | the mobile check has no first-digit rule: an accepted mobile with any other leading digit is still accepted |
| Identifiers.AllDigits | api_server.py:140 | true exactly when every character is a decimal digit (so of the empty string too) |
| Identifiers.UpiId | api_server.py:65-67 | a UPI id is longer than the mobile it is built from |
| Identifiers.UpiIdOf | api_server.py:65-67 | a generated UPI id is the mobile followed by one of the four listed handles |
| Identifiers.UpiRoundTrip | api_server.py:65-67 | parsing a generated UPI id gives back the mobile and the chosen handle |
| Identifiers.ParseUpiSound | api_server.py:65-67 | whatever ParseUpi accepts is a ten-digit mobile and a handle that generate the same UPI id |
| Identifiers.UpiIdInjective | api_server.py:65-67 | UPI ids of equal-length mobiles are equal iff both mobile and handle are |
| Identifiers.DistinctMobilesDistinctUpi | api_server.py:33 | UPI ids of two different mobiles of the same length differ, so the UNIQUE upi_id column cannot reject a new user |
| Identifiers.Ifsc | api_server.py:69-71 | a generated IFSC is 10 characters long |
| Identifiers.IfscWellFormed | api_server.py:69-71 | a generated IFSC is a listed bank code, "000" and three digits, 10 characters long |
| Identifiers.IfscRoundTrip | api_server.py:69-71 | parsing a generated IFSC gives back the bank choice and the three digits |
| Identifiers.ParseIfscComplete | api_server.py:69-71 | ParseIfsc accepts exactly the well-formed codes, and each one it accepts is generated by the parsed bank and digits |
| Identifiers.HandleIndex | api_server.py:66 | the position of a suffix in the handle list, or None exactly when it is not listed |
| Identifiers.BankIndex | api_server.py:70 | the position of a prefix in the bank list, or None exactly when it is not listed |
| Records.Timestamp | api_server.py:88 | a transaction time is at most 30 days before the clock reading and not after it |
| Records.TxnRow | api_server.py:94-99 | the inserted transaction takes the next id and the account's id, stores the draw's amount, type and status, and has a timestamp within the last 30 days |
| Records.TxnRowWellFormed | api_server.py:84-98 | a generated transaction has an amount in range, a listed merchant and a "UPI" reference of nine digits |
| Records.PayloadRow | api_server.py:99-123 | the payload row takes the next id and points at the transaction id just inserted |
| Records.PayloadRowWellFormed | api_server.py:90-117 | a payload has a "MERCHANTUAT" id with 4 digits, a 12-character upper-case/digit merchant transaction id, type "UPI", a 12-digit account number and a well-formed IFSC |
| Records.PayloadRowMirrors | api_server.py:102-117 | a payload carries its transaction's id, amount and timestamp, and its user's id, mobile and the account's UPI id |
| Records.TxnBatch | api_server.py:83-99 | a batch has one row per draw, with consecutive ids and the account's id |
| Records.TxnBatchRows | api_server.py:83-98 | row i of a batch is the row built from draw i, so it stores that draw's amount and type |
| Records.BatchRowAmounts | api_server.py:85-98 | the CREDIT (or DEBIT) amounts stored in a batch's rows are exactly those of its draws, in order |
| Records.PayloadBatch | api_server.py:99-123 | the i-th payload of a batch has the i-th consecutive id and points at the i-th transaction |
| Records.TxnBatchSnoc | api_server.py:83-99 | one more iteration appends exactly one transaction row with the next id |
| Records.PayloadBatchSnoc | api_server.py:99-123 | one more iteration appends exactly one payload row with the next ids |
| Records.PayloadBatchMirrors | api_server.py:102-123 | every payload of a batch mirrors the transaction at the same position |
| Records.TxnBatchWellFormed | api_server.py:83-98 | every transaction of a batch meets the column formats |
| Records.PayloadBatchWellFormed | api_server.py:83-117 | every payload of a batch has the generator formats |
| Records.Signed | api_server.py:126-129 | one iteration adds the amount to the balance for a CREDIT and subtracts it for a DEBIT |
| Records.NetChange | api_server.py:126-129 | the balance change of a batch, accumulated in loop order; NetIsCreditsMinusDebits, NetChangeBounded and NetChangeSnoc state what it is |
| Records.NetIsCreditsMinusDebits | api_server.py:126-129 | the balance change of a batch is its CREDIT total minus its DEBIT total |
| Records.NetChangeBounded | api_server.py:84-129 | n iterations move the balance by at most n × 5000.00 either way |
| Records.NetChangeSnoc | api_server.py:126-129 | one more iteration moves the balance by its signed amount |
| Records.SumAppend | api_server.py:126-129 | the total of two concatenated amount lists is the sum of their totals |
| Query.OfAccount | api_server.py:187-189 | the selection is no longer than the table |
| Query.OfAccountMembers | api_server.py:187-189 | the WHERE clause selects exactly the rows of the account |
| Query.OfAccountAppend | api_server.py:187-189 | selecting from two tables in a row is the two selections in a row |
| Query.OfAccountAll | api_server.py:187-189 | a table of only the account's rows is selected whole |
| Query.OfAccountNone | api_server.py:187-189 | a table with no row of the account selects nothing |
| Query.InsertNewestFirst | api_server.py:190 | insertion adds exactly the one row (as a multiset) |
| Query.InsertKeepsNewestFirst | api_server.py:190 | inserting into a newest-first sequence keeps it newest-first |
| Query.InsertNotNewer | api_server.py:190 | inserting a row no newer than a bound into rows no newer than it keeps that bound |
| Query.SortNewestFirst | api_server.py:190 | the sort is a permutation of its input |
| Query.SortIsNewestFirst | api_server.py:190 | the sorted rows are in non-increasing timestamp order |
| Query.Recent | api_server.py:187-192 | the query returns at most ten rows |
| Query.RecentShape | api_server.py:187-192 | the query returns min(10, n) of the n rows of the account, newest first, each a row of that account, none more often than stored |
| Query.PrefixKeepsOrder | api_server.py:191 | a prefix of a newest-first sequence is newest-first and a sub-multiset |
| Query.RecentOmitsOnlyOlder | api_server.py:187-192 | a row of the account is left out only when ten are returned, and it is no newer than the tenth |
| Query.RecentKeepsShortHistory | api_server.py:191 | an account with at most ten rows gets all of them back |
| Query.RecentOfNewAccount | api_server.py:187-192 | a batch of at most ten rows of an account appended after older accounts' rows is exactly what the query returns for it |
| Schema.UserByMobile | api_server.py:146 | the lookup returns the first user with the mobile, or None exactly when no user has it |
| Schema.AccountForMobile | api_server.py:176-181 | the lookup returns the first account whose user has the mobile, or None exactly when none has |
| Schema.OwnerAt | api_server.py:176-181 | on consistent tables, the i-th account joins to the mobile iff the i-th user has it |
| Schema.AccountOfUser | api_server.py:176-181 | on consistent tables, the join finds the account at the user's position, and nothing iff no user has the mobile |
| Schema.InsertOne | api_server.py:94-129 | one iteration appends one transaction and one payload and moves only account k, by the signed amount |
| Schema.InsertBatch | api_server.py:83-129 | a whole loop keeps users and the UPI id and appends one transaction and one payload per draw |
| Schema.InsertBatchNone | api_server.py:83 | a loop of no iterations changes nothing |
| Schema.InsertBatchStep | api_server.py:83-129 | the loop over ds + [d] is the loop over ds followed by one more iteration |
| Schema.StepAccounts | api_server.py:126-129 | one more iteration leaves the accounts as the closed form for one more draw |
| Schema.StepTransactions | api_server.py:94-99 | one more iteration leaves the transactions as the closed form for one more draw |
| Schema.StepPayloads | api_server.py:99-123 | one more iteration leaves the payloads as the closed form for one more draw |
| Schema.BatchBalance | api_server.py:126-129 | the loop moves only account k, by the CREDIT total minus the DEBIT total |
| Schema.BatchBalanceOfRows | api_server.py:94-129 | the balance moves by the CREDIT amounts minus the DEBIT amounts of the transaction rows the loop stored |
| Schema.BatchStoresDraws | api_server.py:83-98 | the i-th new transaction is the row built from the i-th draw (its amount, type, status and timestamp) |
| Schema.BatchRows | api_server.py:83-123 | the loop keeps every stored row and appends transactions of account k with consecutive ids and payloads pointing at them, all well-formed |
| Schema.BatchMirrors | api_server.py:80-117 | with the user and UPI id fetched from the account, every new payload mirrors its transaction, user and account |
| Schema.InsertKeepsTables | api_server.py:94-129 | one iteration keeps every table constraint |
| Schema.AddUser | api_server.py:150-159 | the two inserts of register add one user and one account |
| Schema.AddUserKeepsTables | api_server.py:146-159 | inserting a new accepted mobile and its account keeps every constraint, the UNIQUE upi_id included |
| Schema.Registered | api_server.py:150-162 | a successful registration adds exactly one user with the next id, the mobile and the name, one account with the generated UPI id, and one transaction and one payload per draw |
| Schema.RegisteredShape | api_server.py:150-162 | a registration appends the user, the account with its starting balance plus the batch's net change, and the batch rows, changing nothing stored before |
| Server.GenerateOtp | api_server.py:205-212 | the OTP is returned iff the mobile passes the mobile check; otherwise "invalid mobile number" |
| Server.GetTransactions | api_server.py:171-200 | "not found" iff no account joins to the mobile; otherwise a joined account's balance and at most ten of its rows, newest first |
| Server.StatementOfUser | api_server.py:171-200 | on consistent tables, a stored user's statement is their account's balance and newest rows |
| Server.StatementNotFound | api_server.py:183-184 | on consistent tables, "not found" is returned exactly for a mobile no user has |
| Server.Registration | api_server.py:150-167 | the outcome register promises: the returned UPI id is built from the mobile, the new tables are Registered of the old, and the mobile's statement shows the final balance and the whole generated batch |
| Server.NewAccountStatement | api_server.py:162-192 | a fresh account's statement shows its final balance and, as a multiset, all of its at most ten generated rows |
| Server.RegistrationHolds | api_server.py:150-192 | a registration on consistent tables yields the returned UPI id, the registered tables and that statement |
| Server.Ledger.constructor | api_server.py:17-62 | init_db on a fresh database gives four empty tables that meet every constraint |
| Server.Ledger.InsertGenerated | api_server.py:93-129 | one iteration's three statements make the new tables InsertOne of the old and keep the constraints |
| Server.Ledger.GenerateTransactions | api_server.py:73-131 | the loop makes the new tables InsertBatch of the old, so BatchRows, BatchBalance and BatchMirrors describe its effect; the constraints are kept |
| Server.Ledger.Register | api_server.py:134-167 | "invalid mobile number" iff the mobile check fails; "user already exists" iff a stored user has the mobile; success iff the mobile is accepted and no stored user has it; on an error nothing changes; on success the tables and statement are the Registration outcome |
| Server.Ledger.CreateUser | api_server.py:150-167 | for a checked new mobile, inserts user, account and batch, returns the UPI id, and keeps the constraints |

## Left out

- HTTP and Flask are not modelled: request parsing, JSON encoding and status codes. Each endpoint's response is a `Result` value instead.
- On sqlite, only the tables as values are modelled. Connections, commits and the `with` blocks are not.
- `register` is modelled as one atomic step in which `generate_transactions` sees the new user and account. As written, the source does not reach its success path. `generate_transactions` opens a second sqlite connection (api_server.py:77) while `register`'s inserts are still uncommitted on the first. sqlite does not show one connection's uncommitted rows to another, so the `SELECT` at api_server.py:80 returns no row and `account['user_id']` at line 81 raises. `register` then rolls back its inserts as its `with` block exits and answers 500 (api_server.py:168-169). Even with the account visible, the loop's `INSERT` would wait on the first connection's write lock. The model describes the single registration step the code evidently intends.
- The `except Exception` branches that turn any failure into a 500 response are not modelled.
- `Server.Ledger.GenerateTransactions`: requires the account to exist. In the source, a missing account makes `account['user_id']` raise, and the caller returns a 500.
- Randomness and the clock become parameters: `random.*` and `datetime.now()` in the loop, `random.uniform` for the initial balance, the handle choice and the OTP digits. Their ranges are stated as `requires`.
- `Server.Ledger.Register`: requires the draws to number 5 to 10 and the initial balance to lie in 1000.00..5000.00. Those are the ranges of `random.randint(5, 10)` and `random.uniform(1000, 5000)`.
- Floating point is not modelled. Amounts are the two-decimal results of `round`, held as paise.
- The initial balance from `random.uniform(1000, 5000)` is not rounded in the source. The model holds it as whole paise, so sub-paisa digits are lost.
- Timestamps are integers. The source stores ISO-8601 strings and sorts them as text, which orders them like the integers for timestamps of one format.
- Rows with equal timestamps: sqlite's `ORDER BY` leaves their order unspecified, and the model fixes one order. Because of this, the statement of a new account is stated as a multiset of rows.
- `generate_transactions`' default `count=5` is not modelled: `register` always passes a count.
- `Identifiers.IsDigit`: accepts ASCII '0'..'9' only. Python's `str.isdigit` also accepts other Unicode digits.
- A `mobile` that is present but not a string (a JSON number, for instance) is not modelled.
- Field formats of the generated rows (amount range, merchant, reference, payload fields) are proved for each row and each batch. They are not carried as table invariants; `TablesOk` keeps ids, references, the amount range and payload mirroring.
- The JSON text of a payload is not modelled: `json.dumps` is represented by the `PayloadBody` fields.
- The `name` column is stored but not constrained. The `created_at` columns of users and transaction_payloads are not modelled.
- `init_db` is modelled on a fresh database only. `CREATE TABLE IF NOT EXISTS` keeps the rows of an existing phonepe.db; the constructor starts from empty tables.
- `phonepe_client.py` is not part of this model.
