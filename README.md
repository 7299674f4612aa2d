# Wallet ledger — a verified Dafny model

This project models the wallet ledger at the heart of a small FastAPI
service. The service keeps two tables. The `wallets` table has an id, a
unique email and a `Numeric(10, 2)` balance. The `operations` table is
append-only and records every deposit and withdrawal. Four CRUD functions in
`app/crud/wallet.py` act on these tables:

- `update_wallet_balance` runs as one transaction. It looks the wallet up,
  rejects an unknown id (404) and rejects a withdrawal larger than the
  balance (422). Otherwise it changes the balance in place and appends one
  operation record.
- `create_wallet_by_email` inserts a wallet with balance 0. The unique
  constraint makes it fail, with nothing inserted, when the email is taken.
- `get_wallet_by_id` and `get_wallet_by_email` are lookups that return the
  wallet or nothing.

The model has four modules:

- `Money` (`money.dfy`): money is an exact integer count of minor units
  (hundredths). It holds the column's precision and scale as named
  constants, and `Fits` is the range a `Numeric(10, 2)` value can take.
- `Records` (`records.dfy`): the wallet and operation rows, the operation
  kinds, and the typed outcomes `NotFound`, `InsufficientFunds`, `Conflict`
  and `StorageFailure`.
- `LedgerSpec` (`ledger_spec.dfy`): the store as a value (`Store`: wallets by
  id, the unique email index, the operation list) and each CRUD function as a
  transition function on it. `Valid` is the ledger invariant. It says every
  wallet is stored under its own id, the email index matches the wallets
  exactly, every balance is between 0 and the column maximum and equals the
  wallet's deposits minus its withdrawals, every operation belongs to an
  existing wallet with a positive amount, and operation ids are distinct.
  The lemmas prove that every call keeps the invariant, and so does every
  history of calls from the empty ledger.
- `WalletCrud` (`wallet_crud.dfy`): the class `Ledger`, whose fields are the
  tables (maps and a sequence) and whose methods update them in place. The
  two updating methods, `CreateWallet` and `Apply`, are proved equal to the
  `LedgerSpec` transition functions of the same names and to keep the
  invariant. The lookups `GetById` and `GetByEmail` are proved to return what
  `LedgerSpec.FindById` and `LedgerSpec.FindByEmail` return. Client methods
  beside the class replay the repository's wallet tests against it.

Modelling choices:

- Each CRUD call is one atomic step. The model commits the whole step or
  returns an error and leaves the state exactly as it was.
- The wallet's UUID, and the UUID and creation time of a new operation, are
  drawn by the store. In the model they are parameters of the call.
- On a duplicate key the store raises `IntegrityError`. For
  `create_wallet_by_email` this path returns `None` (`Conflict` here),
  whether the email or the drawn id is taken. For `update_wallet_balance`, a
  taken operation id is a storage error that rolls the transaction back
  (`StorageFailure`).
- The production store is PostgreSQL (`app/core/config.py:16`). It refuses a
  balance outside `Numeric(10, 2)`, i.e. beyond ±99999999.99, with a numeric
  overflow error. That error also rolls back, so a deposit that would go past
  the maximum is `StorageFailure`.
- The API layer only accepts an amount greater than 0
  (`app/api_v1/wallet/schemas.py:25`). In the model this is a precondition
  of `WalletCrud.Ledger.Apply` and of the invariant lemmas. The pure
  `LedgerSpec.Apply` accepts any amount.
- The returned `OperationResponse` copies every field of the new operation
  row. The model returns that `Operation` record itself.
- Amounts are hundredths because the balance column has scale 2
  (`app/models/models.py:9`).
- The tests seed wallets straight through the ORM, for example a balance of
  10.00 with no operation recorded (`tests/test_wallets.py:95-97` and
  `139-141`). Such a store breaks the `Valid` rule that each balance equals
  its recorded deposits minus withdrawals. So `WalletCrud.Ledger.Apply`, which
  requires `Valid()`, does not cover those exact states. The total
  `LedgerSpec.Apply` does, and its contract holds on any store. The client
  methods start from valid ledgers, so their opening balances are backed by
  recorded operations.

## Model

| member | source | states |
|---|---|---|
| `Money.ConstantsMatchColumn` | app/models/models.py:9 | the minor-unit constants are 10^2 minor units per unit, with a largest magnitude of 10^10 − 1 minor units (99999999.99), as `Numeric(10, 2)` implies |
| `LedgerSpec.FindById` | app/crud/wallet.py:13-36 | returns a wallet exactly when the id is a key; under the invariant that wallet carries the requested id |
| `LedgerSpec.FindByEmail` | app/crud/wallet.py:39-62 | under the invariant: returns a wallet exactly when some wallet holds the email, and the wallet returned is that stored wallet, with that email |
| `LedgerSpec.CreateWallet` | app/crud/wallet.py:65-92 | fails with Conflict, with the store unchanged, exactly when the email or the id is taken; otherwise it adds one wallet with that id and email and balance 0, leaves the other wallets, index entries and operations alone, and makes the wallet findable by id and by email |
| `LedgerSpec.Apply` | app/crud/wallet.py:95-160 | NotFound exactly for an unknown id; InsufficientFunds exactly for a withdrawal above the balance; StorageFailure exactly when the new balance does not fit the column or the operation id is taken; never Conflict; every error leaves the store unchanged; on success exactly one record equal to the request is appended and returned, a deposit adds the amount, a withdrawal subtracts it, and other wallets and the email index are unchanged |
| `LedgerSpec.IdIsUsed` | app/crud/wallet.py:138-145 | the id of every recorded operation counts as used, so a new record cannot reuse it |
| `LedgerSpec.NetAppend` | app/crud/wallet.py:134-144 | appending an operation moves its own wallet's justified balance by the signed amount and leaves every other wallet's unchanged |
| `LedgerSpec.NetIsDepositsMinusWithdrawals` | app/crud/wallet.py:125-144 | the justified balance equals the sum of the wallet's deposits minus the sum of its withdrawals |
| `LedgerSpec.NetUnreferenced` | app/crud/wallet.py:79-85 | a wallet with no recorded operations has a justified balance of 0, so a new wallet starts consistent |
| `LedgerSpec.EmailsUnique` | app/crud/wallet.py:79-89 | under the invariant no two wallets share an email |
| `LedgerSpec.CommitPreservesValid` | app/crud/wallet.py:134-145 | moving the balance by a new positive operation and appending that operation keeps the invariant, if the balance stays in range and the id is unused |
| `LedgerSpec.ApplyPreservesValid` | app/crud/wallet.py:116-145 | with a positive amount every apply, accepted or rejected, keeps the invariant: balances stay non-negative, within the column, and equal to their recorded net sums |
| `LedgerSpec.InsertPreservesValid` | app/crud/wallet.py:80-85 | inserting a zero-balance wallet under an unused id and email keeps the invariant |
| `LedgerSpec.CreatePreservesValid` | app/crud/wallet.py:79-89 | every create, accepted or rejected, keeps the invariant |
| `LedgerSpec.RepeatedDepositsAdd` | app/crud/wallet.py:135-144 | two identical deposits under fresh operation ids both succeed, add twice the amount and record two operations (no deduplication) |
| `LedgerSpec.RunPreservesValid` | app/crud/wallet.py:95-160 | any sequence of creates and positive-amount applies keeps the invariant |
| `LedgerSpec.BalancesFollowOperations` | app/crud/wallet.py:125-144 | in every history from the empty ledger, each balance is between 0 and the column maximum and equals its deposits minus its withdrawals |
| `WalletCrud.Ledger.GetById` | app/crud/wallet.py:13-36 | returns the stored wallet with that id when one exists, and nothing otherwise |
| `WalletCrud.Ledger.GetByEmail` | app/crud/wallet.py:39-62 | returns the stored wallet with that email when one exists, and nothing otherwise |
| `WalletCrud.Ledger.CreateWallet` | app/crud/wallet.py:65-92 | the in-place insert equals `LedgerSpec.CreateWallet` on the previous state and keeps the invariant; a Conflict changes no field |
| `WalletCrud.Ledger.Apply` | app/crud/wallet.py:95-160 | the in-place balance update and append equal `LedgerSpec.Apply` on the previous state and keep the invariant; an error changes no field |
| `WalletCrud.CreateScenario` | tests/test_wallets.py:152-165 | a wallet created on a new ledger has the requested email and balance 0, and lookups by its id and by its email both return it |
| `WalletCrud.DuplicateEmailScenario` | tests/test_wallets.py:178-189 | creating a second wallet with an email already in use is refused with Conflict, whatever id it would get |
| `WalletCrud.DepositScenario` | tests/test_wallets.py:47-72 | a positive deposit into a wallet at 0 succeeds, the record names that wallet and the kind Deposit, and the balance becomes the amount |
| `WalletCrud.WithdrawScenario` | tests/test_wallets.py:85-109 | from a wallet holding 10.00, a withdrawal of any positive amount up to 10.00 (the test uses 9 and 10) succeeds as a Withdraw record of that wallet and leaves 10.00 minus the amount, so 0 after withdrawing it all |
| `WalletCrud.InsufficientFundsScenario` | tests/test_wallets.py:134-149 | withdrawing 11.00 from a wallet holding 10.00 is refused with InsufficientFunds and changes nothing |

## Left out

- Concurrency and row locking: the source takes no lock, and two concurrent
  balance updates can lose one of them. Each call is one atomic step in the
  model, so interleavings are outside it.
- `get_wallet_by_id` and `get_wallet_by_email` both turn a
  `SQLAlchemyError` into `None` (`app/crud/wallet.py:34-36` and `60-62`).
  `update_wallet_balance` then reports the first as not found. Spontaneous storage failures (a lost connection, a timeout)
  are not modelled. The only storage errors modelled are the two the model
  can decide: numeric overflow and a duplicate operation id.
- The re-raise of other storage errors in `create_wallet_by_email`
  (`app/crud/wallet.py:90-92`) is not modelled, for the same reason.
- Decimal input with more than two fractional digits: PostgreSQL rounds it to
  the column's scale when storing. The model takes amounts already in minor
  units, and there is no floating point anywhere in it.
- The `operations.amount` column is not modelled, so an overflow of that
  column alone is not either. An accepted amount is at most the balance
  column's maximum anyway.
- The overflow rule applies to PostgreSQL only. The test suite's in-memory
  SQLite store does not enforce `Numeric` precision.
- HTTP routing and status codes (`app/api_v1/wallet/views.py`, `main.py`):
  404/409/422 appear only as typed errors.
- Pydantic validation: `EmailStr` format checks and UUID parsing are not
  modelled, and the `gt=0` amount rule is a precondition, not a parser.
- Engine, session and configuration plumbing, the connection probe in
  `app/crud/base.py`, and logging: these are I/O.
- UUID generation and `created_at` timestamps: they are parameters holding
  arbitrary values.
