# Command handler of open-bank-mark: a Dafny model

This project models the command handler of the open-bank-mark bank simulation. The handler is written in Rust.

It consumes two kinds of commands:
- ConfirmAccountCreation (cac);
- ConfirmMoneyTransfer (cmt).

It keeps three Postgres tables:
- `balance`, keyed by iban;
- `cac`, keyed by the command uuid;
- `cmt`, keyed by the command uuid.

It then sends outcome events to Kafka.

- `model.dfy` (module `Model`): the table rows (`Balance`, `Cac`, `Cmt`), the typed commands, and the reason strings. It also defines the lower limit -50000 and the two iban checks of the util module, which are given as predicates (`IbanRules`).
- `ledger.dfy` (module `Db`) models `command-handler/src/db/mod.rs`:
  - The class `Ledger` holds the three tables as maps.
  - Its methods perform `get_balance_by_iban`, `create_balance`, `get_cac`, `create_cac`, `get_cmt`, `create_cmt` and `transfer` as map reads and updates.
  - The decisions those operations take are stated once as pure functions: `NewCac`, `TransferOutcome` and `CmtOutcome`. The methods are proved to carry them out.
  - `Total` is the sum of all amounts. Lemmas state how much money a transfer moves.
- `uuids.dfy` (module `Uuids`): the event key. This is the uuid in its hyphenated lower-case form. It is proved injective.
- `handler.dfy` (module `Handler`) models `command-handler/src/main.rs`:
  - `acc_vec`, `fail_vec` and `mtc_vec` build payload field lists, and the events of `send_bc`, `handle_cac` and `handle_cmt` are derived as functions.
  - The channel to the producer thread is a `Sender` whose `sent` sequence grows by one per send.
  - The methods `HandleCac`, `HandleCmt`, `SendCmtEvents` and `SendBc` send in the same order as the source.

Behaviour of the code that the model keeps:
- `lmt` is a lower bound on `amount`. It is set to -50000 when a balance is created. It is checked only when the source of a transfer is debited, and never changes.
- A transfer is not atomic. The debit and the credit are independent steps. A source that is not a valid open iban, or has no row, is not debited, and that is not a refusal. The credit may then still happen. A debited source whose destination is not a valid open iban, or has no row, loses the amount. The lemmas `Db.TransferTotal` and `Db.DebitWithoutCredit` state this.
- A uuid that already has a record is answered from that record:
  - A replayed account creation sends the stored outcome again and changes no table.
  - A replayed money transfer sends only the stored outcome event, with no balance_changed events, and changes no table.

## Model

| member | source | states |
|---|---|---|
| Db.NewCac | command-handler/src/db/mod.rs:86-114 | a new cac record carries the uuid, the generated iban and the type. Its reason is "generated iban already exists, try again" exactly when the iban already has a balance, and then its token is empty. Otherwise there is no reason and the token is the generated one |
| Db.TransferOutcome | command-handler/src/db/mod.rs:153-217 | only amounts change. A refusal is either "invalid token" (the token of a valid open, existing source differs from the command's) or "insufficient funds" (`amount - am < lmt`). Each comes with no rows and an unchanged table. The source is debited by exactly `am`, and stays at or above its lmt, exactly when nothing is refused and it is a valid open iban with a row. The destination is credited by exactly `am` exactly when nothing is refused and it is a valid open iban with a row. A source that is not debited and a destination that is not credited keep their rows, and every other row is unchanged |
| Db.CmtOutcome | command-handler/src/db/mod.rs:116-151 | "from is invalid" exactly when `invalid_from` holds. Otherwise "from and to can't be same for transfer" exactly when source equals destination. Either refusal returns no rows and an unchanged table. Otherwise the result is the transfer's. Rows handed back are the new rows of the table. Only amounts change, and only for a source that is debited and a destination that is credited |
| Db.AmountsOnlyKeepValid | command-handler/src/db/mod.rs:176-200 | updating amounts alone keeps the table invariant: rows under their own iban, lmt at -50000, and every successful cac naming an existing balance with its token and type |
| Db.TransferTotal | command-handler/src/db/mod.rs:173-209 | the total money of the balance table changes by `-am` when the source is debited and by `+am` when the destination is credited, independently |
| Db.FullTransferConserves | command-handler/src/db/mod.rs:164-209 | a transfer that is not refused, between two valid open ibans that both have rows, debits and credits, and leaves the total unchanged |
| Db.DebitWithoutCredit | command-handler/src/db/mod.rs:194-211 | a transfer that is not refused, from a valid open existing source to a destination that is not a valid open iban or has no row, debits without crediting: the total drops by `am` |
| Db.TransferKeepsLimits | command-handler/src/db/mod.rs:173-200 | with a non-negative amount, every balance at or above its lmt stays so after a transfer |
| Db.NegativeAmountBreaksLimit | command-handler/src/db/mod.rs:194-200 | the credit is not checked against the limit: with amount -60000 a destination at 0 ends at -60000, below its lmt -50000 |
| Db.Ledger.BalanceByIban | command-handler/src/db/mod.rs:49-56 | a row is found exactly when the iban has one, and it is that row, stored under its own iban |
| Db.Ledger.CreateBalance | command-handler/src/db/mod.rs:27-47 | inserts exactly one row: the given iban, token and type, amount 0 and lmt -50000 |
| Db.Ledger.CreateCac | command-handler/src/db/mod.rs:86-114 | inserts the `NewCac` record. It inserts a balance (amount 0, lmt -50000, the generated iban, token and type) only when that record has no reason |
| Db.Ledger.GetCac | command-handler/src/db/mod.rs:58-68 | a known uuid returns its stored record and changes no table. An unknown uuid behaves as `CreateCac`. Afterwards the uuid is recorded and the invariant holds |
| Db.Ledger.Transfer | command-handler/src/db/mod.rs:153-217 | returns the reason and rows of `TransferOutcome`, and leaves the balance table as it says |
| Db.Ledger.CreateCmt | command-handler/src/db/mod.rs:116-151 | inserts exactly one cmt row carrying the `CmtOutcome` reason, and applies that outcome's balance table |
| Db.Ledger.GetCmt | command-handler/src/db/mod.rs:70-84 | a known uuid returns its stored record with no balances and changes no table, so a transfer is never applied twice. An unknown uuid behaves as `CreateCmt` |
| Uuids.Hyphenated | command-handler/src/main.rs:56 | the key is 36 characters with hyphens at positions 8, 13, 18 and 23 |
| Uuids.HyphenatedInjective | command-handler/src/main.rs:121 | distinct uuids give distinct keys |
| Handler.AccVec | command-handler/src/main.rs:72-90 | the confirmed payload is `[id, iban, token, a_type]`. id and a_type come from the command, iban and token from the stored record. A missing iban or token gives no payload (the error) |
| Handler.FailVec | command-handler/src/main.rs:92-98 | a failure payload is exactly `[id, reason]` with the stored reason |
| Handler.MtcVec | command-handler/src/main.rs:147-153 | the confirmed-transfer payload is only the id |
| Handler.CacEvent | command-handler/src/main.rs:55-68 | one event keyed by the hyphenated uuid. The topic is account_creation_confirmed exactly when the record has no reason, with the `acc_vec` payload, else account_creation_failed with the `fail_vec` payload. There is no event only where the confirmed payload cannot be built |
| Handler.BcEvent | command-handler/src/main.rs:161-186 | balance_changed, keyed by the row's iban. new_balance is the row's amount. changed_by is -amount on the source side and +amount on the destination side. from_to names the counterparty (field 4 for the source, field 3 for the destination). The description is copied from field 5 |
| Handler.CmtOutcomeEvent | command-handler/src/main.rs:121-135 | keyed by the hyphenated uuid. The topic is money_transfer_confirmed exactly when the record has no reason, with the `mtc_vec` payload, else money_transfer_failed with the `fail_vec` payload |
| Handler.CmtEvents | command-handler/src/main.rs:122-144 | first the outcome event. Then one balance_changed for the source if a source row was returned, then one for the destination if a destination row was returned. Nothing else |
| Handler.Sender.Send | command-handler/src/main.rs:69 | sending appends exactly one message to the outbox |
| Handler.HandleCac | command-handler/src/main.rs:42-70 | sends exactly one event, the `CacEvent` of the stored record, which always exists for a ledger satisfying its invariant. A replayed uuid changes no table. A new uuid records `NewCac` and opens its balance as `create_cac` does |
| Handler.SendBc | command-handler/src/main.rs:155-188 | sends exactly the `BcEvent` of the row |
| Handler.SendCmtEvents | command-handler/src/main.rs:122-144 | sends the outcome event of the stored record, then balance_changed for each row handed back: exactly `CmtEvents`, in order |
| Handler.HandleCmt | command-handler/src/main.rs:111-145 | a replayed uuid sends exactly the stored outcome event and changes no table. A new uuid applies `CmtOutcome`, records its reason and sends `CmtEvents` in order |
| Handler.ConfirmedAccountExists | command-handler/src/main.rs:57-62 | in a ledger satisfying its invariant, a confirmed account-creation event hands out the iban and the token of a balance row that exists |
| Handler.BalanceChangedReportsDelta | command-handler/src/main.rs:137-185 | every balance_changed event of a new transfer is keyed by an existing account. Its new_balance is that account's amount afterwards, and new_balance minus changed_by is its amount before |
| Handler.FullTransferEvents | command-handler/src/main.rs:122-144 | a confirmed transfer between two valid open existing accounts sends exactly three events: confirmed, source change (-amount, counterparty the destination), destination change (+amount, counterparty the source). Money is conserved |

## Left out

- The Kafka consumer and producer are left out: configuration, stream consumption, offset storage, Avro and schema-registry encoding, and network sends. They are I/O. `sender.send` is modelled as appending to `Sender.sent`.
- The process plumbing is left out: `main`, `send_loop` (the producer thread, the mpsc channel and the subject-strategy cache), `connect` and the `CacContext`/`CmtContext` wrappers. It is concurrency and connection pooling, and the model treats commands one at a time.
- The `db/util` module is not part of this model. `new_iban` and `new_token` are replaced by inputs: `newIban` and `newToken` of `HandleCac`, and `iban` and `token` of `GetCac` and `CreateCac`. `invalid_from` and `valid_open_iban` are the given predicates in `IbanRules`.
- Avro decoding of the commands is left out. The commands are typed records, so the panics on a wrongly typed field cannot occur.
- Database errors are left out: the panics when a query or an insert fails.
- The `balance_id` serial and the `created_at` and `updated_at` timestamps are left out. Nothing in the core reads them.
- The balance table is a map keyed by iban. `get_balance_by_iban` takes the first row with the iban. `create_cac` inserts only when no row has the iban. So with one command at a time, ibans stay unique. `Db.Ledger.CreateBalance` requires an iban with no row, which is what its one caller checks.
- Db.TransferOutcome: amounts are unbounded integers. The model does not capture the i64 overflow of `amount - am`, `amount + am` or `-amount` in the source.
- The uuid key is computed by the uuid crate. The model writes out its hyphenated lower-case hexadecimal form.
- Logging is left out: the `warn!` when a valid open iban has no row, and the `info!` when no balance_changed is sent. It has no effect on the tables or the events.
