/** Records, commands and constants shared by the ledger (command-handler/src/db)
    and the command handlers (command-handler/src/main.rs). */
module Model {

  datatype Option<+T> = None | Some(value: T)

  /** An unsigned byte, as carried by an Avro `fixed` value. */
  newtype byte = x: int | 0 <= x < 256

  /** A UUID: the 16 bytes of the Avro `fixed(16)` id field of a command. */
  type Uuid = s: seq<byte> | |s| == 16
    witness [0, 0, 0, 0, 0, 0, 0, 0, 0, 0, 0, 0, 0, 0, 0, 0]

  /** The lower bound on `amount` every new balance row is given (its `lmt`). */
  const LowerLimit: int := -50000

  // The reasons stored on a failed account creation or money transfer.
  const IbanExists: string := "generated iban already exists, try again"
  const FromInvalid: string := "from is invalid"
  const SameFromTo: string := "from and to can't be same for transfer"
  const InvalidToken: string := "invalid token"
  const InsufficientFunds: string := "insufficient funds"

  /** A row of the balance table. The serial id and the timestamps are not modelled. */
  datatype Balance = Balance(iban: string, token: string, amount: int, aType: string, lmt: int)

  /** A row of the account-creation (cac) table. */
  datatype Cac = Cac(uuid: Uuid, iban: Option<string>, token: Option<string>,
                     aType: Option<string>, reason: Option<string>)

  /** A row of the money-transfer (cmt) table. */
  datatype Cmt = Cmt(uuid: Uuid, reason: Option<string>)

  /** An Avro enum value: its index in the schema and its symbol. */
  datatype EnumValue = EnumValue(index: int, symbol: string)

  /** The ConfirmAccountCreation command: fields 0 (id) and 1 (a_type). */
  datatype ConfirmAccountCreation = ConfirmAccountCreation(id: Uuid, aType: EnumValue)

  /** The ConfirmMoneyTransfer command: fields 0 (id), 1 (token), 2 (amount),
      3 (from), 4 (to) and 5 (description). */
  datatype ConfirmMoneyTransfer = ConfirmMoneyTransfer(id: Uuid, token: string, amount: int,
                                                       from: string, to: string, description: string)

  /** The two iban checks of the db util module, which is not part of this model:
      `invalid_from` and `valid_open_iban`, taken as given predicates on strings. */
  datatype IbanRules = IbanRules(invalidFrom: string -> bool, validOpenIban: string -> bool)
}
