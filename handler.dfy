/** The two command handlers of command-handler/src/main.rs: they look up or
    create the command's record in the ledger and derive the outcome events from
    it. Sending on the producer channel appends to the outbox of a `Sender`. */
module Handler {
  import opened Model
  import opened Uuids
  import Db

  /** The Avro values the handlers put in an event payload. */
  datatype Value = Fixed(bytes: seq<byte>) | Str(s: string) | Long(n: int) | Enum(index: int, symbol: string)

  /** A payload field: its name and its value. */
  type Field = (string, Value)

  /** One message for the producer: topic, key and payload fields, in order. */
  datatype ProducerData = ProducerData(topic: string, key: string, values: seq<Field>)

  const AccountCreationConfirmed: string := "account_creation_confirmed"
  const AccountCreationFailed: string := "account_creation_failed"
  const MoneyTransferConfirmed: string := "money_transfer_confirmed"
  const MoneyTransferFailed: string := "money_transfer_failed"
  const BalanceChanged: string := "balance_changed"

  function IdField(id: Uuid): Field
  {
    ("id", Fixed(id))
  }

  /** `acc_vec`: the payload of a confirmed account creation. A stored record
      without an iban or a token is an error. */
  function AccVec(cmd: ConfirmAccountCreation, cac: Cac): (r: Option<seq<Field>>)
    ensures r.Some? <==> cac.iban.Some? && cac.token.Some?
    ensures r.Some? ==>
      |r.value| == 4 &&
      r.value[0] == ("id", Fixed(cmd.id)) &&
      r.value[1] == ("iban", Str(cac.iban.value)) &&
      r.value[2] == ("token", Str(cac.token.value)) &&
      r.value[3] == ("a_type", Enum(cmd.aType.index, cmd.aType.symbol))
  {
    match (cac.iban, cac.token)
    case (Some(iban), Some(token)) =>
      Some([IdField(cmd.id), ("iban", Str(iban)), ("token", Str(token)), ("a_type", Enum(cmd.aType.index, cmd.aType.symbol))])
    case _ => None
  }

  /** `fail_vec`: the payload of a failed account creation or money transfer. */
  function FailVec(id: Uuid, reason: string): (r: seq<Field>)
    ensures |r| == 2 && r[0] == ("id", Fixed(id)) && r[1] == ("reason", Str(reason))
  {
    [IdField(id), ("reason", Str(reason))]
  }

  /** `mtc_vec`: the payload of a confirmed money transfer. */
  function MtcVec(id: Uuid): (r: seq<Field>)
    ensures |r| == 1 && r[0] == ("id", Fixed(id))
  {
    [IdField(id)]
  }

  /** The one event `handle_cac` sends for a stored record; None where the
      source would panic (a confirmed record without iban or token). */
  function CacEvent(cmd: ConfirmAccountCreation, cac: Cac): (r: Option<ProducerData>)
    ensures r.None? <==> cac.reason.None? && (cac.iban.None? || cac.token.None?)
    ensures r.Some? ==> r.value.key == Hyphenated(cmd.id)
    ensures r.Some? ==> (r.value.topic == AccountCreationConfirmed <==> cac.reason.None?)
    ensures r.Some? ==> (r.value.topic == AccountCreationFailed <==> cac.reason.Some?)
    ensures r.Some? && cac.reason.None? ==> Some(r.value.values) == AccVec(cmd, cac)
    ensures cac.reason.Some? ==> r.Some? && r.value.values == FailVec(cmd.id, cac.reason.value)
  {
    var key := Hyphenated(cmd.id);
    match cac.reason
    case None =>
      (match AccVec(cmd, cac)
       case Some(fields) => Some(ProducerData(AccountCreationConfirmed, key, fields))
       case None => None)
    case Some(v) => Some(ProducerData(AccountCreationFailed, key, FailVec(cmd.id, v)))
  }

  /** The event `send_bc` sends for an updated balance row: keyed by its iban,
      with the new amount, the signed change and the counterparty. */
  function BcEvent(isFrom: bool, cmd: ConfirmMoneyTransfer, balance: Balance): (r: ProducerData)
    ensures r.topic == BalanceChanged && r.key == balance.iban
    ensures |r.values| == 5
    ensures r.values[0] == ("iban", Str(balance.iban))
    ensures r.values[1] == ("new_balance", Long(balance.amount))
    ensures r.values[2] == ("changed_by", Long(if isFrom then -cmd.amount else cmd.amount))
    ensures r.values[3] == ("from_to", Str(if isFrom then cmd.to else cmd.from))
    ensures r.values[4] == ("description", Str(cmd.description))
  {
    var changedBy := if isFrom then -cmd.amount else cmd.amount;
    var fromTo := if isFrom then cmd.to else cmd.from;
    ProducerData(BalanceChanged, balance.iban,
      [("iban", Str(balance.iban)), ("new_balance", Long(balance.amount)), ("changed_by", Long(changedBy)),
       ("from_to", Str(fromTo)), ("description", Str(cmd.description))])
  }

  /** The outcome event of a money transfer, from its stored record. */
  function CmtOutcomeEvent(cmd: ConfirmMoneyTransfer, cmt: Cmt): (r: ProducerData)
    ensures r.key == Hyphenated(cmd.id)
    ensures r.topic == MoneyTransferConfirmed <==> cmt.reason.None?
    ensures r.topic == MoneyTransferFailed <==> cmt.reason.Some?
    ensures cmt.reason.None? ==> r.values == MtcVec(cmd.id)
    ensures cmt.reason.Some? ==> r.values == FailVec(cmd.id, cmt.reason.value)
  {
    var key := Hyphenated(cmd.id);
    match cmt.reason
    case None => ProducerData(MoneyTransferConfirmed, key, MtcVec(cmd.id))
    case Some(v) => ProducerData(MoneyTransferFailed, key, FailVec(cmd.id, v))
  }

  /** Every event `handle_cmt` sends, in order: the outcome, then a balance
      change for the source and one for the destination, each only if the ledger
      handed back that row. */
  function CmtEvents(cmd: ConfirmMoneyTransfer, cmt: Cmt, bFrom: Option<Balance>, bTo: Option<Balance>): (evs: seq<ProducerData>)
    ensures |evs| == 1 + (if bFrom.Some? then 1 else 0) + (if bTo.Some? then 1 else 0)
    ensures evs[0] == CmtOutcomeEvent(cmd, cmt)
    ensures forall i :: 1 <= i < |evs| ==> evs[i].topic == BalanceChanged
    ensures bFrom.Some? ==> evs[1] == BcEvent(true, cmd, bFrom.value)
    ensures bTo.Some? ==> evs[|evs| - 1] == BcEvent(false, cmd, bTo.value)
  {
    [CmtOutcomeEvent(cmd, cmt)]
      + (if bFrom.Some? then [BcEvent(true, cmd, bFrom.value)] else [])
      + (if bTo.Some? then [BcEvent(false, cmd, bTo.value)] else [])
  }

  /** The producer channel: everything sent, in order. */
  class Sender {
    var sent: seq<ProducerData>

    constructor ()
      ensures sent == []
    {
      sent := [];
    }

    method Send(p: ProducerData)
      modifies this
      ensures sent == old(sent) + [p]
    {
      sent := sent + [p];
    }
  }

  /** `handle_cac`: look up or create the record for the command's uuid and send
      exactly one event for it. The generated iban and token are inputs. */
  method HandleCac(cmd: ConfirmAccountCreation, newIban: string, newToken: string, db: Db.Ledger, sender: Sender)
    requires db.Valid()
    modifies db, sender
    ensures db.Valid() && cmd.id in db.cacs
    ensures CacEvent(cmd, db.cacs[cmd.id]).Some?
    ensures sender.sent == old(sender.sent) + [CacEvent(cmd, db.cacs[cmd.id]).value]
    ensures db.cmts == old(db.cmts)
    ensures cmd.id in old(db.cacs) ==>
      db.cacs == old(db.cacs) && db.balances == old(db.balances)
    ensures cmd.id !in old(db.cacs) ==>
      var cac := Db.NewCac(old(db.balances), cmd.id, cmd.aType.symbol, newIban, newToken);
      db.cacs == old(db.cacs)[cmd.id := cac] &&
      db.balances == if cac.reason.None? then old(db.balances)[newIban := Balance(newIban, newToken, 0, cmd.aType.symbol, LowerLimit)]
                     else old(db.balances)
  {
    var cac := db.GetCac(cmd.id, cmd.aType.symbol, newIban, newToken);
    var key := Hyphenated(cmd.id);
    var producerData;
    match cac.reason {
      case None =>
        producerData := ProducerData(AccountCreationConfirmed, key, AccVec(cmd, cac).value);
      case Some(v) =>
        producerData := ProducerData(AccountCreationFailed, key, FailVec(cmd.id, v));
    }
    sender.Send(producerData);
  }

  /** `send_bc`: send the balance_changed event of one updated row. */
  method SendBc(isFrom: bool, cmd: ConfirmMoneyTransfer, balance: Balance, sender: Sender)
    modifies sender
    ensures sender.sent == old(sender.sent) + [BcEvent(isFrom, cmd, balance)]
  {
    sender.Send(BcEvent(isFrom, cmd, balance));
  }

  /** The sending half of `handle_cmt`: the outcome event of the stored record,
      then a balance change per row the ledger handed back. */
  method SendCmtEvents(cmd: ConfirmMoneyTransfer, cmt: Cmt, bFrom: Option<Balance>, bTo: Option<Balance>, sender: Sender)
    modifies sender
    ensures sender.sent == old(sender.sent) + CmtEvents(cmd, cmt, bFrom, bTo)
  {
    var key := Hyphenated(cmd.id);
    var producerData;
    match cmt.reason {
      case None =>
        producerData := ProducerData(MoneyTransferConfirmed, key, MtcVec(cmd.id));
      case Some(v) =>
        producerData := ProducerData(MoneyTransferFailed, key, FailVec(cmd.id, v));
    }
    sender.Send(producerData);
    ghost var fromEvents := if bFrom.Some? then [BcEvent(true, cmd, bFrom.value)] else [];
    assert sender.sent == old(sender.sent) + [CmtOutcomeEvent(cmd, cmt)];
    if bFrom.Some? {
      SendBc(true, cmd, bFrom.value, sender);
    }
    assert sender.sent == old(sender.sent) + ([CmtOutcomeEvent(cmd, cmt)] + fromEvents);
    if bTo.Some? {
      SendBc(false, cmd, bTo.value, sender);
    }
    assert CmtEvents(cmd, cmt, bFrom, bTo) ==
      [CmtOutcomeEvent(cmd, cmt)] + fromEvents + (if bTo.Some? then [BcEvent(false, cmd, bTo.value)] else []);
  }

  /** `handle_cmt`: look up or create the record for the command's uuid, send
      the outcome and then a balance change per row the ledger handed back. */
  method HandleCmt(cmd: ConfirmMoneyTransfer, db: Db.Ledger, sender: Sender)
    requires db.Valid()
    modifies db, sender
    ensures db.Valid() && db.cacs == old(db.cacs)
    ensures cmd.id in old(db.cmts) ==>
      sender.sent == old(sender.sent) + [CmtOutcomeEvent(cmd, old(db.cmts)[cmd.id])] &&
      db.cmts == old(db.cmts) && db.balances == old(db.balances)
    ensures cmd.id !in old(db.cmts) ==>
      var r := Db.CmtOutcome(old(db.balances), db.rules, cmd);
      sender.sent == old(sender.sent) + CmtEvents(cmd, Cmt(cmd.id, r.reason), r.from, r.to) &&
      db.cmts == old(db.cmts)[cmd.id := Cmt(cmd.id, r.reason)] && db.balances == r.balances
  {
    var cmt, bFrom, bTo := db.GetCmt(cmd);
    SendCmtEvents(cmd, cmt, bFrom, bTo, sender);
  }

  // ---------------------------------------------------------------------------
  // What the events say about the ledger

  /** A confirmed account creation hands out the iban and the token of an
      account that exists in the balance table. */
  lemma ConfirmedAccountExists(balances: map<string, Balance>, cacs: map<Uuid, Cac>, cmts: map<Uuid, Cmt>,
                               cmd: ConfirmAccountCreation)
    requires Db.TablesValid(balances, cacs, cmts) && cmd.id in cacs && cacs[cmd.id].reason.None?
    ensures var e := CacEvent(cmd, cacs[cmd.id]);
      var ib := cacs[cmd.id].iban.value;
      e.Some? && e.value.topic == AccountCreationConfirmed &&
      ib in balances && e.value.values[1].1 == Str(ib) && e.value.values[2].1 == Str(balances[ib].token) &&
      e.value.values[3].1 == Enum(cmd.aType.index, cmd.aType.symbol)
  {
  }

  /** The rows a new transfer hands back: the source under its own iban, debited
      by the amount, and the destination under its own iban, credited by it. */
  lemma ReturnedRowsDelta(balances: map<string, Balance>, rules: IbanRules, cmd: ConfirmMoneyTransfer)
    requires Db.WellKeyed(balances)
    ensures var r := Db.CmtOutcome(balances, rules, cmd);
      (r.from.Some? ==> cmd.from in balances && r.from.value.iban == cmd.from &&
                        r.from.value == r.balances[cmd.from] &&
                        r.from.value.amount == balances[cmd.from].amount - cmd.amount) &&
      (r.to.Some? ==> cmd.to in balances && r.to.value.iban == cmd.to &&
                      r.to.value == r.balances[cmd.to] &&
                      r.to.value.amount == balances[cmd.to].amount + cmd.amount)
  {
    var r := Db.CmtOutcome(balances, rules, cmd);
    if r.from.Some? || r.to.Some? {
      assert r == Db.TransferOutcome(balances, rules, cmd);
    }
  }

  /** A balance_changed event reports the change of the account it is keyed by:
      new_balance is its amount in `after`, and new_balance minus changed_by is
      its amount in `before`. */
  predicate ReportsDelta(e: ProducerData, before: map<string, Balance>, after: map<string, Balance>)
  {
    e.key in before && e.key in after && |e.values| == 5 &&
    e.values[1].1 == Long(after[e.key].amount) && e.values[2].1.Long? &&
    e.values[1].1.n - e.values[2].1.n == before[e.key].amount
  }

  /** The balance_changed events for a debited source row and a credited
      destination row each report their account's change. */
  lemma EventsReportDelta(cmd: ConfirmMoneyTransfer, cmt: Cmt, bFrom: Option<Balance>, bTo: Option<Balance>,
                          before: map<string, Balance>, after: map<string, Balance>)
    requires bFrom.Some? ==> cmd.from in before && bFrom.value.iban == cmd.from && after.Keys == before.Keys &&
                             bFrom.value == after[cmd.from] && bFrom.value.amount == before[cmd.from].amount - cmd.amount
    requires bTo.Some? ==> cmd.to in before && bTo.value.iban == cmd.to && after.Keys == before.Keys &&
                           bTo.value == after[cmd.to] && bTo.value.amount == before[cmd.to].amount + cmd.amount
    ensures var evs := CmtEvents(cmd, cmt, bFrom, bTo);
      forall i :: 1 <= i < |evs| ==> ReportsDelta(evs[i], before, after)
  {
    var evs := CmtEvents(cmd, cmt, bFrom, bTo);
    if bFrom.Some? {
      assert ReportsDelta(evs[1], before, after);
    }
    if bTo.Some? {
      assert ReportsDelta(evs[|evs| - 1], before, after);
    }
  }

  /** Each balance_changed event of a new transfer is keyed by an account of the
      table and reports that account's change. */
  lemma BalanceChangedReportsDelta(balances: map<string, Balance>, rules: IbanRules, cmd: ConfirmMoneyTransfer)
    requires Db.WellKeyed(balances)
    ensures var r := Db.CmtOutcome(balances, rules, cmd);
      var evs := CmtEvents(cmd, Cmt(cmd.id, r.reason), r.from, r.to);
      forall i :: 1 <= i < |evs| ==> ReportsDelta(evs[i], balances, r.balances)
  {
    var r := Db.CmtOutcome(balances, rules, cmd);
    ReturnedRowsDelta(balances, rules, cmd);
    EventsReportDelta(cmd, Cmt(cmd.id, r.reason), r.from, r.to, balances, r.balances);
  }

  /** A transfer between two valid open accounts that exist, and that is not
      refused, emits exactly money_transfer_confirmed, then balance_changed for
      the source with -amount and the destination as counterparty, then
      balance_changed for the destination with +amount and the source as
      counterparty; the two rows together hold as much as before. */
  lemma FullTransferEvents(balances: map<string, Balance>, rules: IbanRules, cmd: ConfirmMoneyTransfer)
    requires Db.WellKeyed(balances)
    requires rules.validOpenIban(cmd.from) && rules.validOpenIban(cmd.to)
    requires cmd.from in balances && cmd.to in balances
    requires Db.CmtOutcome(balances, rules, cmd).reason.None?
    ensures var r := Db.CmtOutcome(balances, rules, cmd);
      var evs := CmtEvents(cmd, Cmt(cmd.id, r.reason), r.from, r.to);
      |evs| == 3 &&
      evs[0].topic == MoneyTransferConfirmed && evs[0].values == MtcVec(cmd.id) &&
      evs[1].key == cmd.from && evs[1].values[2].1 == Long(-cmd.amount) && evs[1].values[3].1 == Str(cmd.to) &&
      evs[2].key == cmd.to && evs[2].values[2].1 == Long(cmd.amount) && evs[2].values[3].1 == Str(cmd.from) &&
      r.balances[cmd.from].amount + r.balances[cmd.to].amount == balances[cmd.from].amount + balances[cmd.to].amount &&
      Db.Total(r.balances) == Db.Total(balances)
  {
    Db.FullTransferConserves(balances, rules, cmd);
  }
}
