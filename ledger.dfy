/** The balance, cac and cmt tables of command-handler/src/db/mod.rs and the
    operations on them. Each Diesel query becomes a read or an update of a map.
    The decisions of `create_cac`, `create_cmt` and `transfer` are stated once as
    pure functions; the methods of `Ledger` are proved to perform them. */
module Db {
  import opened Model

  /** What `create_cac` records for a new uuid, given the generated iban and token. */
  function NewCac(balances: map<string, Balance>, id: Uuid, tp: string, iban: string, token: string): (c: Cac)
    ensures c.uuid == id && c.iban == Some(iban) && c.aType == Some(tp)
    ensures c.reason.None? <==> iban !in balances
    ensures c.reason.Some? ==> c.reason == Some(IbanExists) && c.token == Some("")
    ensures c.reason.None? ==> c.token == Some(token)
  {
    var reason := if iban in balances then Some(IbanExists) else None;
    var token' := if reason.Some? then "" else token;
    Cac(id, Some(iban), Some(token'), Some(tp), reason)
  }

  /** Two balance tables hold the same accounts and differ at most in their amounts. */
  ghost predicate SameAccounts(before: map<string, Balance>, after: map<string, Balance>)
  {
    before.Keys == after.Keys &&
    forall ib :: ib in before ==> after[ib] == before[ib].(amount := after[ib].amount)
  }

  /** Every row is stored under its own iban. */
  ghost predicate WellKeyed(balances: map<string, Balance>)
  {
    forall ib :: ib in balances ==> balances[ib].iban == ib
  }

  /** The outcome of a transfer: the reason it was refused, if it was, the updated
      source and destination rows handed back, and the balance table afterwards. */
  datatype TransferResult = TransferResult(reason: Option<string>, from: Option<Balance>,
                                           to: Option<Balance>, balances: map<string, Balance>)

  /** What `transfer` does: check the token and the limit of a valid open source
      that exists and debit it, then credit a valid open destination that exists,
      unless the debit was refused. The two steps are independent: a missing or
      not open source is not debited and a missing or not open destination is not
      credited, and neither case is a refusal. */
  function TransferOutcome(balances: map<string, Balance>, rules: IbanRules, cmd: ConfirmMoneyTransfer): (r: TransferResult)
    ensures SameAccounts(balances, r.balances)
    ensures r.reason.Some? ==> r.from.None? && r.to.None? && r.balances == balances
    ensures r.reason.None? || r.reason == Some(InvalidToken) || r.reason == Some(InsufficientFunds)
    ensures r.reason == Some(InvalidToken) <==>
      rules.validOpenIban(cmd.from) && cmd.from in balances && balances[cmd.from].token != cmd.token
    ensures r.reason == Some(InsufficientFunds) <==>
      rules.validOpenIban(cmd.from) && cmd.from in balances && balances[cmd.from].token == cmd.token &&
      balances[cmd.from].amount - cmd.amount < balances[cmd.from].lmt
    ensures r.from.Some? <==> r.reason.None? && rules.validOpenIban(cmd.from) && cmd.from in balances
    ensures r.from.Some? ==>
      r.from.value == balances[cmd.from].(amount := balances[cmd.from].amount - cmd.amount) &&
      r.from.value.amount >= r.from.value.lmt
    ensures r.to.Some? <==> r.reason.None? && rules.validOpenIban(cmd.to) && cmd.to in balances
    ensures cmd.from != cmd.to ==>
      (r.from.Some? ==> r.balances[cmd.from] == r.from.value) &&
      (r.to.Some? ==> r.to.value == balances[cmd.to].(amount := balances[cmd.to].amount + cmd.amount) &&
                      r.balances[cmd.to] == r.to.value)
    ensures r.from.None? && cmd.from in balances ==> r.balances[cmd.from] == balances[cmd.from]
    ensures r.to.None? && cmd.to in balances ==> r.balances[cmd.to] == balances[cmd.to]
    ensures forall ib :: ib in balances && ib != cmd.from && ib != cmd.to ==> r.balances[ib] == balances[ib]
  {
    var am := cmd.amount;
    var (reason, bFrom) :=
      if rules.validOpenIban(cmd.from) && cmd.from in balances then
        var v := balances[cmd.from];
        if v.token != cmd.token then (Some(InvalidToken), None)
        else if v.amount - am < v.lmt then (Some(InsufficientFunds), None)
        else (None, Some(v.(amount := v.amount - am)))
      else (None, None);
    var afterDebit := if bFrom.Some? then balances[cmd.from := bFrom.value] else balances;
    var bTo :=
      if reason.None? && rules.validOpenIban(cmd.to) && cmd.to in afterDebit
      then Some(afterDebit[cmd.to].(amount := afterDebit[cmd.to].amount + am))
      else None;
    TransferResult(reason, bFrom, bTo, if bTo.Some? then afterDebit[cmd.to := bTo.value] else afterDebit)
  }

  /** What `create_cmt` does for a new uuid: refuse an invalid source or a source
      equal to the destination without touching any balance, else transfer. */
  function CmtOutcome(balances: map<string, Balance>, rules: IbanRules, cmd: ConfirmMoneyTransfer): (r: TransferResult)
    ensures r.reason == Some(FromInvalid) <==> rules.invalidFrom(cmd.from)
    ensures r.reason == Some(SameFromTo) <==> !rules.invalidFrom(cmd.from) && cmd.from == cmd.to
    ensures SameAccounts(balances, r.balances)
    ensures r.reason.Some? ==> r.from.None? && r.to.None? && r.balances == balances
    ensures !rules.invalidFrom(cmd.from) && cmd.from != cmd.to ==> r == TransferOutcome(balances, rules, cmd)
    ensures r.from.Some? ==> cmd.from != cmd.to && r.balances[cmd.from] == r.from.value
    ensures r.to.Some? ==> cmd.from != cmd.to && r.balances[cmd.to] == r.to.value
    ensures r.from.None? && cmd.from in balances ==> r.balances[cmd.from] == balances[cmd.from]
    ensures r.to.None? && cmd.to in balances ==> r.balances[cmd.to] == balances[cmd.to]
    ensures forall ib :: ib in balances && ib != cmd.from && ib != cmd.to ==> r.balances[ib] == balances[ib]
  {
    if rules.invalidFrom(cmd.from) then TransferResult(Some(FromInvalid), None, None, balances)
    else if cmd.from == cmd.to then TransferResult(Some(SameFromTo), None, None, balances)
    else TransferOutcome(balances, rules, cmd)
  }

  // ---------------------------------------------------------------------------
  // The money held by a balance table

  /** The sum of the amounts of the rows under `keys`. */
  ghost function TotalOver(balances: map<string, Balance>, keys: set<string>): int
    requires keys <= balances.Keys
    decreases keys
  {
    if keys == {} then 0
    else
      var k :| k in keys;
      balances[k].amount + TotalOver(balances, keys - {k})
  }

  ghost function Total(balances: map<string, Balance>): int
  {
    TotalOver(balances, balances.Keys)
  }

  lemma {:induction false} TotalOverPick(balances: map<string, Balance>, keys: set<string>, x: string)
    requires keys <= balances.Keys && x in keys
    ensures TotalOver(balances, keys) == balances[x].amount + TotalOver(balances, keys - {x})
    decreases keys
  {
    var k :| k in keys && TotalOver(balances, keys) == balances[k].amount + TotalOver(balances, keys - {k});
    if k != x {
      TotalOverPick(balances, keys - {k}, x);
      TotalOverPick(balances, keys - {x}, k);
      assert keys - {k} - {x} == keys - {x} - {k};
    }
  }

  lemma {:induction false} TotalOverFrame(m1: map<string, Balance>, m2: map<string, Balance>, keys: set<string>)
    requires keys <= m1.Keys && keys <= m2.Keys
    requires forall k :: k in keys ==> m1[k].amount == m2[k].amount
    ensures TotalOver(m1, keys) == TotalOver(m2, keys)
    decreases keys
  {
    if keys != {} {
      var k :| k in keys && TotalOver(m1, keys) == m1[k].amount + TotalOver(m1, keys - {k});
      TotalOverPick(m2, keys, k);
      TotalOverFrame(m1, m2, keys - {k});
    }
  }

  /** Replacing one existing row changes the total by the change of its amount. */
  lemma TotalUpdate(balances: map<string, Balance>, ib: string, b: Balance)
    requires ib in balances
    ensures Total(balances[ib := b]) == Total(balances) - balances[ib].amount + b.amount
  {
    var after := balances[ib := b];
    assert after.Keys == balances.Keys;
    TotalOverPick(balances, balances.Keys, ib);
    TotalOverPick(after, after.Keys, ib);
    TotalOverFrame(balances, after, balances.Keys - {ib});
  }

  /** The money a transfer moves: the debit takes `amount` out of the table and
      the credit puts it in, each independently of the other. A debit whose credit
      does not happen destroys money, a credit without a debit creates it. */
  lemma TransferTotal(balances: map<string, Balance>, rules: IbanRules, cmd: ConfirmMoneyTransfer)
    ensures var r := CmtOutcome(balances, rules, cmd);
      Total(r.balances) == Total(balances)
        - (if r.from.Some? then cmd.amount else 0)
        + (if r.to.Some? then cmd.amount else 0)
  {
    var r := CmtOutcome(balances, rules, cmd);
    if r.reason.None? {
      var afterDebit := if r.from.Some? then balances[cmd.from := r.from.value] else balances;
      if r.from.Some? {
        TotalUpdate(balances, cmd.from, r.from.value);
      }
      if r.to.Some? {
        assert r.balances == afterDebit[cmd.to := r.to.value];
        TotalUpdate(afterDebit, cmd.to, r.to.value);
      } else {
        assert r.balances == afterDebit;
      }
    }
  }

  /** A transfer between two valid open accounts that both exist and that is
      not refused moves money without creating or destroying any. */
  lemma FullTransferConserves(balances: map<string, Balance>, rules: IbanRules, cmd: ConfirmMoneyTransfer)
    requires rules.validOpenIban(cmd.from) && rules.validOpenIban(cmd.to)
    requires cmd.from in balances && cmd.to in balances
    requires CmtOutcome(balances, rules, cmd).reason.None?
    ensures var r := CmtOutcome(balances, rules, cmd);
      r.from.Some? && r.to.Some? && Total(r.balances) == Total(balances)
  {
    TransferTotal(balances, rules, cmd);
  }

  /** A transfer that is not refused, from a valid open account that exists to
      an account that is not a valid open one or does not exist, debits the source
      and credits nobody: the table loses `amount`. */
  lemma DebitWithoutCredit(balances: map<string, Balance>, rules: IbanRules, cmd: ConfirmMoneyTransfer)
    requires rules.validOpenIban(cmd.from) && cmd.from in balances
    requires !rules.validOpenIban(cmd.to) || cmd.to !in balances
    requires CmtOutcome(balances, rules, cmd).reason.None?
    ensures var r := CmtOutcome(balances, rules, cmd);
      r.from.Some? && r.to.None? && Total(r.balances) == Total(balances) - cmd.amount
  {
    TransferTotal(balances, rules, cmd);
  }

  /** Every row at or above its limit. */
  ghost predicate WithinLimits(balances: map<string, Balance>)
  {
    forall ib :: ib in balances ==> balances[ib].amount >= balances[ib].lmt
  }

  /** Only the source is checked against its limit: with a non-negative amount
      every row stays at or above its limit. */
  lemma TransferKeepsLimits(balances: map<string, Balance>, rules: IbanRules, cmd: ConfirmMoneyTransfer)
    requires WithinLimits(balances) && cmd.amount >= 0
    ensures WithinLimits(CmtOutcome(balances, rules, cmd).balances)
  {
  }

  /** With a negative amount, a destination is credited below its limit: no check
      guards the credit. */
  lemma NegativeAmountBreaksLimit()
    ensures var a := Balance("A", "t", 0, "x", LowerLimit);
      var b := Balance("B", "u", 0, "x", LowerLimit);
      var rules := IbanRules(_ => false, _ => true);
      var cmd := ConfirmMoneyTransfer([0, 0, 0, 0, 0, 0, 0, 0, 0, 0, 0, 0, 0, 0, 0, 0], "t", -60000, "A", "B", "");
      var r := CmtOutcome(map["A" := a, "B" := b], rules, cmd);
      WithinLimits(map["A" := a, "B" := b]) && r.reason.None? && r.balances["B"].amount < r.balances["B"].lmt
  {
  }

  // ---------------------------------------------------------------------------
  // The tables

  /** A stored account-creation record: it always holds an iban, a token and a
      type; a successful one names an existing balance with that token and type,
      a failed one has the empty token and the "iban exists" reason. */
  ghost predicate CacStored(id: Uuid, c: Cac, balances: map<string, Balance>)
  {
    c.uuid == id && c.iban.Some? && c.token.Some? && c.aType.Some? &&
    (c.reason.None? ==>
      c.iban.value in balances && balances[c.iban.value].token == c.token.value &&
      balances[c.iban.value].aType == c.aType.value) &&
    (c.reason.Some? ==> c.reason == Some(IbanExists) && c.token == Some(""))
  }

  /** The invariant of the three tables: rows are stored under their own key,
      every balance keeps the lower limit it was created with, and every cac
      record is as `create_cac` stores it. */
  ghost predicate TablesValid(balances: map<string, Balance>, cacs: map<Uuid, Cac>, cmts: map<Uuid, Cmt>)
  {
    WellKeyed(balances) &&
    (forall ib :: ib in balances ==> balances[ib].lmt == LowerLimit) &&
    (forall id :: id in cacs ==> CacStored(id, cacs[id], balances)) &&
    (forall id :: id in cmts ==> cmts[id].uuid == id)
  }

  /** Changing amounts only keeps the tables valid. */
  lemma AmountsOnlyKeepValid(before: map<string, Balance>, after: map<string, Balance>,
                             cacs: map<Uuid, Cac>, cmts: map<Uuid, Cmt>)
    requires TablesValid(before, cacs, cmts) && SameAccounts(before, after)
    ensures TablesValid(after, cacs, cmts)
  {
  }

  /** The balance, cac and cmt tables, with the `db/util` iban checks. */
  class Ledger {
    var balances: map<string, Balance>
    var cacs: map<Uuid, Cac>
    var cmts: map<Uuid, Cmt>
    const rules: IbanRules

    ghost predicate Valid()
      reads this
    {
      TablesValid(balances, cacs, cmts)
    }

    constructor (rules: IbanRules)
      ensures Valid() && this.rules == rules
      ensures balances == map[] && cacs == map[] && cmts == map[]
    {
      this.rules := rules;
      balances, cacs, cmts := map[], map[], map[];
    }

    /** `get_balance_by_iban`. */
    function BalanceByIban(ib: string): (r: Option<Balance>)
      reads this
      requires WellKeyed(balances)
      ensures r.Some? <==> ib in balances
      ensures r.Some? ==> r.value == balances[ib] && r.value.iban == ib
    {
      if ib in balances then Some(balances[ib]) else None
    }

    /** `create_balance`: a new row with amount 0 and the lower limit. */
    method CreateBalance(iban: string, token: string, tp: string) returns (b: Balance)
      requires Valid() && iban !in balances
      modifies this`balances
      ensures Valid()
      ensures b.iban == iban && b.token == token && b.aType == tp && b.amount == 0 && b.lmt == LowerLimit
      ensures balances == old(balances)[iban := b]
    {
      b := Balance(iban, token, 0, tp, LowerLimit);
      balances := balances[iban := b];
    }

    /** `create_cac`, with the iban and the token the generators would produce. */
    method CreateCac(id: Uuid, tp: string, iban: string, token: string) returns (cac: Cac)
      requires Valid() && id !in cacs
      modifies this`balances, this`cacs
      ensures Valid()
      ensures cac == NewCac(old(balances), id, tp, iban, token)
      ensures cacs == old(cacs)[id := cac]
      ensures balances == if cac.reason.None? then old(balances)[iban := Balance(iban, token, 0, tp, LowerLimit)]
                          else old(balances)
    {
      var reason: Option<string> := if BalanceByIban(iban).Some? then Some(IbanExists) else None;
      var tok := if reason.Some? then "" else token;
      if reason == None {
        var _ := CreateBalance(iban, tok, tp);
      }
      cac := Cac(id, Some(iban), Some(tok), Some(tp), reason);
      cacs := cacs[id := cac];
    }

    /** `get_cac`: the stored record of a known uuid, else a new one. */
    method GetCac(id: Uuid, tp: string, iban: string, token: string) returns (cac: Cac)
      requires Valid()
      modifies this`balances, this`cacs
      ensures Valid() && id in cacs && cac == cacs[id]
      ensures id in old(cacs) ==> cac == old(cacs)[id] && cacs == old(cacs) && balances == old(balances)
      ensures id !in old(cacs) ==>
        cac == NewCac(old(balances), id, tp, iban, token) &&
        cacs == old(cacs)[id := cac] &&
        balances == if cac.reason.None? then old(balances)[iban := Balance(iban, token, 0, tp, LowerLimit)]
                    else old(balances)
    {
      if id in cacs {
        cac := cacs[id];
      } else {
        cac := CreateCac(id, tp, iban, token);
      }
    }

    /** `transfer`: debit a valid open source that exists, then credit a valid
        open destination that exists unless the debit was refused. */
    method Transfer(cmd: ConfirmMoneyTransfer) returns (reason: Option<string>, bFrom: Option<Balance>, bTo: Option<Balance>)
      requires Valid()
      modifies this`balances
      ensures Valid()
      ensures TransferResult(reason, bFrom, bTo, balances) == TransferOutcome(old(balances), rules, cmd)
    {
      var am := cmd.amount;
      reason, bFrom := None, None;
      if rules.validOpenIban(cmd.from) {
        var found := BalanceByIban(cmd.from);
        if found.Some? {
          var v := found.value;
          if v.token != cmd.token {
            reason := Some(InvalidToken);
          } else if v.amount - am < v.lmt {
            reason := Some(InsufficientFunds);
          } else {
            var updated := v.(amount := v.amount - am);
            balances := balances[cmd.from := updated];
            bFrom := Some(updated);
          }
        }
      }
      ghost var expected := TransferOutcome(old(balances), rules, cmd);
      assert reason == expected.reason && bFrom == expected.from;
      assert balances == if bFrom.Some? then old(balances)[cmd.from := bFrom.value] else old(balances);
      assert WellKeyed(balances);
      bTo := None;
      if reason == None && rules.validOpenIban(cmd.to) {
        var found := BalanceByIban(cmd.to);
        if found.Some? {
          var v := found.value;
          var updated := v.(amount := v.amount + am);
          balances := balances[cmd.to := updated];
          bTo := Some(updated);
        }
      }
      assert bTo == expected.to && balances == expected.balances;
      AmountsOnlyKeepValid(old(balances), balances, cacs, cmts);
    }

    /** `create_cmt`: validate the source, transfer, and record the outcome. */
    method CreateCmt(cmd: ConfirmMoneyTransfer) returns (cmt: Cmt, bFrom: Option<Balance>, bTo: Option<Balance>)
      requires Valid() && cmd.id !in cmts
      modifies this`balances, this`cmts
      ensures Valid()
      ensures var r := CmtOutcome(old(balances), rules, cmd);
        cmt == Cmt(cmd.id, r.reason) && bFrom == r.from && bTo == r.to && balances == r.balances
      ensures cmts == old(cmts)[cmd.id := cmt]
    {
      var reason: Option<string>;
      if rules.invalidFrom(cmd.from) {
        reason, bFrom, bTo := Some(FromInvalid), None, None;
      } else if cmd.from == cmd.to {
        reason, bFrom, bTo := Some(SameFromTo), None, None;
      } else {
        reason, bFrom, bTo := Transfer(cmd);
      }
      cmt := Cmt(cmd.id, reason);
      cmts := cmts[cmd.id := cmt];
    }

    /** `get_cmt`: a known uuid returns its stored record and no balances and
        changes nothing, so a transfer is never applied twice. */
    method GetCmt(cmd: ConfirmMoneyTransfer) returns (cmt: Cmt, bFrom: Option<Balance>, bTo: Option<Balance>)
      requires Valid()
      modifies this`balances, this`cmts
      ensures Valid() && cmd.id in cmts && cmt == cmts[cmd.id]
      ensures cmd.id in old(cmts) ==>
        cmt == old(cmts)[cmd.id] && bFrom.None? && bTo.None? && cmts == old(cmts) && balances == old(balances)
      ensures cmd.id !in old(cmts) ==>
        var r := CmtOutcome(old(balances), rules, cmd);
        cmt == Cmt(cmd.id, r.reason) && bFrom == r.from && bTo == r.to && balances == r.balances &&
        cmts == old(cmts)[cmd.id := cmt]
    {
      if cmd.id in cmts {
        cmt, bFrom, bTo := cmts[cmd.id], None, None;
      } else {
        cmt, bFrom, bTo := CreateCmt(cmd);
      }
    }
  }
}
