/**
 * The atomic row operations behind both services. `products.stock` and
 * `users.balance` are INT columns changed by the same two UPDATE shapes, so
 * one table of quantities serves for both.
 */
module Rows {
  import opened Ints

  type Table = map<int64, int32>

  /** What the driver reports: the affected row count, or an error without effect. */
  datatype Outcome = Affected(rows: nat) | DbError

  /** SET q = q - amount WHERE id = id AND q >= amount; an INT overflow is an error. */
  function DeductRow(t: Table, id: int64, amount: int32): (Table, Outcome) {
    if id !in t || t[id] < amount then (t, Affected(0))
    else if !FitsInt32(t[id] - amount) then (t, DbError)
    else (t[id := t[id] - amount], Affected(1))
  }

  /** SET q = q + amount WHERE id = id: no guard at all. */
  function RestoreRow(t: Table, id: int64, amount: int32): (Table, Outcome) {
    if id !in t then (t, Affected(0))
    else if !FitsInt32(t[id] + amount) then (t, DbError)
    else (t[id := t[id] + amount], Affected(1))
  }

  /** One call made by anybody: a saga branch, a retry, a duplicate or an outside client. */
  datatype Op =
    | Deduct(id: int64, amount: int32, fault: bool)
    | Restore(id: int64, amount: int32, fault: bool)

  function Apply(t: Table, op: Op): (Table, Outcome) {
    if op.fault then (t, DbError)
    else match op
      case Deduct(id, amount, _) => DeductRow(t, id, amount)
      case Restore(id, amount, _) => RestoreRow(t, id, amount)
  }

  /** What a call reports, and that a call which affects no row changes nothing. */
  lemma ReportsMean(t: Table, op: Op)
    ensures var (t', out) := Apply(t, op);
            var fits := op.id in t && FitsInt32(if op.Deduct? then t[op.id] - op.amount else t[op.id] + op.amount);
            var allowed := op.id in t && (op.Deduct? ==> t[op.id] >= op.amount);
            && (out == DbError <==> op.fault || (allowed && !fits))
            && (out == Affected(0) <==> !op.fault && !allowed)
            && (out == Affected(1) <==> !op.fault && allowed && fits)
            && (out != Affected(1) ==> t' == t)
            && (out == Affected(1) ==>
                  && op.id in t' && t' - {op.id} == t - {op.id}
                  && t'[op.id] as int == if op.Deduct? then t[op.id] - op.amount else t[op.id] + op.amount)
  {
  }

  function Run(t: Table, ops: seq<Op>): Table {
    if ops == [] then t else Run(Apply(t, ops[0]).0, ops[1..])
  }

  function Outcomes(t: Table, ops: seq<Op>): (outs: seq<Outcome>)
    ensures |outs| == |ops|
  {
    if ops == [] then []
    else var (t', out) := Apply(t, ops[0]); [out] + Outcomes(t', ops[1..])
  }

  /** What the callers were told was taken from, or given back to, one row. */
  function Debited(ops: seq<Op>, outs: seq<Outcome>, id: int64): int
    requires |ops| == |outs|
  {
    if ops == [] then 0
    else
      (if ops[0].Deduct? && ops[0].id == id && outs[0] == Affected(1) then ops[0].amount else 0) +
      Debited(ops[1..], outs[1..], id)
  }

  function Credited(ops: seq<Op>, outs: seq<Outcome>, id: int64): int
    requires |ops| == |outs|
  {
    if ops == [] then 0
    else
      (if ops[0].Restore? && ops[0].id == id && outs[0] == Affected(1) then ops[0].amount else 0) +
      Credited(ops[1..], outs[1..], id)
  }

  /**
   * The ledger under an arbitrary coordinator: duplicates, empty compensations,
   * faults and overflows included, every row is its opening value less what was
   * reported as taken plus what was reported as returned.
   */
  lemma {:induction false} Ledger(t: Table, ops: seq<Op>, id: int64)
    ensures Run(t, ops).Keys == t.Keys
    ensures id in t ==>
      Run(t, ops)[id] == t[id] - Debited(ops, Outcomes(t, ops), id) + Credited(ops, Outcomes(t, ops), id)
  {
    if ops != [] {
      var (t', out) := Apply(t, ops[0]);
      Ledger(t', ops[1..], id);
      assert Outcomes(t, ops)[1..] == Outcomes(t', ops[1..]);
    }
  }

  ghost predicate NonNegative(t: Table) {
    forall id | id in t :: t[id] >= 0
  }

  ghost predicate ReturnsOnlyNonNegative(ops: seq<Op>) {
    forall i | 0 <= i < |ops| :: ops[i].Restore? && !ops[i].fault ==> ops[i].amount >= 0
  }

  /** No mix of calls drives a row below zero unless a restore carries a negative amount. */
  lemma {:induction false} NeverNegative(t: Table, ops: seq<Op>)
    requires NonNegative(t) && ReturnsOnlyNonNegative(ops)
    ensures NonNegative(Run(t, ops))
  {
    if ops != [] {
      assert NonNegative(Apply(t, ops[0]).0);
      assert ReturnsOnlyNonNegative(ops[1..]) by {
        forall i | 0 <= i < |ops[1..]|
          ensures ops[1..][i].Restore? && !ops[1..][i].fault ==> ops[1..][i].amount >= 0
        {
          assert ops[1..][i] == ops[i + 1];
        }
      }
      NeverNegative(Apply(t, ops[0]).0, ops[1..]);
    }
  }

  /** ... and that condition is exact, call by call. */
  lemma NeverNegativeIff(op: Op)
    ensures (forall t: Table | NonNegative(t) :: NonNegative(Apply(t, op).0))
            <==> (op.Restore? && !op.fault ==> op.amount >= 0)
  {
    if op.Restore? && !op.fault && op.amount < 0 {
      var t: Table := map[op.id := 0];
      assert NonNegative(t);
      assert Apply(t, op).0[op.id] < 0;
    } else {
      forall t: Table | NonNegative(t) ensures NonNegative(Apply(t, op).0) {
        NeverNegative(t, [op]);
        assert Run(t, [op]) == Apply(t, op).0;
      }
    }
  }

  /**
   * Compensation undoes its action exactly when the row held the amount and the
   * subtraction fitted the column, which is when the action took effect. The
   * other disjuncts are the calls that change nothing in the first place: no
   * such row, a zero amount, or a restore that overflows the column.
   */
  lemma CompensationUndoesIff(t: Table, id: int64, amount: int32)
    ensures Run(t, [Deduct(id, amount, false), Restore(id, amount, false)]) == t
            <==> id !in t || amount == 0 ||
                 (t[id] >= amount && FitsInt32(t[id] - amount)) ||
                 !FitsInt32(t[id] + amount)
  {
    var deduct, restore := Deduct(id, amount, false), Restore(id, amount, false);
    var t1 := Apply(t, deduct).0;
    var t2 := Apply(t1, restore).0;
    assert Run(t, [deduct, restore]) == t2 by {
      assert [deduct, restore][1..] == [restore];
      assert [restore][1..] == [];
      assert Run(t1, [restore]) == Run(t2, []);
    }
    if id in t && t[id] >= amount && FitsInt32(t[id] - amount) {
      assert t2 == t;
    } else if id in t && FitsInt32(t[id] + amount) && amount != 0 {
      assert t2[id] != t[id];
    }
  }

  /** Where it does not: the refused deduct of a sold-out row is compensated, and the row has gained a unit. */
  lemma RefusedDeductInflates()
    ensures var sold: Table := map[1 := 0];
            && DeductRow(sold, 1, 1) == (sold, Affected(0))
            && Run(sold, [Deduct(1, 1, false), Restore(1, 1, false)]) == map[1 := 1]
  {
    var sold: Table := map[1 := 0];
    var deduct, restore := Deduct(1, 1, false), Restore(1, 1, false);
    assert [deduct, restore][1..] == [restore] && [restore][1..] == [];
    assert Run(sold, [restore]) == Run(Apply(sold, restore).0, []);
    assert sold[1 := 1] == map[1 := 1];
  }
}
