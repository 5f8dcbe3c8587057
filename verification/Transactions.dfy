// src/transactions/Transaction.{h,cpp} and Node::ExecuteTransaction: what one
// transaction does to a replica, and what a list of them amounts to.
module Transactions {

  datatype TransactionType = SUM | SUBSTRACT | MULTIPLY | READ | SET | UNKOWN

  datatype TransactionData = TransactionData(kind: TransactionType, value: int)

  // The three operations the core layer replicates.
  predicate IsWrite(t: TransactionData) {
    t.kind.SUM? || t.kind.SUBSTRACT? || t.kind.MULTIPLY?
  }

  // The value a replica holding `version` has after executing t.
  function Execute(version: int, t: TransactionData): int {
    match t.kind
    case SUM => version + t.value
    case SUBSTRACT => version - t.value
    case MULTIPLY => version * t.value
    case SET => t.value
    case READ => version
    case UNKOWN => version
  }

  // The value of a replica that started at 0 and executed ts in order.
  function Fold(ts: seq<TransactionData>): int {
    if ts == [] then 0 else Execute(Fold(ts[..|ts| - 1]), ts[|ts| - 1])
  }

  lemma FoldSnoc(ts: seq<TransactionData>, t: TransactionData)
    ensures Fold(ts + [t]) == Execute(Fold(ts), t)
  {
    assert (ts + [t])[..|ts|] == ts;
  }

  // What one more transaction does to a replica that has executed ts.
  lemma FoldLaws(ts: seq<TransactionData>, v: int)
    ensures Fold([]) == 0
    ensures Fold(ts + [TransactionData(SUM, v)]) == Fold(ts) + v
    ensures Fold(ts + [TransactionData(SUBSTRACT, v)]) == Fold(ts) - v
    ensures Fold(ts + [TransactionData(MULTIPLY, v)]) == Fold(ts) * v
    ensures Fold(ts + [TransactionData(SET, v)]) == v
    ensures Fold(ts + [TransactionData(READ, v)]) == Fold(ts + [TransactionData(UNKOWN, v)]) == Fold(ts)
  {
    FoldSnoc(ts, TransactionData(SUM, v));
    FoldSnoc(ts, TransactionData(SUBSTRACT, v));
    FoldSnoc(ts, TransactionData(MULTIPLY, v));
    FoldSnoc(ts, TransactionData(SET, v));
    FoldSnoc(ts, TransactionData(READ, v));
    FoldSnoc(ts, TransactionData(UNKOWN, v));
  }

  // A SUBSTRACT takes back a SUM of the same value, wherever in a log the two stand together.
  lemma {:induction false} SubstractUndoesSum(ts: seq<TransactionData>, v: int, more: seq<TransactionData>)
    ensures Fold(ts + [TransactionData(SUM, v), TransactionData(SUBSTRACT, v)] + more) == Fold(ts + more)
  {
    var pair := [TransactionData(SUM, v), TransactionData(SUBSTRACT, v)];
    if more == [] {
      FoldLaws(ts, v);
      FoldLaws(ts + [pair[0]], v);
      assert ts + pair + [] == ts + [pair[0]] + [pair[1]] && ts + [] == ts;
    } else {
      var t, first := more[|more| - 1], more[..|more| - 1];
      SubstractUndoesSum(ts, v, first);
      FoldSnoc(ts + pair + first, t);
      FoldSnoc(ts + first, t);
      assert more == first + [t];
      assert ts + pair + more == ts + pair + first + [t] && ts + more == ts + first + [t];
    }
  }

  predicate Commute(a: TransactionData, b: TransactionData, x: int) {
    Execute(Execute(x, a), b) == Execute(Execute(x, b), a)
  }

  // Two writes leave every replica with the same value in both orders exactly when both or
  // neither multiply, or one of them does nothing to the other.
  lemma CommuteExactlyWhen(a: TransactionData, b: TransactionData)
    requires IsWrite(a) && IsWrite(b)
    ensures (forall x :: Commute(a, b, x)) <==>
      (a.kind.MULTIPLY? <==> b.kind.MULTIPLY?) || (a.kind.MULTIPLY? && (a.value == 1 || b.value == 0)) ||
      (b.kind.MULTIPLY? && (b.value == 1 || a.value == 0))
  {
    if a.kind.MULTIPLY? && b.kind.MULTIPLY? {
      forall x ensures Commute(a, b, x) {
        assert x * a.value * b.value == x * b.value * a.value;
      }
    } else if a.kind.MULTIPLY? {
      forall x ensures Commute(a, b, x) <==> a.value == 1 || b.value == 0 {
        ScaleAndShift(b, a.value, x);
      }
      assert Commute(a, b, 0) <==> a.value == 1 || b.value == 0;
    } else if b.kind.MULTIPLY? {
      forall x ensures Commute(a, b, x) <==> b.value == 1 || a.value == 0 {
        ScaleAndShift(a, b.value, x);
      }
      assert Commute(a, b, 0) <==> b.value == 1 || a.value == 0;
    } else {
      forall x ensures Commute(a, b, x) {
      }
    }
  }

  lemma ScaleAndShift(t: TransactionData, k: int, x: int)
    requires t.kind.SUM? || t.kind.SUBSTRACT?
    ensures Execute(x, t) * k == Execute(x * k, t) <==> k == 1 || t.value == 0
  {
    var d := if t.kind.SUM? then t.value else -t.value;
    assert Execute(x, t) == x + d && Execute(x * k, t) == x * k + d;
    assert (x + d) * k == x * k + d * k;
    Cancel(d, k);
  }

  lemma Cancel(d: int, k: int)
    ensures d * k == d <==> k == 1 || d == 0
  {
    assert d * k - d == d * (k - 1);
    if k != 1 && d != 0 {
      assert d * (k - 1) != 0;
    }
  }

  // The order of writes is visible: the same three writes, two orders, two values.
  lemma WritesDoNotCommute()
    ensures exists a, b :: IsWrite(a) && IsWrite(b) && Fold([a, b]) != Fold([b, a])
  {
    var a, b := TransactionData(SUM, 20), TransactionData(MULTIPLY, 2);
    FoldSnoc([], a); FoldSnoc([a], b);
    FoldSnoc([], b); FoldSnoc([b], a);
    assert [] + [a] == [a] && [] + [b] == [b] && [a] + [b] == [a, b] && [b] + [a] == [b, a];
    assert Fold([a, b]) == 40 && Fold([b, a]) == 20;
  }

  class Transaction {
    var version: int

    constructor (value: int)
      ensures version == value
    {
      version := value;
    }

    method Add(value: int)
      modifies this
      ensures version == old(version) + value
    {
      version := version + value;
    }

    method Substract(value: int)
      modifies this
      ensures version == old(version) - value
    {
      version := version - value;
    }

    method Multiply(value: int)
      modifies this
      ensures version == old(version) * value
    {
      version := version * value;
    }

    method SetVersion(value: int)
      modifies this
      ensures version == value
    {
      version := value;
    }

    // Node::ExecuteTransaction; `shown` is what Show would print for a READ.
    method ExecuteTransaction(t: TransactionData) returns (shown: seq<int>)
      modifies this
      ensures version == Execute(old(version), t)
      ensures t.kind.SUM? ==> version == old(version) + t.value
      ensures t.kind.SUBSTRACT? ==> version == old(version) - t.value
      ensures t.kind.MULTIPLY? ==> version == old(version) * t.value
      ensures t.kind.SET? ==> version == t.value
      ensures t.kind.READ? || t.kind.UNKOWN? ==> version == old(version)
      ensures shown == if t.kind.READ? then [old(version)] else []
    {
      shown := [];
      match t.kind {
        case SUM => Add(t.value);
        case SUBSTRACT => Substract(t.value);
        case MULTIPLY => Multiply(t.value);
        case SET => SetVersion(t.value);
        case READ => shown := [version];
        case UNKOWN =>
      }
    }
  }
}
