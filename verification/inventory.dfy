/** The `Inventory` aggregate: inventory.aggregate.ts. */
module Inventory {
  import opened Wrappers

  datatype StockError =
    | InsufficientStock(available: int, requested: real)
    | InvalidRelease(reserved: int, requested: real)
    | InvalidOperation
    | RowNotFound

  datatype Row = Row(stock: int, reserved: int)

  predicate ValidRow(r: Row) {
    0 <= r.reserved <= r.stock
  }

  /** The closures that callers hand to the locked `mutate`, with the quantity as the number it is. */
  datatype Mutation =
    | Reserve(qty: real)
    | Release(qty: real)
    | ConsumeReserved(qty: real)
    | Adjust(delta: real)
    | Restock(qty: real)

  /** `Number.isInteger`. */
  predicate IsInteger(x: real) {
    x.Floor as real == x
  }

  predicate PositiveInteger(x: real) {
    IsInteger(x) && x > 0.0
  }

  /** What a mutation leaves in a row, or why it is refused. */
  function Mutated(r: Row, m: Mutation): (res: Result<Row, StockError>)
    ensures ValidRow(r) && res.Success? ==> ValidRow(res.value)
  {
    match m
    case Reserve(q) =>
      if !PositiveInteger(q) then Failure(InvalidOperation)
      else if q > (r.stock - r.reserved) as real then Failure(InsufficientStock(r.stock - r.reserved, q))
      else Success(Row(r.stock, r.reserved + q.Floor))
    case Release(q) =>
      if !PositiveInteger(q) then Failure(InvalidOperation)
      else if q > r.reserved as real then Failure(InvalidRelease(r.reserved, q))
      else Success(Row(r.stock, r.reserved - q.Floor))
    case ConsumeReserved(q) =>
      if !PositiveInteger(q) then Failure(InvalidOperation)
      else if q > r.reserved as real then Failure(InvalidRelease(r.reserved, q))
      else Success(Row(r.stock - q.Floor, r.reserved - q.Floor))
    case Adjust(d) =>
      var next := r.stock + d.Floor;
      if !IsInteger(d) then Failure(InvalidOperation)
      else if next < 0 then Failure(InsufficientStock(r.stock, -d))
      else if next < r.reserved then Failure(InsufficientStock(next, r.reserved as real))
      else Success(Row(next, r.reserved))
    case Restock(q) =>
      if !PositiveInteger(q) then Failure(InvalidOperation)
      else Success(Row(r.stock + q.Floor, r.reserved))
  }

  /** A mutation either leaves a row as it was or moves what its name says, and nothing else. */
  lemma MutationAccounts(r: Row, m: Mutation)
    requires ValidRow(r) && Mutated(r, m).Success?
    ensures var r' := Mutated(r, m).value;
            var available, available' := r.stock - r.reserved, r'.stock - r'.reserved;
            match m
            case Reserve(q) => r'.stock == r.stock && (available - available') as real == q
            case Release(q) => r'.stock == r.stock && (available' - available) as real == q
            case ConsumeReserved(q) => available' == available && (r.stock - r'.stock) as real == q
            case Adjust(d) => r'.reserved == r.reserved && (available' - available) as real == d
            case Restock(q) => r'.reserved == r.reserved && (available' - available) as real == q
  {
  }

  /** The quantity a mutation may have: a positive whole number, or any whole number for an adjustment. */
  predicate WellFormed(m: Mutation) {
    if m.Adjust? then IsInteger(m.delta) else PositiveInteger(m.qty)
  }

  /** A mutation as arithmetic, nothing checked. */
  function Moved(r: Row, m: Mutation): Row {
    match m
    case Reserve(q) => Row(r.stock, r.reserved + q.Floor)
    case Release(q) => Row(r.stock, r.reserved - q.Floor)
    case ConsumeReserved(q) => Row(r.stock - q.Floor, r.reserved - q.Floor)
    case Adjust(d) => Row(r.stock + d.Floor, r.reserved)
    case Restock(q) => Row(r.stock + q.Floor, r.reserved)
  }

  /**
   The guards refuse exactly what would break the invariant: a mutation is accepted if and only if its
   quantity is well formed and the row it leaves is valid, and then it leaves that row.
   */
  lemma AcceptedIffValid(r: Row, m: Mutation)
    requires ValidRow(r)
    ensures Mutated(r, m).Success? <==> WellFormed(m) && ValidRow(Moved(r, m))
    ensures Mutated(r, m).Success? ==> Mutated(r, m).value == Moved(r, m)
    ensures Mutated(r, m) == Failure(InvalidOperation) <==> !WellFormed(m)
  {
  }

  /** A refusal for want of stock says how much there was and how much was asked. */
  lemma RefusalStates(r: Row, m: Mutation)
    requires Mutated(r, m).Failure? && Mutated(r, m).error != InvalidOperation
    ensures var e := Mutated(r, m).error;
            match m
            case Reserve(q) => e == InsufficientStock(r.stock - r.reserved, q)
            case Release(q) => e == InvalidRelease(r.reserved, q)
            case ConsumeReserved(q) => e == InvalidRelease(r.reserved, q)
            case Adjust(d) =>
              if r.stock as real + d < 0.0 then e == InsufficientStock(r.stock, -d)
              else e.InsufficientStock? && e.available as real == r.stock as real + d && e.requested == r.reserved as real
            case Restock(q) => false
  {
  }

  lemma ReserveThenRelease(r: Row, q: real)
    requires ValidRow(r) && Mutated(r, Reserve(q)).Success?
    ensures Mutated(Mutated(r, Reserve(q)).value, Release(q)) == Success(r)
  {
  }

  /** Selling what was reserved is releasing it and taking it off the shelf. */
  lemma ConsumeIsReleaseAndAdjust(r: Row, q: real)
    requires ValidRow(r) && Mutated(r, ConsumeReserved(q)).Success?
    ensures Mutated(r, Release(q)).Success?
    ensures Mutated(Mutated(r, Release(q)).value, Adjust(-q)) == Mutated(r, ConsumeReserved(q))
  {
    assert (-q).Floor == -q.Floor;
  }

  class Aggregate {
    var stock: int
    var reservedStock: int

    function View(): Row
      reads this
    {
      Row(stock, reservedStock)
    }

    ghost predicate Valid()
      reads this
    {
      ValidRow(View())
    }

    constructor (r: Row)
      ensures View() == r
    {
      stock, reservedStock := r.stock, r.reserved;
    }

    /** `assertInvariants`, as the error it would throw. */
    method AssertInvariants() returns (e: Option<StockError>)
      ensures e == if Valid() then None else Some(InvalidOperation)
    {
      if stock < 0 || reservedStock < 0 || reservedStock > stock {
        return Some(InvalidOperation);
      }
      return None;
    }

    /** `fromSnapshot`: a stored row that breaks the invariant cannot be loaded. */
    static method FromSnapshot(r: Row) returns (a: Aggregate, e: Option<StockError>)
      ensures fresh(a) && a.View() == r
      ensures e == if ValidRow(r) then None else Some(InvalidOperation)
    {
      a := new Aggregate(r);
      e := a.AssertInvariants();
    }

    ghost predicate Outcome(before: Row, m: Mutation, e: Option<StockError>)
      reads this
    {
      match Mutated(before, m)
      case Success(after) => e == None && View() == after && Valid()
      case Failure(error) => e == Some(error) && View() == before
    }

    method Reserve(qty: real) returns (e: Option<StockError>)
      requires Valid()
      modifies this
      ensures Outcome(old(View()), Mutation.Reserve(qty), e)
    {
      if !PositiveInteger(qty) {
        return Some(InvalidOperation);
      }
      var available := stock - reservedStock;
      if qty > available as real {
        return Some(InsufficientStock(available, qty));
      }
      reservedStock := reservedStock + qty.Floor;
      e := AssertInvariants();
    }

    method Release(qty: real) returns (e: Option<StockError>)
      requires Valid()
      modifies this
      ensures Outcome(old(View()), Mutation.Release(qty), e)
    {
      if !PositiveInteger(qty) {
        return Some(InvalidOperation);
      }
      if qty > reservedStock as real {
        return Some(InvalidRelease(reservedStock, qty));
      }
      reservedStock := reservedStock - qty.Floor;
      e := AssertInvariants();
    }

    method ConsumeReserved(qty: real) returns (e: Option<StockError>)
      requires Valid()
      modifies this
      ensures Outcome(old(View()), Mutation.ConsumeReserved(qty), e)
    {
      if !PositiveInteger(qty) {
        return Some(InvalidOperation);
      }
      if qty > reservedStock as real {
        return Some(InvalidRelease(reservedStock, qty));
      }
      reservedStock := reservedStock - qty.Floor;
      stock := stock - qty.Floor;
      e := AssertInvariants();
    }

    method Adjust(delta: real) returns (e: Option<StockError>)
      requires Valid()
      modifies this
      ensures Outcome(old(View()), Mutation.Adjust(delta), e)
    {
      if !IsInteger(delta) {
        return Some(InvalidOperation);
      }
      var next := stock + delta.Floor;
      if next < 0 {
        return Some(InsufficientStock(stock, if delta < 0.0 then -delta else delta));
      }
      if next < reservedStock {
        return Some(InsufficientStock(next, reservedStock as real));
      }
      stock := next;
      e := AssertInvariants();
    }

    method Restock(qty: real) returns (e: Option<StockError>)
      requires Valid()
      modifies this
      ensures Outcome(old(View()), Mutation.Restock(qty), e)
    {
      if !PositiveInteger(qty) {
        return Some(InvalidOperation);
      }
      stock := stock + qty.Floor;
      e := AssertInvariants();
    }

    /** The closure `mutate` runs on the loaded aggregate. */
    method Apply(m: Mutation) returns (e: Option<StockError>)
      requires Valid()
      modifies this
      ensures Outcome(old(View()), m, e)
    {
      match m {
        case Reserve(q) => e := Reserve(q);
        case Release(q) => e := Release(q);
        case ConsumeReserved(q) => e := ConsumeReserved(q);
        case Adjust(d) => e := Adjust(d);
        case Restock(q) => e := Restock(q);
      }
    }
  }
}
