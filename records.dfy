/** One row of the ExpenseLog table, the add guard, and the read-only aggregates over rows. */
module Records {
  import opened Wrappers
  import opened Dates

  /** A row in column order: ID, Date, Payee, Description, Category, Amount, Mode. */
  datatype Row = Row(id: int, date: string, payee: string, description: string,
                     category: string, amount: real, mode: string)

  /** The column headings the export hands over with the rows. */
  const Columns: seq<string> := ["ID", "Date", "Payee", "Description", "Category", "Amount", "Mode"]

  /** What the guard at the head of insert_expense decides about the form's fields. */
  datatype Screening =
    | Accepted(amount: real)   // the row may be inserted with this amount
    | Incomplete               // empty payee, empty description, or amount <= 0
    | AmountUnreadable         // the amount field holds no number: reading it raises

  /**
   * The add guard. Payee and description are tested first; the amount field is read only
   * when both are non-empty. Category and mode are never checked.
   */
  function Screen(payee: string, description: string, amount: Option<real>): (v: Screening)
    ensures v.Accepted? <==> payee != [] && description != [] && amount.Some? && amount.value > 0.0
    ensures v.Accepted? ==> v.amount == amount.value
    ensures v == AmountUnreadable <==> payee != [] && description != [] && amount.None?
  {
    if payee == [] || description == [] then Incomplete
    else match amount
      case None => AmountUnreadable
      case Some(a) => if a <= 0.0 then Incomplete else Accepted(a)
  }

  /** What every row the tracker itself inserted satisfies. */
  ghost predicate WellFormed(r: Row) {
    r.payee != [] && r.description != [] && r.amount > 0.0 && IsStoredDate(r.date)
  }

  /** Rows in table order carry strictly increasing ids (the rowid order of SELECT *). */
  predicate IncreasingIds(rows: seq<Row>) {
    forall i, j :: 0 <= i < j < |rows| ==> rows[i].id < rows[j].id
  }

  /** SUM(Amount) over the rows, with 0 for no rows. */
  function Total(rows: seq<Row>): (t: real)
    ensures (forall i :: 0 <= i < |rows| ==> rows[i].amount >= 0.0) ==> t >= 0.0
  {
    if rows == [] then 0.0 else rows[0].amount + Total(rows[1..])
  }

  lemma {:induction false} TotalConcat(a: seq<Row>, b: seq<Row>)
    ensures Total(a + b) == Total(a) + Total(b)
  {
    if a != [] {
      assert (a + b)[1..] == a[1..] + b;
      TotalConcat(a[1..], b);
    } else {
      assert a + b == b;
    }
  }

  /** Appending one row raises the total by exactly its amount. */
  lemma TotalAppend(rows: seq<Row>, r: Row)
    ensures Total(rows + [r]) == Total(rows) + r.amount
  {
    TotalConcat(rows, [r]);
  }

  /** A row of `a` taken out of a rearrangement `b` leaves a rearrangement of the rest of `a`. */
  lemma TakeOut(a: seq<Row>, b: seq<Row>) returns (j: int)
    requires multiset(a) == multiset(b) && a != []
    ensures 0 <= j < |b| && b[j] == a[0]
    ensures multiset(a[1..]) == multiset(b[..j] + b[j + 1..])
  {
    var x := a[0];
    assert x in multiset(b) by { assert x in multiset(a); }
    j :| 0 <= j < |b| && b[j] == x;
    assert b == b[..j] + [x] + b[j + 1..];
    assert a == [x] + a[1..];
    calc {
      multiset(a[1..]);
      multiset(a) - multiset{x};
      multiset(b) - multiset{x};
      multiset(b[..j]) + multiset(b[j + 1..]);
      multiset(b[..j] + b[j + 1..]);
    }
  }

  /** The total does not depend on the order of the rows: any rearrangement has the same sum. */
  lemma {:induction false} TotalPerm(a: seq<Row>, b: seq<Row>)
    requires multiset(a) == multiset(b)
    ensures Total(a) == Total(b)
    decreases |a|
  {
    if a == [] {
      assert |b| == |multiset(b)| == 0;
    } else {
      var x := a[0];
      var j := TakeOut(a, b);
      var rest := b[..j] + b[j + 1..];
      assert b == b[..j] + [x] + b[j + 1..];
      assert a == [x] + a[1..];
      TotalPerm(a[1..], rest);
      TotalConcat(b[..j] + [x], b[j + 1..]);
      TotalConcat(b[..j], [x]);
      TotalConcat(b[..j], b[j + 1..]);
    }
  }

  /** With positive amounts the total is positive exactly when there is a row. */
  lemma {:induction false} TotalPositive(rows: seq<Row>)
    requires forall r :: r in rows ==> r.amount > 0.0
    ensures Total(rows) >= 0.0
    ensures Total(rows) > 0.0 <==> rows != []
  {
    if rows != [] {
      assert rows[0] in rows;
      TotalPositive(rows[1..]);
    }
  }

  /** DELETE FROM ExpenseLog WHERE ID = id: the rows whose id differs, in their order. */
  function Without(rows: seq<Row>, id: int): (r: seq<Row>)
    ensures |r| <= |rows|
    ensures (forall i :: 0 <= i < |rows| ==> rows[i].id != id) ==> r == rows
  {
    if rows == [] then []
    else if rows[0].id == id then Without(rows[1..], id)
    else [rows[0]] + Without(rows[1..], id)
  }

  /** Deleting removes exactly the rows carrying that id and keeps every other row. */
  lemma {:induction false} WithoutMembers(rows: seq<Row>, id: int)
    ensures forall x :: x in Without(rows, id) <==> x in rows && x.id != id
  {
    if rows != [] {
      WithoutMembers(rows[1..], id);
      assert rows == [rows[0]] + rows[1..];
    }
  }

  /** A lower bound on the ids of the rows is one on the ids of what deleting leaves. */
  lemma {:induction false} WithoutAbove(rows: seq<Row>, id: int, bound: int)
    requires forall i :: 0 <= i < |rows| ==> bound < rows[i].id
    ensures forall k :: 0 <= k < |Without(rows, id)| ==> bound < Without(rows, id)[k].id
  {
    if rows != [] {
      WithoutAbove(rows[1..], id, bound);
    }
  }

  /** Deleting keeps the remaining rows in ascending id order. */
  lemma {:induction false} WithoutIncreasing(rows: seq<Row>, id: int)
    requires IncreasingIds(rows)
    ensures IncreasingIds(Without(rows, id))
  {
    if rows != [] {
      WithoutIncreasing(rows[1..], id);
      if rows[0].id != id {
        var rest := Without(rows[1..], id);
        WithoutAbove(rows[1..], id, rows[0].id);
        var r := [rows[0]] + rest;
        forall i, j | 0 <= i < j < |r| ensures r[i].id < r[j].id {
          if i == 0 {
            assert r[j] == rest[j - 1];
          } else {
            assert r[i] == rest[i - 1] && r[j] == rest[j - 1];
          }
        }
      }
    }
  }

  /** With unique ids, deleting the id of row i removes that row and nothing else. */
  lemma {:induction false} WithoutUnique(rows: seq<Row>, i: int)
    requires IncreasingIds(rows) && 0 <= i < |rows|
    ensures Without(rows, rows[i].id) == rows[..i] + rows[i + 1..]
  {
    var id := rows[i].id;
    var rest := rows[1..];
    if i == 0 {
      assert forall k :: 0 <= k < |rest| ==> rest[k].id != id by {
        forall k | 0 <= k < |rest| ensures rest[k].id != id {
          assert rest[k] == rows[k + 1];
        }
      }
      assert Without(rows, id) == Without(rest, id) == rest;
    } else {
      assert rows[0].id < id;
      assert IncreasingIds(rest);
      WithoutUnique(rest, i - 1);
      assert Without(rows, id) == [rows[0]] + Without(rest, id);
      assert rows[..i] + rows[i + 1..] == [rows[0]] + (rest[..i - 1] + rest[i..]);
    }
  }

  /** Deleting an id that is present lowers the total by that row's amount; an absent id changes nothing. */
  lemma {:induction false} TotalAfterDelete(rows: seq<Row>, id: int)
    requires IncreasingIds(rows)
    ensures (forall i :: 0 <= i < |rows| ==> rows[i].id != id) ==> Total(Without(rows, id)) == Total(rows)
    ensures forall i :: 0 <= i < |rows| && rows[i].id == id ==>
              Total(Without(rows, id)) == Total(rows) - rows[i].amount
  {
    forall i | 0 <= i < |rows| && rows[i].id == id
      ensures Total(Without(rows, id)) == Total(rows) - rows[i].amount
    {
      WithoutUnique(rows, i);
      assert rows == rows[..i] + [rows[i]] + rows[i + 1..];
      TotalConcat(rows[..i] + [rows[i]], rows[i + 1..]);
      TotalConcat(rows[..i], [rows[i]]);
      TotalConcat(rows[..i], rows[i + 1..]);
    }
  }
}
