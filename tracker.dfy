/**
 * The expense log as the tracker drives it: one table of rows plus SQLite's AUTOINCREMENT
 * counter, changed in place by add, delete and clear-all, and read by total, charts and export.
 */
module Tracker {
  import opened Wrappers
  import opened Dates
  import opened Records
  import opened Aggregation

  /** The largest rowid SQLite issues; past it an AUTOINCREMENT insert fails (SQLITE_FULL). */
  const MaxRowId: int := 0x7FFF_FFFF_FFFF_FFFF

  datatype AddOutcome =
    | Added(id: int)     // the row was inserted under this id
    | MissingDetails     // the "Incomplete Data" warning
    | BadAmount          // the amount field held no number; reading it raised
    | InsertFailed       // the INSERT raised; the "Database Error" message

  datatype DeleteOutcome = Removed | NoSelection

  datatype ChartOutcome = NoData | Chart(title: string, sums: map<string, real>)

  datatype ExportOutcome = NoRecords | Report(columns: seq<string>, records: seq<Row>)

  class ExpenseLog {
    /** The ExpenseLog table, in ascending id order. */
    var rows: seq<Row>
    /** The id the next insert receives: the table's sqlite_sequence entry plus one. */
    var nextId: int

    ghost predicate Valid()
      reads this
    {
      && 1 <= nextId
      && IncreasingIds(rows)
      && (forall r :: r in rows ==> 1 <= r.id < nextId && WellFormed(r))
    }

    /** A freshly created table: no rows, and no sequence entry yet. */
    constructor ()
      ensures Valid()
      ensures rows == [] && nextId == 1
    {
      rows := [];
      nextId := 1;
    }

    /**
     * insert_expense. The guard rejects an empty payee, an empty description or an amount
     * that is not positive, and leaves everything as it was. Otherwise one row is appended,
     * with the date as YYYY-MM-DD text and a fresh id above every id issued since the last clear.
     */
    method Add(date: Date, payee: string, description: string, category: string,
               amount: Option<real>, mode: string, insertFails: bool) returns (outcome: AddOutcome)
      requires Valid() && ValidDate(date)
      modifies this
      ensures Valid()
      ensures outcome == MissingDetails <==> Screen(payee, description, amount) == Incomplete
      ensures outcome == BadAmount <==> Screen(payee, description, amount) == AmountUnreadable
      ensures outcome.Added? <==>
                Screen(payee, description, amount).Accepted? && !insertFails && old(nextId) <= MaxRowId
      ensures outcome.Added? ==>
                && outcome.id == old(nextId)
                && (forall r :: r in old(rows) ==> r.id < outcome.id)
                && rows == old(rows) + [Row(outcome.id, FormatDate(date), payee, description,
                                            category, amount.value, mode)]
                && nextId == old(nextId) + 1
                && Total(rows) == Total(old(rows)) + amount.value
      ensures !outcome.Added? ==> rows == old(rows) && nextId == old(nextId)
    {
      match Screen(payee, description, amount)
      case Incomplete =>
        outcome := MissingDetails;
      case AmountUnreadable =>
        outcome := BadAmount;
      case Accepted(value) =>
        if insertFails || nextId > MaxRowId {
          outcome := InsertFailed;
        } else {
          var row := Row(nextId, FormatDate(date), payee, description, category, value, mode);
          assert IsStoredDate(row.date) by {
            assert ValidDate(date) && FormatDate(date) == row.date;
          }
          TotalAppend(rows, row);
          rows := rows + [row];
          outcome := Added(nextId);
          nextId := nextId + 1;
        }
    }

    /**
     * delete_entry. Without a selected row nothing happens; otherwise every row with the
     * selected id goes and nothing else changes, the id counter included.
     */
    method Delete(selection: Option<int>) returns (outcome: DeleteOutcome)
      requires Valid()
      modifies this
      ensures Valid()
      ensures outcome == NoSelection <==> selection.None?
      ensures selection.None? ==> rows == old(rows)
      ensures selection.Some? ==> rows == Without(old(rows), selection.value)
      ensures selection.Some? ==> forall r :: r in rows <==> r in old(rows) && r.id != selection.value
      ensures nextId == old(nextId)
    {
      match selection
      case None =>
        outcome := NoSelection;
      case Some(id) =>
        WithoutMembers(rows, id);
        WithoutIncreasing(rows, id);
        rows := Without(rows, id);
        outcome := Removed;
    }

    /** clear_all_data. Once confirmed, the table is emptied and the id sequence starts over. */
    method ClearAll(confirmed: bool)
      requires Valid()
      modifies this
      ensures Valid()
      ensures confirmed ==> rows == [] && nextId == 1
      ensures !confirmed ==> rows == old(rows) && nextId == old(nextId)
    {
      if confirmed {
        rows := [];
        nextId := 1;
      }
    }

    /** calculate_total: SUM(Amount), whose NULL on an empty table is read as 0. */
    method CalculateTotal() returns (total: real)
      requires Valid()
      ensures total == Total(rows)
      ensures total >= 0.0
      ensures total == 0.0 <==> rows == []
    {
      TotalPositive(rows);
      var sum: Option<real> := if rows == [] then None else Some(Total(rows));
      total := match sum case None => 0.0 case Some(s) => s;
    }

    /**
     * generate_chart: the selector picks the grouping and the title; an empty grouping is the
     * no-data warning, otherwise each label carries the sum of its rows' amounts.
     */
    method BarChart(selection: string) returns (outcome: ChartOutcome)
      requires Valid()
      ensures outcome.NoData? <==> rows == []
      ensures outcome.Chart? ==>
                && outcome.title == ViewFor(selection).title
                && outcome.sums == GroupSums(rows, ViewFor(selection).key)
                && MapSum(outcome.sums) == Total(rows)
                && forall k :: k in outcome.sums ==> outcome.sums[k] > 0.0
    {
      var view := ViewFor(selection);
      outcome := Grouped(view.key, view.title);
    }

    /** render_pie_chart: the category grouping under its own title, with the same no-data check. */
    method PieChart() returns (outcome: ChartOutcome)
      requires Valid()
      ensures outcome.NoData? <==> rows == []
      ensures outcome.Chart? ==>
                && outcome.title == PieTitle
                && outcome.sums == GroupSums(rows, ByCategory)
                && MapSum(outcome.sums) == Total(rows)
                && forall k :: k in outcome.sums ==> outcome.sums[k] > 0.0
    {
      outcome := Grouped(ByCategory, PieTitle);
    }

    /** Runs one GROUP BY query and turns an empty result into the no-data outcome. */
    method Grouped(key: GroupKey, title: string) returns (outcome: ChartOutcome)
      requires Valid()
      ensures outcome.NoData? <==> rows == []
      ensures outcome.Chart? ==>
                && outcome.title == title
                && outcome.sums == GroupSums(rows, key)
                && MapSum(outcome.sums) == Total(rows)
                && forall k :: k in outcome.sums ==> outcome.sums[k] > 0.0
    {
      var results := GroupSums(rows, key);
      GroupSumsEmpty(rows, key);
      if results == map[] {
        outcome := NoData;
      } else {
        GroupSumsAddUp(rows, key);
        GroupSumsPositive(rows, key);
        outcome := Chart(title, results);
      }
    }

    /** download_report: an empty table is the no-records message; otherwise every row, in column order. */
    method Export() returns (outcome: ExportOutcome)
      requires Valid()
      ensures outcome.NoRecords? <==> rows == []
      ensures outcome.Report? ==> outcome.columns == Columns && outcome.records == rows
    {
      var logs := rows;
      if logs == [] {
        outcome := NoRecords;
      } else {
        outcome := Report(Columns, logs);
      }
    }
  }

  /** Rent of 1200 paid on 2024-01-05: the total is 1200 and the monthly view has one bar. */
  method RentScenario() returns (total: real, monthly: ChartOutcome)
    ensures total == 1200.0
    ensures monthly == Chart("Monthly Expense Overview", map["2024-01" := 1200.0])
  {
    var log := new ExpenseLog();
    var day := Date(2024, 1, 5);
    var added := log.Add(day, "Landlord", "Rent", "Bills", Some(1200.0), "UPI", false);
    RentMonth();
    total := log.CalculateTotal();
    monthly := log.BarChart("Month");
  }

  lemma RentMonth()
    ensures MonthKey(FormatDate(Date(2024, 1, 5))) == "2024-01"
  {
    MonthKeyOfFormat(Date(2024, 1, 5));
    assert Pow10(1) == 10 && Pow10(2) == 100 && Pow10(3) == 1000 && Pow10(4) == 10000;
    calc {
      Padded(2024, 4);
      Padded(202, 3) + "4";
      Padded(20, 2) + "2" + "4";
      Padded(2, 1) + "0" + "2" + "4";
      Padded(0, 0) + "2" + "0" + "2" + "4";
    }
    calc {
      Padded(1, 2);
      Padded(0, 1) + "1";
      Padded(0, 0) + "0" + "1";
    }
  }

  /**
   * Category sums before and after logging food for 100 and travel for 50, and the same two
   * expenses logged travel first in a second table, where they get the other ids.
   */
  method CategoryScenario() returns (before: ChartOutcome, after: ChartOutcome, reversed: ChartOutcome)
    ensures before == NoData
    ensures after == Chart(PieTitle, map["Food" := 100.0, "Travel" := 50.0])
    ensures reversed == after
  {
    var log := new ExpenseLog();
    before := log.PieChart();
    var day := Date(2024, 3, 1);
    var food := log.Add(day, "Grocer", "Vegetables", "Food", Some(100.0), "Cash", false);
    var travel := log.Add(day, "Airline", "Ticket", "Travel", Some(50.0), "Card", false);
    FoodThenTravel(log.rows);
    after := log.PieChart();
    var other := new ExpenseLog();
    var travelFirst := other.Add(day, "Airline", "Ticket", "Travel", Some(50.0), "Card", false);
    var foodSecond := other.Add(day, "Grocer", "Vegetables", "Food", Some(100.0), "Cash", false);
    TravelThenFood(other.rows);
    reversed := other.PieChart();
  }

  lemma FoodThenTravel(rows: seq<Row>)
    requires |rows| == 2
    requires rows[0].category == "Food" && rows[0].amount == 100.0
    requires rows[1].category == "Travel" && rows[1].amount == 50.0
    ensures GroupSums(rows, ByCategory) == map["Food" := 100.0, "Travel" := 50.0]
  {
    assert rows[1..][1..] == [];
    assert GroupSums(rows[1..], ByCategory) == map["Travel" := 50.0];
  }

  lemma TravelThenFood(rows: seq<Row>)
    requires |rows| == 2
    requires rows[0].category == "Travel" && rows[0].amount == 50.0
    requires rows[1].category == "Food" && rows[1].amount == 100.0
    ensures GroupSums(rows, ByCategory) == map["Food" := 100.0, "Travel" := 50.0]
  {
    assert rows[1..][1..] == [];
    assert GroupSums(rows[1..], ByCategory) == map["Food" := 100.0];
  }

  /** Ids are not reused after deleting a row, but numbering restarts at 1 after a clear. */
  method IdScenario() returns (first: int, second: int, third: int, afterClear: int)
    ensures first == 1 && second == 2
    ensures third == 3
    ensures afterClear == 1
  {
    var log := new ExpenseLog();
    var day := Date(2024, 3, 1);
    var a := log.Add(day, "Grocer", "Vegetables", "Food", Some(100.0), "Cash", false);
    var b := log.Add(day, "Airline", "Ticket", "Travel", Some(50.0), "Card", false);
    first, second := a.id, b.id;
    var removed := log.Delete(Some(second));
    var c := log.Add(day, "Pharmacy", "Tablets", "Health", Some(20.0), "UPI", false);
    third := c.id;
    log.ClearAll(true);
    var d := log.Add(day, "Grocer", "Milk", "Food", Some(30.0), "Cash", false);
    afterClear := d.id;
  }
}
