/** FermentableTableModel: the rows of a recipe's fermentable table. It keeps
    an ordered, duplicate-free list of fermentables and a running total of
    their amounts, is told through notify() when a member changes, and answers
    the view's cell, header and flag queries. */
module FermentableTableModels {
  import opened QtValues
  import opened Lists

  /** A fermentable as the table sees it: an object identity plus the six
      fields the table shows and edits. */
  class Fermentable {
    var name: string
    var fermType: string
    var amountKg: real
    var isMashed: bool
    var yieldPct: real
    var colorSrm: real

    constructor (name: string, fermType: string, amountKg: real, isMashed: bool, yieldPct: real, colorSrm: real)
      ensures this.name == name && this.fermType == fermType && this.amountKg == amountKg
      ensures this.isMashed == isMashed && this.yieldPct == yieldPct && this.colorSrm == colorSrm
    {
      this.name := name;
      this.fermType := fermType;
      this.amountKg := amountKg;
      this.isMashed := isMashed;
      this.yieldPct := yieldPct;
      this.colorSrm := colorSrm;
    }
  }

  /** The field values of a fermentable at one moment. */
  datatype FermFields = FermFields(name: string, fermType: string, amountKg: real,
                                   isMashed: bool, yieldPct: real, colorSrm: real)

  function Fields(f: Fermentable): FermFields
    reads f
  {
    FermFields(f.name, f.fermType, f.amountKg, f.isMashed, f.yieldPct, f.colorSrm)
  }

  /** The table's column numbering, FERMNAMECOL ... FERMCOLORCOL and FERMNUMCOLS.
      The header that fixes the numbers is not part of this model, so they
      stay symbolic. */
  datatype FermColumns = FermColumns(name: int, fermType: int, amount: int, isMashed: int,
                                     yieldPct: int, color: int, count: int)
  {
    function All(): seq<int> {
      [name, fermType, amount, isMashed, yieldPct, color]
    }

    /** A column a switch of the table names. */
    predicate Known(c: int) {
      c in All()
    }

    /** What the compiler demands of the switch labels (pairwise different)
        and what the views assume of the column count (every column lies
        below it). */
    predicate Valid() {
      name != fermType && name != amount && name != isMashed && name != yieldPct && name != color &&
      fermType != amount && fermType != isMashed && fermType != yieldPct && fermType != color &&
      amount != isMashed && amount != yieldPct && amount != color &&
      isMashed != yieldPct && isMashed != color &&
      yieldPct != color &&
      forall c :: c in All() ==> 0 <= c < count
    }
  }

  datatype ItemFlag = ItemIsSelectable | ItemIsEnabled | ItemIsEditable | ItemIsUserCheckable

  /** The amounts of rows added up in row order, as updateTotalGrains does. */
  function SumAmounts(rows: seq<Fermentable>): real
    reads rows
  {
    if rows == [] then 0.0 else SumAmounts(rows[..|rows| - 1]) + rows[|rows| - 1].amountKg
  }

  lemma {:induction false} SumAppend(a: seq<Fermentable>, b: seq<Fermentable>)
    ensures SumAmounts(a + b) == SumAmounts(a) + SumAmounts(b)
  {
    if b != [] {
      var b' := b[..|b| - 1];
      assert (a + b)[..|a + b| - 1] == a + b';
      SumAppend(a, b');
    } else {
      assert a + b == a;
    }
  }

  /** Erasing the k-th row takes exactly its amount off the sum. */
  lemma {:induction false} SumRemoveAt(rows: seq<Fermentable>, k: int)
    requires 0 <= k < |rows|
    ensures SumAmounts(RemoveAt(rows, k)) == SumAmounts(rows) - rows[k].amountKg
  {
    var before, x, after := rows[..k], rows[k], rows[k + 1..];
    assert RemoveAt(rows, k) == before + after;
    assert rows == (before + [x]) + after;
    SumAppend(before + [x], after);
    SumAppend(before, [x]);
    SumAppend(before, after);
    SumSingle(x);
  }

  lemma {:induction false} SumSingle(f: Fermentable)
    ensures SumAmounts([f]) == f.amountKg
  {
    assert [f][..0] == [];
  }

  /** The outcome of the row check at the top of data() and setData(): no
      such row, the row's fermentable, or a read outside the vector. */
  datatype RowLookup = NoSuchRow | Row(f: Fermentable) | OutOfBounds

  /** The row check as written in data() and setData(): it rejects only rows at or past
      the end, so a negative row goes on to index the vector. */
  function LookupRowAsWritten(rows: seq<Fermentable>, row: int): (r: RowLookup)
    ensures r.OutOfBounds? <==> row < 0
    ensures r.Row? <==> 0 <= row < |rows|
  {
    if row >= |rows| then NoSuchRow
    else if row < 0 then OutOfBounds
    else Row(rows[row])
  }

  /** The row check as intended: every row outside 0 .. rowCount-1 is rejected. */
  function LookupRow(rows: seq<Fermentable>, row: int): (r: RowLookup)
    ensures !r.OutOfBounds?
    ensures r.Row? <==> 0 <= row < |rows|
    ensures r.Row? ==> r.f == rows[row]
  {
    if 0 <= row < |rows| then Row(rows[row]) else NoSuchRow
  }

  /** The invalid index QModelIndex() has row -1: the check as written lets it
      through to fermObs[-1], the intended check rejects it. */
  lemma InvalidIndexPassesRowCheck(rows: seq<Fermentable>)
    ensures LookupRowAsWritten(rows, -1) == OutOfBounds
    ensures LookupRow(rows, -1) == NoSuchRow
  {
  }

  /** The switch of data() for one row's field values. */
  function Cell(cols: FermColumns, f: FermFields, column: int, role: Role): (v: Value)
    ensures !cols.Known(column) ==> v == Empty
    ensures v != Empty ==> role == DisplayRole || (column == cols.isMashed && role == CheckStateRole)
  {
    if column == cols.name then
      if role == DisplayRole then Text(f.name) else Empty
    else if column == cols.fermType then
      if role == DisplayRole then Text(f.fermType) else Empty
    else if column == cols.amount then
      if role == DisplayRole then Formatted(f.amountKg, Kilograms) else Empty
    else if column == cols.isMashed then
      if role == CheckStateRole then Check(f.isMashed)
      else if role == DisplayRole then Text(if f.isMashed then "Mashed" else "Not mashed")
      else Empty
    else if column == cols.yieldPct then
      if role == DisplayRole then Formatted(f.yieldPct, NoUnit) else Empty
    else if column == cols.color then
      if role == DisplayRole then Formatted(f.colorSrm, NoUnit) else Empty
    else
      Empty
  }

  /** The switch of setData() for one row's field values: the new field values
      when the edit is accepted, None when it is refused. toSI stands for
      Unit::qstringToSI. */
  function Edit(cols: FermColumns, f: FermFields, column: int, value: Input, role: Role,
                toSI: string -> real): (r: Option<FermFields>)
    ensures cols.Valid() ==>
      (r.Some? <==> (cols.Known(column) &&
                     if column == cols.isMashed then role == CheckStateRole && value.asInt.Some?
                     else value.asString.Some?))
  {
    if column == cols.name then
      if value.asString.Some? then Some(f.(name := value.asString.value)) else None
    else if column == cols.fermType then
      if value.asString.Some? then Some(f.(fermType := value.asString.value)) else None
    else if column == cols.amount then
      if value.asString.Some? then Some(f.(amountKg := toSI(value.asString.value))) else None
    else if column == cols.isMashed then
      if role == CheckStateRole && value.asInt.Some? then Some(f.(isMashed := value.asInt.value == QtChecked))
      else None
    else if column == cols.yieldPct then
      if value.asString.Some? then Some(f.(yieldPct := toSI(value.asString.value))) else None
    else if column == cols.color then
      if value.asString.Some? then Some(f.(colorSrm := toSI(value.asString.value))) else None
    else
      None
  }

  /** An accepted edit is what the cell shows afterwards: the new text, the
      parsed amount formatted back, or the check state (value == Qt::Checked). */
  lemma EditThenShow(cols: FermColumns, f: FermFields, column: int, value: Input, role: Role,
                     toSI: string -> real)
    requires cols.Valid()
    requires Edit(cols, f, column, value, role, toSI).Some?
    ensures var g := Edit(cols, f, column, value, role, toSI).value;
      (column == cols.name ==> Cell(cols, g, column, DisplayRole) == Text(value.asString.value)) &&
      (column == cols.fermType ==> Cell(cols, g, column, DisplayRole) == Text(value.asString.value)) &&
      (column == cols.amount ==>
         Cell(cols, g, column, DisplayRole) == Formatted(toSI(value.asString.value), Kilograms)) &&
      (column == cols.isMashed ==>
         Cell(cols, g, column, CheckStateRole) == Check(value.asInt.value == QtChecked)) &&
      (column == cols.yieldPct ==>
         Cell(cols, g, column, DisplayRole) == Formatted(toSI(value.asString.value), NoUnit)) &&
      (column == cols.color ==>
         Cell(cols, g, column, DisplayRole) == Formatted(toSI(value.asString.value), NoUnit))
  {
  }

  /** An edit changes the cells of its own column only. */
  lemma EditIsLocal(cols: FermColumns, f: FermFields, column: int, value: Input, role: Role,
                    toSI: string -> real, other: int, otherRole: Role)
    requires cols.Valid()
    requires Edit(cols, f, column, value, role, toSI).Some?
    requires other != column
    ensures Cell(cols, Edit(cols, f, column, value, role, toSI).value, other, otherRole)
         == Cell(cols, f, other, otherRole)
  {
  }

  /** Two different columns never share a header. */
  lemma HeadersAreDistinct(cols: FermColumns, a: int, b: int)
    requires cols.Valid() && cols.Known(a) && cols.Known(b) && a != b
    ensures HorizontalHeader(cols, a, DisplayRole) != HorizontalHeader(cols, b, DisplayRole)
  {
  }

  /** headerData for the horizontal orientation: the column titles. */
  function HorizontalHeader(cols: FermColumns, section: int, role: Role): (v: Value)
    ensures v != Empty <==> role == DisplayRole && cols.Known(section)
    ensures v != Empty ==> v.Text?
  {
    if role != DisplayRole then Empty
    else if section == cols.name then Text("Name")
    else if section == cols.fermType then Text("Type")
    else if section == cols.amount then Text("Amount")
    else if section == cols.isMashed then Text("Mashed")
    else if section == cols.yieldPct then Text("Yield %")
    else if section == cols.color then Text("Color (SRM)")
    else Empty
  }

  /** flags(): the mashed column is a check box, every other column is edited
      in place; all cells are selectable and enabled. */
  function Flags(cols: FermColumns, column: int): (r: set<ItemFlag>)
    ensures ItemIsSelectable in r && ItemIsEnabled in r
    ensures ItemIsUserCheckable in r <==> column == cols.isMashed
    ensures ItemIsEditable in r <==> column != cols.isMashed
  {
    var defaults := {ItemIsSelectable, ItemIsEnabled};
    if column == cols.isMashed then defaults + {ItemIsUserCheckable} else defaults + {ItemIsEditable}
  }

  class FermentableTableModel {
    /** The column numbering, fixed when the model is built. */
    const cols: FermColumns
    /** fermObs: the rows, in row order. */
    var fermObs: seq<Fermentable>
    /** totalFermMass_kg: the running total of the rows' amounts. */
    var totalFermMassKg: real
    var displayPercentages: bool
    /** The fermentables this model observes (the MultipleObserver list). */
    var observed: set<Fermentable>
    /** How many times reset() has told the view to re-read everything. */
    var resets: nat

    ghost predicate Valid()
      reads this
    {
      cols.Valid() && Distinct(fermObs) && observed == set f | f in fermObs
    }

    /** The total agrees with the rows. Not part of Valid(): a fermentable can
        change outside the model, and the total catches up on notify(). */
    ghost predicate Consistent()
      reads this, fermObs
    {
      totalFermMassKg == SumAmounts(fermObs)
    }

    constructor (cols: FermColumns)
      requires cols.Valid()
      ensures Valid() && Consistent()
      ensures this.cols == cols && fermObs == [] && totalFermMassKg == 0.0
      ensures !displayPercentages && observed == {} && resets == 0
    {
      this.cols := cols;
      fermObs := [];
      totalFermMassKg := 0.0;
      displayPercentages := false;
      observed := {};
      resets := 0;
    }

    /** Appends ferm unless it is already a row; a duplicate changes nothing. */
    method AddFermentable(ferm: Fermentable)
      requires Valid()
      modifies this
      ensures Valid() && displayPercentages == old(displayPercentages)
      ensures ferm in old(fermObs) ==>
        fermObs == old(fermObs) && totalFermMassKg == old(totalFermMassKg) &&
        observed == old(observed) && resets == old(resets)
      ensures ferm !in old(fermObs) ==>
        fermObs == old(fermObs) + [ferm] && totalFermMassKg == old(totalFermMassKg) + ferm.amountKg &&
        observed == old(observed) + {ferm} && resets == old(resets) + 1
      ensures old(Consistent()) ==> Consistent()
    {
      var i := 0;
      while i < |fermObs|
        invariant 0 <= i <= |fermObs|
        invariant ferm !in fermObs[..i]
      {
        if fermObs[i] == ferm {
          return;
        }
        i := i + 1;
      }
      assert fermObs[..i] == fermObs;
      SumAppend(fermObs, [ferm]);
      SumSingle(ferm);
      fermObs := fermObs + [ferm];
      observed := observed + {ferm};
      totalFermMassKg := totalFermMassKg + ferm.amountKg;
      resets := resets + 1;
    }

    /** Erases ferm's row if there is one and reports whether there was. */
    method RemoveFermentable(ferm: Fermentable) returns (removed: bool)
      requires Valid()
      modifies this
      ensures Valid() && displayPercentages == old(displayPercentages)
      ensures removed == (ferm in old(fermObs))
      ensures !removed ==>
        fermObs == old(fermObs) && totalFermMassKg == old(totalFermMassKg) &&
        observed == old(observed) && resets == old(resets)
      ensures removed ==>
        fermObs == RemoveAt(old(fermObs), IndexOf(old(fermObs), ferm)) && ferm !in fermObs &&
        totalFermMassKg == old(totalFermMassKg) - ferm.amountKg &&
        observed == old(observed) - {ferm} && resets == old(resets) + 1
      ensures old(Consistent()) ==> Consistent()
    {
      var i := 0;
      while i < |fermObs|
        invariant 0 <= i <= |fermObs|
        invariant ferm !in fermObs[..i]
      {
        if fermObs[i] == ferm {
          IndexOfDistinct(fermObs, i);
          RemoveAtDistinct(fermObs, i);
          SumRemoveAt(fermObs, i);
          fermObs := RemoveAt(fermObs, i);
          observed := observed - {ferm};
          totalFermMassKg := totalFermMassKg - ferm.amountKg;
          resets := resets + 1;
          return true;
        }
        i := i + 1;
      }
      assert fermObs[..i] == fermObs;
      return false;
    }

    /** Stops observing every row, then empties the table and its total. */
    method RemoveAll()
      requires Valid()
      modifies this
      ensures Valid() && Consistent()
      ensures fermObs == [] && totalFermMassKg == 0.0 && observed == {}
      ensures resets == old(resets) + 1 && displayPercentages == old(displayPercentages)
    {
      var i := 0;
      while i < |fermObs|
        invariant 0 <= i <= |fermObs|
        invariant fermObs == old(fermObs) && resets == old(resets)
        invariant displayPercentages == old(displayPercentages)
        invariant observed == old(observed) - set f | f in fermObs[..i]
      {
        assert fermObs[..i + 1] == fermObs[..i] + [fermObs[i]];
        observed := observed - {fermObs[i]};
        i := i + 1;
      }
      assert fermObs[..i] == fermObs;
      fermObs := [];
      totalFermMassKg := 0.0;
      resets := resets + 1;
    }

    /** Recomputes the total from scratch over the current rows. */
    method UpdateTotalGrains()
      modifies this`totalFermMassKg
      ensures Consistent()
    {
      totalFermMassKg := 0.0;
      var i := 0;
      while i < |fermObs|
        invariant 0 <= i <= |fermObs|
        invariant totalFermMassKg == SumAmounts(fermObs[..i])
      {
        assert fermObs[..i + 1][..i] == fermObs[..i];
        totalFermMassKg := totalFermMassKg + fermObs[i].amountKg;
        i := i + 1;
      }
      assert fermObs[..i] == fermObs;
    }

    /** The notification a fermentable sends when it changes. A notification
        from a row brings the total up to date; any other is ignored. The
        change description is not looked at. */
    method Notify(notifier: object, info: Value)
      requires Valid()
      modifies this
      ensures Valid()
      ensures fermObs == old(fermObs) && observed == old(observed)
      ensures displayPercentages == old(displayPercentages)
      ensures IsRow(notifier) ==> Consistent() && resets == old(resets) + 1
      ensures !IsRow(notifier) ==> totalFermMassKg == old(totalFermMassKg) && resets == old(resets)
    {
      var i := 0;
      while i < |fermObs|
        invariant 0 <= i <= |fermObs|
        invariant forall j :: 0 <= j < i ==> fermObs[j] != notifier
      {
        if notifier == fermObs[i] {
          UpdateTotalGrains();
          resets := resets + 1;
          return;
        }
        i := i + 1;
      }
    }

    ghost predicate IsRow(o: object)
      reads this
    {
      o in fermObs
    }

    method SetDisplayPercentages(on: bool)
      modifies this`displayPercentages
      ensures displayPercentages == on
    {
      displayPercentages := on;
    }

    function RowCount(): (n: nat)
      reads this
      ensures n == |fermObs|
    {
      |fermObs|
    }

    /** FERMNUMCOLS: every column the switches name lies below it. */
    function ColumnCount(): (n: int)
      ensures cols.Valid() ==> forall c :: cols.Known(c) ==> 0 <= c < n
    {
      cols.count
    }

    /** data(): the cell at (row, column) in the given role; the invalid
        variant for a row outside the table or a column the switch does not
        name. */
    function Data(row: int, column: int, role: Role): (v: Value)
      reads this, fermObs
      ensures !(0 <= row < |fermObs|) ==> v == Empty
      ensures !cols.Known(column) ==> v == Empty
      ensures 0 <= row < |fermObs| ==> v == Cell(cols, Fields(fermObs[row]), column, role)
    {
      var lookup := LookupRow(fermObs, row);
      if lookup.Row? then Cell(cols, Fields(lookup.f), column, role) else Empty
    }

    /** setData(): applies an edit to the row's fermentable. It fails, changing
        nothing, for a row outside the table, a column the switch does not
        name or a value of the wrong kind; the mashed column takes only a
        check state. The list of rows never changes. */
    method SetData(row: int, column: int, value: Input, role: Role, toSI: string -> real)
      returns (ok: bool)
      requires Valid()
      modifies fermObs
      ensures fermObs == old(fermObs)
      ensures ok <==> (0 <= row < |fermObs| &&
                       old(Edit(cols, Fields(fermObs[row]), column, value, role, toSI)).Some?)
      ensures ok ==> Fields(fermObs[row]) == old(Edit(cols, Fields(fermObs[row]), column, value, role, toSI)).value
      ensures forall i :: 0 <= i < |fermObs| && (i != row || !ok) ==>
        Fields(fermObs[i]) == old(Fields(fermObs[i]))
    {
      if !(0 <= row < |fermObs|) {
        return false;
      }
      var f := fermObs[row];
      assert forall i :: 0 <= i < |fermObs| && i != row ==> fermObs[i] != f;
      if column == cols.name {
        ok := value.asString.Some?;
        if ok { f.name := value.asString.value; }
      } else if column == cols.fermType {
        ok := value.asString.Some?;
        if ok { f.fermType := value.asString.value; }
      } else if column == cols.amount {
        ok := value.asString.Some?;
        if ok { f.amountKg := toSI(value.asString.value); }
      } else if column == cols.isMashed {
        ok := role == CheckStateRole && value.asInt.Some?;
        if ok { f.isMashed := value.asInt.value == QtChecked; }
      } else if column == cols.yieldPct {
        ok := value.asString.Some?;
        if ok { f.yieldPct := toSI(value.asString.value); }
      } else if column == cols.color {
        ok := value.asString.Some?;
        if ok { f.colorSrm := toSI(value.asString.value); }
      } else {
        ok := false;
      }
    }

    /** getFermentable(i): the i-th row; indexing past the end is undefined in
        std::vector, so the caller must stay in range. */
    function GetFermentable(i: int): (f: Fermentable)
      reads this
      requires 0 <= i < |fermObs|
      ensures f in fermObs && f == fermObs[i]
    {
      fermObs[i]
    }
  }

  /** rowCount() is the number of distinct fermentables in the table. */
  lemma RowCountCountsMembers(m: FermentableTableModel)
    requires m.Valid()
    ensures m.RowCount() == |set f | f in m.fermObs|
    ensures m.RowCount() == |m.observed|
  {
    DistinctCardinality(m.fermObs);
  }

  /** Two rows of 2.0 and 3.0 kg total 5.0 kg; after the first becomes 4.0 kg
      and notifies, the total is 7.0 kg with no add or remove in between; adding
      the first again changes nothing. */
  method NotifyScenario(cols: FermColumns)
    returns (added: real, readded: real, rowsReadded: nat, after: real, rows: nat)
    requires cols.Valid()
    ensures added == 5.0 && readded == added && rowsReadded == 2
    ensures after == 7.0 && rows == 2
  {
    var model := new FermentableTableModel(cols);
    var a := new Fermentable("A", "Grain", 2.0, true, 80.0, 3.0);
    var b := new Fermentable("B", "Grain", 3.0, true, 75.0, 40.0);
    model.AddFermentable(a);
    model.AddFermentable(b);
    assert model.fermObs == [a, b];
    assert model.totalFermMassKg == 5.0 && model.RowCount() == 2;
    added := model.totalFermMassKg;
    model.AddFermentable(a);
    assert model.fermObs == [a, b] && model.totalFermMassKg == 5.0;
    readded := model.totalFermMassKg;
    rowsReadded := model.RowCount();
    a.amountKg := 4.0;
    assert model.IsRow(a);
    model.Notify(a, Empty);
    assert model.Consistent() && model.fermObs == [a, b];
    SumSingle(a);
    assert b.amountKg == 3.0;
    assert SumAmounts([a, b]) == SumAmounts([a]) + b.amountKg by {
      assert [a, b][..1] == [a];
    }
    after := model.totalFermMassKg;
    rows := model.RowCount();
  }
}
