/** PUT /doctors/:doctorId builds an `UPDATE doctors SET ... WHERE id = ?`
    statement from whichever of four body fields are truthy. This module holds
    that builder, the statement it yields, what executing the statement does to
    the doctors table, and the properties linking the three. */
module DoctorUpdate {
  import opened Js
  import opened Records

  /** The columns of a doctor row besides its id. */
  datatype Column = FirstName | LastName | Email | Specialization | Schedule

  function ColumnName(c: Column): (name: string) {
    match c
    case FirstName => "first_name"
    case LastName => "last_name"
    case Email => "email"
    case Specialization => "specialization"
    case Schedule => "schedule"
  }

  /** The SET clause that assigns one column from a placeholder. */
  function Clause(c: Column): (clause: string) {
    ColumnName(c) + " = ?"
  }

  /** The column a SET clause assigns, if it is one of the table's. */
  function ColumnOfClause(s: string): (r: Option<Column>)
    ensures r.Some? ==> Clause(r.value) == s
  {
    if s == Clause(FirstName) then Some(FirstName)
    else if s == Clause(LastName) then Some(LastName)
    else if s == Clause(Email) then Some(Email)
    else if s == Clause(Specialization) then Some(Specialization)
    else if s == Clause(Schedule) then Some(Schedule)
    else None
  }

  /** Each clause names its column unambiguously. */
  lemma ClauseNamesColumn(c: Column)
    ensures ColumnOfClause(Clause(c)) == Some(c)
  {
  }

  /** Each SET clause holds exactly one placeholder. */
  lemma ClausePlaceholder(c: Column)
    ensures Occurrences(Clause(c), '?') == 1
  {
    assert '?' !in ColumnName(c);
    OccurrencesAbsent(ColumnName(c), '?');
    OccurrencesConcat(ColumnName(c), " = ?", '?');
    assert " = ?"[1..] == "= ?" && "= ?"[1..] == " ?" && " ?"[1..] == "?" && "?"[1..] == "";
  }

  /** The body of the request: the four columns it may change. */
  datatype DoctorPatch = DoctorPatch(firstName: Field, lastName: Field, specialization: Field, schedule: Field)

  /** The body field that supplies a column; email is never read from the body. */
  function PatchField(p: DoctorPatch, c: Column): (f: Field) {
    match c
    case FirstName => p.firstName
    case LastName => p.lastName
    case Email => None
    case Specialization => p.specialization
    case Schedule => p.schedule
  }

  /** The text a field binds to its placeholder. */
  function FieldText(f: Field): (text: string) {
    if f.Some? then f.value else ""
  }

  /** The handler's 400 guard passes: at least one field is truthy. */
  predicate HasChange(p: DoctorPatch) {
    Truthy(p.firstName) || Truthy(p.lastName) || Truthy(p.specialization) || Truthy(p.schedule)
  }

  /** The columns the handler considers, in the order it considers them. */
  const Updatable: seq<Column> := [FirstName, LastName, Specialization, Schedule]

  /** Position of a column in that order (email, never considered, last). */
  function Rank(c: Column): (rank: nat) {
    match c
    case FirstName => 0
    case LastName => 1
    case Specialization => 2
    case Schedule => 3
    case Email => 4
  }

  /** The columns of `cols` whose body field is truthy, in the order of `cols`. */
  function Keep(p: DoctorPatch, cols: seq<Column>): (kept: seq<Column>) {
    if cols == [] then []
    else (if Truthy(PatchField(p, cols[0])) then [cols[0]] else []) + Keep(p, cols[1..])
  }

  /** Reference definition of the SET list: the updatable columns the body supplies. */
  function Supplied(p: DoctorPatch): (cols: seq<Column>) {
    Keep(p, Updatable)
  }

  function ClausesFor(cols: seq<Column>): (r: seq<string>)
    ensures |r| == |cols| && forall i :: 0 <= i < |cols| ==> r[i] == Clause(cols[i])
  {
    seq(|cols|, i requires 0 <= i < |cols| => Clause(cols[i]))
  }

  function ValuesFor(p: DoctorPatch, cols: seq<Column>): (r: seq<string>)
    ensures |r| == |cols| && forall i :: 0 <= i < |cols| ==> r[i] == FieldText(PatchField(p, cols[i]))
  {
    seq(|cols|, i requires 0 <= i < |cols| => FieldText(PatchField(p, cols[i])))
  }

  /** The handler's two arrays: one `col = ?` clause per truthy field, in the
      fixed column order, each value at its clause's index, and the doctor id
      appended last for the WHERE placeholder. */
  method BuildUpdate(p: DoctorPatch, doctorId: string) returns (updateFields: seq<string>, updateValues: seq<string>)
    ensures updateFields == ClausesFor(Supplied(p))
    ensures updateValues == ValuesFor(p, Supplied(p)) + [doctorId]
    ensures |updateValues| == |updateFields| + 1 && updateValues[|updateFields|] == doctorId
    ensures forall i :: 0 <= i < |updateFields| ==>
      && ColumnOfClause(updateFields[i]) == Some(Supplied(p)[i])
      && PatchField(p, Supplied(p)[i]) == Some(updateValues[i])
  {
    updateFields, updateValues := [], [];
    if Truthy(p.firstName) {
      updateFields := updateFields + [Clause(FirstName)];
      updateValues := updateValues + [p.firstName.value];
    }
    if Truthy(p.lastName) {
      updateFields := updateFields + [Clause(LastName)];
      updateValues := updateValues + [p.lastName.value];
    }
    if Truthy(p.specialization) {
      updateFields := updateFields + [Clause(Specialization)];
      updateValues := updateValues + [p.specialization.value];
    }
    if Truthy(p.schedule) {
      updateFields := updateFields + [Clause(Schedule)];
      updateValues := updateValues + [p.schedule.value];
    }
    updateValues := updateValues + [doctorId];
    SuppliedUnfolded(p);
    SuppliedAligned(p);
  }

  /** Clause `i` assigns the `i`-th supplied column, and value `i` is that
      column's field. */
  lemma SuppliedAligned(p: DoctorPatch)
    ensures forall i :: 0 <= i < |Supplied(p)| ==>
      && ColumnOfClause(ClausesFor(Supplied(p))[i]) == Some(Supplied(p)[i])
      && PatchField(p, Supplied(p)[i]) == Some(ValuesFor(p, Supplied(p))[i])
  {
    forall i | 0 <= i < |Supplied(p)|
      ensures ColumnOfClause(ClausesFor(Supplied(p))[i]) == Some(Supplied(p)[i])
      ensures PatchField(p, Supplied(p)[i]) == Some(ValuesFor(p, Supplied(p))[i])
    {
      ClauseNamesColumn(Supplied(p)[i]);
      assert Supplied(p)[i] in Supplied(p);
      SuppliedMembers(p, Supplied(p)[i]);
    }
  }

  /** `Supplied` spelled out field by field, as the handler tests them. */
  lemma SuppliedUnfolded(p: DoctorPatch)
    ensures Supplied(p) ==
      (if Truthy(p.firstName) then [FirstName] else []) +
      (if Truthy(p.lastName) then [LastName] else []) +
      (if Truthy(p.specialization) then [Specialization] else []) +
      (if Truthy(p.schedule) then [Schedule] else [])
  {
    assert Updatable[1..] == [LastName, Specialization, Schedule];
    assert Updatable[1..][1..] == [Specialization, Schedule];
    assert Updatable[1..][1..][1..] == [Schedule];
    assert Updatable[1..][1..][1..][1..] == [];
  }

  /** The statement the handler sends. */
  function UpdateSql(updateFields: seq<string>): (sql: string) {
    "UPDATE doctors SET " + Join(updateFields, ", ") + " WHERE id = ?"
  }

  lemma {:induction false} KeepMembers(p: DoctorPatch, cols: seq<Column>, c: Column)
    ensures c in Keep(p, cols) <==> c in cols && Truthy(PatchField(p, c))
  {
    if cols != [] {
      KeepMembers(p, cols[1..], c);
      assert cols == [cols[0]] + cols[1..];
    }
  }

  /** A column gets a SET clause exactly when it is one of the four and its
      field is truthy; email never does. */
  lemma SuppliedMembers(p: DoctorPatch, c: Column)
    ensures c in Supplied(p) <==> c != Email && Truthy(PatchField(p, c))
  {
    KeepMembers(p, Updatable, c);
  }

  lemma {:induction false} KeepOrdered(p: DoctorPatch, cols: seq<Column>)
    requires forall i, j :: 0 <= i < j < |cols| ==> Rank(cols[i]) < Rank(cols[j])
    ensures forall i, j :: 0 <= i < j < |Keep(p, cols)| ==> Rank(Keep(p, cols)[i]) < Rank(Keep(p, cols)[j])
  {
    if cols != [] {
      var rest := Keep(p, cols[1..]);
      KeepOrdered(p, cols[1..]);
      forall c | c in rest ensures Rank(cols[0]) < Rank(c) {
        KeepMembers(p, cols[1..], c);
        var k :| 0 <= k < |cols[1..]| && cols[1..][k] == c;
        assert cols[k + 1] == c;
      }
      var kept := Keep(p, cols);
      forall i, j | 0 <= i < j < |kept| ensures Rank(kept[i]) < Rank(kept[j]) {
        if Truthy(PatchField(p, cols[0])) {
          if i == 0 {
            assert kept[j] == rest[j - 1] && kept[j] in rest;
          } else {
            assert kept[i] == rest[i - 1] && kept[j] == rest[j - 1];
          }
        } else {
          assert kept == rest;
        }
      }
    }
  }

  /** The SET clauses follow the order first_name, last_name, specialization,
      schedule, and so no column appears twice. */
  lemma SuppliedOrdered(p: DoctorPatch)
    ensures forall i, j :: 0 <= i < j < |Supplied(p)| ==> Rank(Supplied(p)[i]) < Rank(Supplied(p)[j])
  {
    KeepOrdered(p, Updatable);
  }

  /** The handler's 400 guard fires exactly when the SET list would be empty,
      so the statement it sends always has at least one clause. */
  lemma GuardMatchesBuilder(p: DoctorPatch)
    ensures !HasChange(p) <==> Supplied(p) == []
  {
    SuppliedUnfolded(p);
  }

  lemma SqlHeadOccurrences()
    ensures Occurrences("UPDATE doctors SET ", '?') == 0
  {
    assert '?' !in "UPDATE doctors SET ";
    OccurrencesAbsent("UPDATE doctors SET ", '?');
  }

  lemma SqlTailOccurrences()
    ensures Occurrences(" WHERE id = ?", '?') == 1
  {
    assert " WHERE id = ?" == " WHERE id = " + "?";
    assert '?' !in " WHERE id = ";
    OccurrencesAbsent(" WHERE id = ", '?');
    OccurrencesConcat(" WHERE id = ", "?", '?');
    assert "?"[1..] == "";
  }

  /** The fixed text around the SET list adds one placeholder, the id's. */
  lemma SqlFrameOccurrences(setList: string)
    ensures Occurrences("UPDATE doctors SET " + setList + " WHERE id = ?", '?') == Occurrences(setList, '?') + 1
  {
    SqlHeadOccurrences();
    SqlTailOccurrences();
    OccurrencesConcat("UPDATE doctors SET ", setList, '?');
    OccurrencesConcat("UPDATE doctors SET " + setList, " WHERE id = ?", '?');
  }

  /** The statement holds as many placeholders as the values list holds
      parameters: one per clause and one for the id. */
  lemma PlaceholdersMatchValues(p: DoctorPatch, doctorId: string)
    ensures Occurrences(UpdateSql(ClausesFor(Supplied(p))), '?') == |ValuesFor(p, Supplied(p)) + [doctorId]|
  {
    var clauses := ClausesFor(Supplied(p));
    forall i | 0 <= i < |clauses| ensures Occurrences(clauses[i], '?') == 1 {
      ClausePlaceholder(Supplied(p)[i]);
    }
    assert '?' !in ", ";
    OccurrencesAbsent(", ", '?');
    JoinOccurrences(clauses, ", ", '?');
    SqlFrameOccurrences(Join(clauses, ", "));
  }

  function Get(d: Doctor, c: Column): (v: string) {
    match c
    case FirstName => d.firstName
    case LastName => d.lastName
    case Email => d.email
    case Specialization => d.specialization
    case Schedule => d.schedule
  }

  function Put(d: Doctor, c: Column, v: string): (r: Doctor)
    ensures Get(r, c) == v
    ensures forall other :: other != c ==> Get(r, other) == Get(d, other)
  {
    match c
    case FirstName => d.(firstName := v)
    case LastName => d.(lastName := v)
    case Email => d.(email := v)
    case Specialization => d.(specialization := v)
    case Schedule => d.(schedule := v)
  }

  /** The SET list applied to one row, clause by clause, each clause taking
      the value at its own index. */
  function Assign(d: Doctor, clauses: seq<string>, values: seq<string>): (r: Doctor)
    requires |clauses| <= |values|
    decreases clauses
  {
    if clauses == [] then d
    else
      var d' := match ColumnOfClause(clauses[0]) case Some(c) => Put(d, c, values[0]) case None => d;
      Assign(d', clauses[1..], values[1..])
  }

  /** `UPDATE doctors SET <clauses> WHERE id = ?` run with `values`: the last
      value selects the row (a text that denotes no id matches none). */
  function ExecuteUpdate(table: map<nat, Doctor>, clauses: seq<string>, values: seq<string>): (r: map<nat, Doctor>)
    requires |values| == |clauses| + 1
  {
    var id := ParseDecimal(values[|clauses|]);
    if id.Some? && id.value in table then table[id.value := Assign(table[id.value], clauses, values[..|clauses|])]
    else table
  }

  /** Reference definition of the partial update: each truthy field replaces
      its column and every other column keeps its value. */
  function Patched(d: Doctor, p: DoctorPatch): (r: Doctor)
    ensures r.email == d.email
  {
    Doctor(
      if Truthy(p.firstName) then p.firstName.value else d.firstName,
      if Truthy(p.lastName) then p.lastName.value else d.lastName,
      d.email,
      if Truthy(p.specialization) then p.specialization.value else d.specialization,
      if Truthy(p.schedule) then p.schedule.value else d.schedule)
  }

  lemma {:induction false} AssignDistinct(d: Doctor, p: DoctorPatch, cols: seq<Column>, c: Column)
    requires forall i, j :: 0 <= i < j < |cols| ==> cols[i] != cols[j]
    decreases cols
    ensures Get(Assign(d, ClausesFor(cols), ValuesFor(p, cols)), c) ==
            if c in cols then FieldText(PatchField(p, c)) else Get(d, c)
  {
    if cols != [] {
      var clauses, values := ClausesFor(cols), ValuesFor(p, cols);
      ClauseNamesColumn(cols[0]);
      var d' := Put(d, cols[0], values[0]);
      assert clauses[1..] == ClausesFor(cols[1..]);
      assert values[1..] == ValuesFor(p, cols[1..]);
      assert Assign(d, clauses, values) == Assign(d', clauses[1..], values[1..]);
      AssignDistinct(d', p, cols[1..], c);
      assert cols == [cols[0]] + cols[1..];
      if c == cols[0] {
        assert c !in cols[1..] by {
          forall k | 0 <= k < |cols[1..]| ensures cols[1..][k] != c {
            assert cols[1..][k] == cols[k + 1];
          }
        }
      }
    }
  }

  /** Executing the statement the handler builds performs exactly the partial
      update: on the row the id names, the supplied columns take their new
      values and the others, email included, keep theirs; no other row changes. */
  lemma UpdateMatchesPatch(table: map<nat, Doctor>, id: nat, p: DoctorPatch)
    ensures ExecuteUpdate(table, ClausesFor(Supplied(p)), ValuesFor(p, Supplied(p)) + [NatToString(id)]) ==
            if id in table then table[id := Patched(table[id], p)] else table
  {
    var cols := Supplied(p);
    var values := ValuesFor(p, cols) + [NatToString(id)];
    ParseNatToString(id);
    assert values[|cols|] == NatToString(id);
    assert values[..|cols|] == ValuesFor(p, cols);
    if id in table {
      var d := table[id];
      var r := Assign(d, ClausesFor(cols), ValuesFor(p, cols));
      SuppliedOrdered(p);
      forall c ensures Get(r, c) == Get(Patched(d, p), c) {
        AssignDistinct(d, p, cols, c);
        SuppliedMembers(p, c);
      }
      assert Get(r, FirstName) == Get(Patched(d, p), FirstName);
      assert Get(r, LastName) == Get(Patched(d, p), LastName);
      assert Get(r, Email) == Get(Patched(d, p), Email);
      assert Get(r, Specialization) == Get(Patched(d, p), Specialization);
      assert Get(r, Schedule) == Get(Patched(d, p), Schedule);
    }
  }
}
