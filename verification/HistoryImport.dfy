/** Importing the run history from a JSON-lines file (ops/services.py). */
module HistoryImport {
  import opened Wrappers
  import opened Json

  /** The columns that identify a row. */
  datatype Identity = Identity(executionId: Option<string>, slotId: string, scenarioId: string)

  datatype Row = Row(
    slotKey: string, executedAt: int, status: string, step: string, message: string, updatedAt: Option<int>)

  type Table = map<Identity, Row>

  /** A line of the file: blank, not JSON, or a document. */
  datatype Line = Blank | Broken | Doc(value: Value)

  /** How Python turns values to text, and texts to instants (None: it raises). */
  datatype Reader = Reader(text: Value -> string, instant: Value -> Option<int>)

  /** What a line asks for: nothing, an exception, or to store a row. */
  datatype Request = Skip | Raise | Store(id: Identity, row: Row)

  function Read(rd: Reader, line: Line): Request {
    match line
    case Blank => Skip
    case Broken => Raise
    case Doc(value) =>
      if !value.Obj? then Raise
      else
        var f := value.fields;
        var slotId, scenarioId := rd.text(GetOr(f, "slot_id", Str(""))), rd.text(GetOr(f, "scenario_id", Str("")));
        if slotId == "" || scenarioId == "" then Skip
        else
          var execution, updated := GetOr(f, "execution_id", Null), GetOr(f, "updated_at", Null);
          var executedAt := rd.instant(Str(rd.text(GetOr(f, "executed_at", Null))));
          var updatedAt := if Truthy(updated) then rd.instant(updated) else None;
          if executedAt.None? || (Truthy(updated) && updatedAt.None?) then Raise
          else Store(
            Identity(if Truthy(execution) then Some(rd.text(execution)) else None, slotId, scenarioId),
            Row(rd.text(GetOr(f, "slot_key", Str(""))), executedAt.value, rd.text(GetOr(f, "status", Str(""))),
                rd.text(GetOr(f, "step", Str(""))), rd.text(GetOr(f, "message", Str(""))), updatedAt))
  }

  /** A table and how many rows were imported into it. */
  datatype Imported = Imported(table: Table, count: nat)

  /** None: a line raised, and the transaction left the table alone. */
  function Import(rd: Reader, lines: seq<Line>, table: Table): Option<Imported> {
    if lines == [] then Some(Imported(table, 0))
    else Next(rd, Import(rd, lines[..|lines| - 1], table), lines[|lines| - 1])
  }

  function Next(rd: Reader, before: Option<Imported>, line: Line): Option<Imported> {
    if before.None? then None
    else
      match Read(rd, line)
      case Skip => before
      case Raise => None
      case Store(id, row) => Some(Imported(before.value.table[id := row], before.value.count + 1))
  }

  /** The row the last accepted line with this identity asks for. */
  function LastRow(rd: Reader, lines: seq<Line>, id: Identity): Option<Row> {
    if lines == [] then None
    else
      var r := Read(rd, lines[|lines| - 1]);
      if r.Store? && r.id == id then Some(r.row) else LastRow(rd, lines[..|lines| - 1], id)
  }

  function Accepted(rd: Reader, lines: seq<Line>): nat {
    if lines == [] then 0
    else Accepted(rd, lines[..|lines| - 1]) + if Read(rd, lines[|lines| - 1]).Store? then 1 else 0
  }

  function Lookup(table: Table, id: Identity): Option<Row> {
    if id in table then Some(table[id]) else None
  }

  /** The last line wins: each row is what the last accepted line with its identity
      says, or was there before; and the count is that of the accepted lines. */
  lemma {:induction false} LastLineWins(rd: Reader, lines: seq<Line>, table: Table)
    requires Import(rd, lines, table).Some?
    ensures var r := Import(rd, lines, table).value;
            && r.count == Accepted(rd, lines)
            && forall id :: Lookup(r.table, id) ==
                 if LastRow(rd, lines, id).Some? then LastRow(rd, lines, id) else Lookup(table, id)
  {
    if lines != [] { LastLineWins(rd, lines[..|lines| - 1], table); }
  }

  lemma SameTable(a: Table, b: Table)
    requires forall id :: Lookup(a, id) == Lookup(b, id)
    ensures a == b
  {
    assert forall id :: id in a <==> Lookup(a, id).Some?;
    assert forall id :: id in b <==> Lookup(b, id).Some?;
    assert forall id :: id in a ==> Lookup(a, id) == Some(a[id]) == Lookup(b, id) == Some(b[id]);
  }

  /** Whether an import raises does not depend on the table. */
  lemma {:induction false} RaisesAlike(rd: Reader, lines: seq<Line>, table: Table, table': Table)
    ensures Import(rd, lines, table).Some? <==> Import(rd, lines, table').Some?
  {
    if lines != [] { RaisesAlike(rd, lines[..|lines| - 1], table, table'); }
  }

  /** Importing two files one after the other is importing their concatenation. */
  lemma ImportOne(rd: Reader, lines: seq<Line>, line: Line, table: Table)
    ensures Import(rd, lines + [line], table) == Next(rd, Import(rd, lines, table), line)
  {
    assert (lines + [line])[..|lines|] == lines;
  }

  lemma {:induction false} ImportAppend(rd: Reader, a: seq<Line>, b: seq<Line>, table: Table)
    requires Import(rd, a, table).Some?
    ensures var first := Import(rd, a, table).value;
            var second, both := Import(rd, b, first.table), Import(rd, a + b, table);
            && (both.Some? <==> second.Some?)
            && (both.Some? ==>
                  both.value.table == second.value.table && both.value.count == first.count + second.value.count)
  {
    if b == [] {
      assert a + b == a;
    } else {
      var init, line := b[..|b| - 1], b[|b| - 1];
      assert b == init + [line] && a + b == (a + init) + [line];
      ImportAppend(rd, a, init, table);
      ImportOne(rd, init, line, Import(rd, a, table).value.table);
      ImportOne(rd, a + init, line, table);
    }
  }

  lemma {:induction false} LastRowAppend(rd: Reader, a: seq<Line>, b: seq<Line>, id: Identity)
    ensures LastRow(rd, a + b, id) == if LastRow(rd, b, id).Some? then LastRow(rd, b, id) else LastRow(rd, a, id)
  {
    if b == [] {
      assert a + b == a;
    } else {
      var n := |b| - 1;
      assert (a + b)[..|a| + n] == a + b[..n];
      LastRowAppend(rd, a, b[..n], id);
    }
  }

  lemma {:induction false} PrefixImports(rd: Reader, lines: seq<Line>, k: nat, table: Table)
    requires k <= |lines| && Import(rd, lines, table).Some?
    ensures Import(rd, lines[..k], table).Some?
    decreases |lines|
  {
    if k == |lines| {
      assert lines[..k] == lines;
    } else {
      assert lines[..|lines| - 1][..k] == lines[..k];
      PrefixImports(rd, lines[..|lines| - 1], k, table);
    }
  }

  /** Importing any prefix of a file and then the whole file equals importing the whole
      file once, from any table. */
  lemma PrefixThenWhole(rd: Reader, lines: seq<Line>, k: nat, table: Table)
    requires k <= |lines| && Import(rd, lines, table).Some?
    ensures Import(rd, lines[..k], table).Some?
    ensures Import(rd, lines, Import(rd, lines[..k], table).value.table) == Import(rd, lines, table)
  {
    PrefixImports(rd, lines, k, table);
    var middle := Import(rd, lines[..k], table).value.table;
    RaisesAlike(rd, lines, table, middle);
    var once, again := Import(rd, lines, table).value, Import(rd, lines, middle).value;
    LastLineWins(rd, lines[..k], table);
    LastLineWins(rd, lines, middle);
    LastLineWins(rd, lines, table);
    assert lines == lines[..k] + lines[k..];
    forall id ensures Lookup(again.table, id) == Lookup(once.table, id) {
      LastRowAppend(rd, lines[..k], lines[k..], id);
    }
    SameTable(again.table, once.table);
  }

  /** Importing a file again changes nothing. */
  lemma ImportIsIdempotent(rd: Reader, lines: seq<Line>, table: Table)
    requires Import(rd, lines, table).Some?
    ensures Import(rd, lines, Import(rd, lines, table).value.table) == Import(rd, lines, table)
  {
    assert lines[..|lines|] == lines;
    PrefixThenWhole(rd, lines, |lines|, table);
  }

  // ---------------------------------------------------------------- lines

  /** Texts are read as they are, and `iso` prints instants as they are read. */
  ghost predicate ReadsBack(rd: Reader, iso: int -> string) {
    && (forall s :: rd.text(Str(s)) == s)
    && forall at :: iso(at) != "" && rd.instant(Str(iso(at))) == Some(at)
  }

  /** The line a row is written as; what it lacks is left out. */
  function LineOf(iso: int -> string, id: Identity, row: Row): Value {
    var columns := map[
      "slot_id" := Str(id.slotId), "scenario_id" := Str(id.scenarioId), "slot_key" := Str(row.slotKey),
      "executed_at" := Str(iso(row.executedAt)), "status" := Str(row.status), "step" := Str(row.step),
      "message" := Str(row.message)];
    Obj(columns
        + (if id.executionId.Some? then map["execution_id" := Str(id.executionId.value)] else map[])
        + if row.updatedAt.Some? then map["updated_at" := Str(iso(row.updatedAt.value))] else map[])
  }

  lemma ColumnsOfLine(iso: int -> string, id: Identity, row: Row)
    ensures var f := LineOf(iso, id, row).fields;
            && GetOr(f, "slot_id", Str("")) == Str(id.slotId)
            && GetOr(f, "scenario_id", Str("")) == Str(id.scenarioId)
            && GetOr(f, "slot_key", Str("")) == Str(row.slotKey)
            && GetOr(f, "executed_at", Null) == Str(iso(row.executedAt))
            && GetOr(f, "status", Str("")) == Str(row.status)
            && GetOr(f, "step", Str("")) == Str(row.step)
            && GetOr(f, "message", Str("")) == Str(row.message)
  {
    assert |"execution_id"| == 12 && |"updated_at"| == 10 && |"slot_key"| == 8 && |"status"| == 6 && |"step"| == 4;
    assert "scenario_id"[0] != "executed_at"[0] && "slot_id"[0] != "message"[0];
  }

  lemma OptionsOfLine(iso: int -> string, id: Identity, row: Row)
    ensures var f := LineOf(iso, id, row).fields;
            && GetOr(f, "execution_id", Null)
               == (if id.executionId.Some? then Str(id.executionId.value) else Null)
            && GetOr(f, "updated_at", Null) == if row.updatedAt.Some? then Str(iso(row.updatedAt.value)) else Null
  {
    assert |"execution_id"| == 12 && |"updated_at"| == 10 && |"slot_key"| == 8 && |"status"| == 6 && |"step"| == 4;
    assert |"scenario_id"| == |"executed_at"| == 11 && |"slot_id"| == |"message"| == 7;
  }

  /** A row is read back from the line it is written as: each column from the field of its
      name. Identifying texts are not empty, an execution id may be absent. */
  lemma RowIsReadBack(rd: Reader, iso: int -> string, id: Identity, row: Row)
    requires ReadsBack(rd, iso) && id.slotId != "" && id.scenarioId != "" && id.executionId != Some("")
    ensures Read(rd, Doc(LineOf(iso, id, row))) == Store(id, row)
  {
    ColumnsOfLine(iso, id, row);
    OptionsOfLine(iso, id, row);
    assert rd.text(Str(iso(row.executedAt))) == iso(row.executedAt);
    assert rd.instant(Str(iso(row.executedAt))) == Some(row.executedAt);
    if row.updatedAt.Some? {
      var at := row.updatedAt.value;
      assert iso(at) != "" && rd.instant(Str(iso(at))) == Some(at);
    }
  }

  /** The history table. */
  class HistoryStore {
    const reader: Reader
    var table: Table

    constructor (reader: Reader)
      ensures this.reader == reader && table == map[]
    {
      this.reader, table := reader, map[];
    }

    /** `import_history_jsonl`: line by line inside one transaction; None is the
        exception that rolls it back. A missing file imports nothing. */
    method ImportHistory(file: Option<seq<Line>>) returns (imported: Option<nat>)
      modifies this
      ensures file.None? ==> imported == Some(0) && table == old(table)
      ensures file.Some? ==>
                var r := Import(reader, file.value, old(table));
                if r.Some? then imported == Some(r.value.count) && table == r.value.table
                else imported.None? && table == old(table)
    {
      if file.None? { return Some(0); }
      var lines, saved, count := file.value, table, 0;
      for i := 0 to |lines|
        invariant Import(reader, lines[..i], old(table)) == Some(Imported(table, count))
      {
        assert lines[..i + 1][..i] == lines[..i];
        match Read(reader, lines[i])
        case Skip =>
        case Raise =>
          PrefixRaises(reader, lines, i + 1, old(table));
          table := saved;
          return None;
        case Store(id, row) =>
          table := table[id := row];
          count := count + 1;
      }
      assert lines[..|lines|] == lines;
      imported := Some(count);
    }
  }

  lemma PrefixRaises(rd: Reader, lines: seq<Line>, k: nat, table: Table)
    requires k <= |lines|
    ensures Import(rd, lines[..k], table).None? ==> Import(rd, lines, table).None?
  {
    if Import(rd, lines, table).Some? { PrefixImports(rd, lines, k, table); }
  }
}
