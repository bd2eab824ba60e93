/** The results table the task-maker describes for the tmsocial platform
    (python/formats/tmsocial_metadata.py): one group per subtask, one row
    per testcase, and in each row the testcase number followed by
    references to the result fields of that testcase. */
module TmsocialMetadata {
  import opened Common

  /** A cell: the testcase number, or a reference to a result field. */
  datatype Cell = Number(number: int) | Ref(ref: string)
  datatype Row = Row(title: string, cells: seq<Cell>)
  datatype Group = Group(maxScore: real, title: string, rows: seq<Row>)
  /** A column: its type, and its default name when it has one. */
  datatype Column = Column(ctype: string, name: Option<string>)
  datatype Table = Table(ttype: string, columns: seq<Column>, groups: seq<Group>)

  /** A subtask of the task: its maximum score and its testcase numbers,
      in the order of its mapping. */
  datatype Subtask = Subtask(maxScore: real, testcases: seq<int>)
  /** The task's subtasks with their numbers, in the order of its mapping. */
  type Subtasks = seq<(int, Subtask)>

  /** The result fields a row refers to, in cell order. */
  const Fields: seq<string> := ["status", "memory_usage", "time_usage", "signal", "return_code", "message", "score"]

  const Columns: seq<Column> := [
    Column("row_number", Some("Test Case")),
    Column("row_status", None),
    Column("memory_usage", Some("Memory Usage")),
    Column("time_usage", Some("Time Usage")),
    Column("signal", Some("Exit signal")),
    Column("return_code", Some("Return code")),
    Column("message", Some("Message")),
    Column("score", Some("Score"))
  ]

  /** The reference of a field of a testcase of a subtask: its five parts
      joined by dots. */
  function GenPath(subtask: int, testcase: int, field: string): string {
    DotJoin(["subtask", IntToString(subtask), "testcase", IntToString(testcase), field])
  }

  /** Some texts with a dot between each and the next. */
  function DotJoin(parts: seq<string>): string {
    if parts == [] then ""
    else if |parts| == 1 then parts[0]
    else parts[0] + "." + DotJoin(parts[1..])
  }

  /** The eight cells of a row: the testcase number, then one reference
      per field, in field order. */
  function GenerateCells(subtask: int, testcase: int): (r: seq<Cell>)
    ensures |r| == 1 + |Fields| == 8
    ensures r[0] == Number(testcase)
    ensures forall k :: 1 <= k < |r| ==> r[k] == Ref(GenPath(subtask, testcase, Fields[k - 1]))
  {
    [Number(testcase)] + FieldRefs(subtask, testcase, Fields)
  }

  /** One reference per field, in order. */
  function FieldRefs(subtask: int, testcase: int, fields: seq<string>): (r: seq<Cell>)
    ensures |r| == |fields|
    ensures forall k {:trigger r[k]} :: 0 <= k < |r| ==> r[k] == Ref(GenPath(subtask, testcase, fields[k]))
  {
    if fields == [] then [] else [Ref(GenPath(subtask, testcase, fields[0]))] + FieldRefs(subtask, testcase, fields[1..])
  }

  /** The title of the row of a testcase. As written it shows the
      subtask's number; as intended the testcase's. */
  function RowTitle(subtask: int, testcase: int, intended: bool): string {
    "Test case " + IntToString(if intended then testcase else subtask)
  }

  /** One row per testcase of the subtask, in order. */
  function GenerateTestcases(index: int, testcases: seq<int>, intended: bool): (r: seq<Row>)
    ensures |r| == |testcases|
    ensures forall i {:trigger r[i]} :: 0 <= i < |r| ==> r[i] == Row(RowTitle(index, testcases[i], intended), GenerateCells(index, testcases[i]))
  {
    if testcases == [] then []
    else [Row(RowTitle(index, testcases[0], intended), GenerateCells(index, testcases[0]))] + GenerateTestcases(index, testcases[1..], intended)
  }

  /** One group per subtask, in order, with its maximum score and the
      title "Subtask" and its number. */
  function GenerateSubtasks(subtasks: Subtasks, intended: bool): (r: seq<Group>)
    ensures |r| == |subtasks|
    ensures forall i {:trigger r[i]} :: 0 <= i < |r| ==>
              r[i] == Group(subtasks[i].1.maxScore, "Subtask " + IntToString(subtasks[i].0),
                            GenerateTestcases(subtasks[i].0, subtasks[i].1.testcases, intended))
  {
    if subtasks == [] then []
    else
      [Group(subtasks[0].1.maxScore, "Subtask " + IntToString(subtasks[0].0), GenerateTestcases(subtasks[0].0, subtasks[0].1.testcases, intended))]
      + GenerateSubtasks(subtasks[1..], intended)
  }

  function GenerateTable(subtasks: Subtasks, intended: bool): Table {
    Table("table", Columns, GenerateSubtasks(subtasks, intended))
  }

  /** The columns line up with the cells: the row number over the number,
      the row status over the status, and each other column over the field
      of its own name. */
  lemma ColumnsLineUp(subtask: int, testcase: int)
    ensures |Columns| == |GenerateCells(subtask, testcase)|
    ensures Columns[0].ctype == "row_number" && GenerateCells(subtask, testcase)[0].Number?
    ensures Columns[1].ctype == "row_" + Fields[0]
    ensures forall k :: 2 <= k < |Columns| ==> Columns[k].ctype == Fields[k - 1]
  {
  }

  // ---------------------------------------------------------------------------
  // References are distinct

  predicate NoDot(s: string) {
    forall i :: 0 <= i < |s| ==> s[i] != '.'
  }

  lemma IntToStringNoDot(n: int)
    ensures NoDot(IntToString(n))
  {
    if n < 0 {
      var s := IntToString(n);
      assert s == "-" + NatToString(-n);
      forall i | 0 <= i < |s| ensures s[i] != '.' {
        if i > 0 {
          assert s[i] == NatToString(-n)[i - 1];
        }
      }
    }
  }

  /** The position of the first dot, or the length if there is none. */
  function FirstDot(s: string): (r: nat)
    ensures r <= |s| && (r < |s| ==> s[r] == '.')
    ensures forall j :: 0 <= j < r ==> s[j] != '.'
  {
    if s == [] then 0 else if s[0] == '.' then 0 else 1 + FirstDot(s[1..])
  }

  /** In `p.q` with no dot in `p`, the first dot ends `p`. */
  lemma DotSplit(p: string, q: string, p2: string, q2: string)
    requires NoDot(p) && NoDot(p2) && p + "." + q == p2 + "." + q2
    ensures p == p2 && q == q2
  {
    var s := p + "." + q;
    assert s[|p|] == '.' && forall j :: 0 <= j < |p| ==> s[j] == p[j];
    assert (p2 + "." + q2)[|p2|] == '.' && forall j :: 0 <= j < |p2| ==> s[j] == p2[j];
    assert FirstDot(s) == |p| == |p2|;
    assert p == s[..|p|] == p2;
    assert q == s[|p| + 1..] == q2;
  }

  /** A reference is five dot-separated parts. */
  lemma GenPathSplit(s: int, t: int, f: string)
    ensures GenPath(s, t, f) == "subtask" + "." + (IntToString(s) + "." + ("testcase" + "." + (IntToString(t) + "." + f)))
  {
    var parts := ["subtask", IntToString(s), "testcase", IntToString(t), f];
    DotJoinCons(parts);
    DotJoinCons(parts[1..]);
    DotJoinCons(parts[2..]);
    DotJoinCons(parts[3..]);
    assert parts[4..] == [f];
  }

  /** The first part, a dot, and the rest joined. */
  lemma DotJoinCons(parts: seq<string>)
    requires |parts| >= 2
    ensures DotJoin(parts) == parts[0] + "." + DotJoin(parts[1..])
  {
  }

  /** Two references are equal only for the same subtask, testcase and
      field: a reference names one result of one testcase. */
  lemma GenPathInjective(s1: int, t1: int, f1: string, s2: int, t2: int, f2: string)
    requires GenPath(s1, t1, f1) == GenPath(s2, t2, f2)
    ensures s1 == s2 && t1 == t2 && f1 == f2
  {
    var a1, b1, a2, b2 := IntToString(s1), IntToString(t1), IntToString(s2), IntToString(t2);
    IntToStringNoDot(s1);
    IntToStringNoDot(t1);
    IntToStringNoDot(s2);
    IntToStringNoDot(t2);
    GenPathSplit(s1, t1, f1);
    GenPathSplit(s2, t2, f2);
    assert NoDot("subtask") && NoDot("testcase");
    DotSplit("subtask", a1 + "." + ("testcase" + "." + (b1 + "." + f1)), "subtask", a2 + "." + ("testcase" + "." + (b2 + "." + f2)));
    DotSplit(a1, "testcase" + "." + (b1 + "." + f1), a2, "testcase" + "." + (b2 + "." + f2));
    DotSplit("testcase", b1 + "." + f1, "testcase", b2 + "." + f2);
    DotSplit(b1, f1, b2, f2);
    IntToStringInjective(s1, s2);
    IntToStringInjective(t1, t2);
  }

  /** The keys of the task's mappings, which a dictionary keeps distinct. */
  predicate WellKeyed(subtasks: Subtasks) {
    && (forall i, j :: 0 <= i < j < |subtasks| ==> subtasks[i].0 != subtasks[j].0)
    && (forall i :: 0 <= i < |subtasks| ==> Distinct(subtasks[i].1.testcases))
  }

  /** The cell at a position of the table. */
  predicate CellAt(t: Table, g: int, r: int, c: int) {
    0 <= g < |t.groups| && 0 <= r < |t.groups[g].rows| && 0 <= c < |t.groups[g].rows[r].cells|
  }

  /** The cells of the table: the testcase number first, then the
      references of its testcase. */
  lemma CellOf(subtasks: Subtasks, intended: bool, g: int, r: int, c: int)
    requires CellAt(GenerateTable(subtasks, intended), g, r, c)
    ensures 0 <= g < |subtasks| && 0 <= r < |subtasks[g].1.testcases| && c <= |Fields|
    ensures GenerateTable(subtasks, intended).groups[g].rows[r].cells[c]
            == if c == 0 then Number(subtasks[g].1.testcases[r]) else Ref(GenPath(subtasks[g].0, subtasks[g].1.testcases[r], Fields[c - 1]))
  {
    var groups := GenerateSubtasks(subtasks, intended);
    assert groups[g].rows == GenerateTestcases(subtasks[g].0, subtasks[g].1.testcases, intended);
  }

  /** The fields are seven different names. */
  lemma FieldsDistinct(i: int, j: int)
    requires 0 <= i < |Fields| && 0 <= j < |Fields| && Fields[i] == Fields[j]
    ensures i == j
  {
  }

  /** The cell at a position of the table. */
  function CellIn(t: Table, g: int, r: int, c: int): (cell: Cell)
    requires CellAt(t, g, r, c)
    ensures cell in t.groups[g].rows[r].cells
  {
    t.groups[g].rows[r].cells[c]
  }

  /** A field of a testcase of a subtask, by their positions. */
  predicate FieldAt(subtasks: Subtasks, g: int, r: int, f: int) {
    0 <= g < |subtasks| && 0 <= r < |subtasks[g].1.testcases| && 0 <= f < |Fields|
  }

  /** The path of a field of a testcase of a subtask, by their positions. */
  function PathAt(subtasks: Subtasks, g: int, r: int, f: int): (p: string)
    requires FieldAt(subtasks, g, r, f)
    ensures p == GenPath(subtasks[g].0, subtasks[g].1.testcases[r], Fields[f])
  {
    GenPath(subtasks[g].0, subtasks[g].1.testcases[r], Fields[f])
  }

  /** Every reference in the table is distinct from every other: no
      result is shown twice. */
  lemma TableRefsDistinct(subtasks: Subtasks, intended: bool, g1: int, r1: int, c1: int, g2: int, r2: int, c2: int)
    requires WellKeyed(subtasks)
    requires CellAt(GenerateTable(subtasks, intended), g1, r1, c1) && CellAt(GenerateTable(subtasks, intended), g2, r2, c2)
    requires c1 > 0 && (g1, r1, c1) != (g2, r2, c2)
    ensures CellIn(GenerateTable(subtasks, intended), g1, r1, c1) != CellIn(GenerateTable(subtasks, intended), g2, r2, c2)
  {
    CellRef(subtasks, intended, g1, r1, c1);
    CellRef(subtasks, intended, g2, r2, c2);
    if c2 > 0 {
      PathsDistinct(subtasks, g1, r1, c1 - 1, g2, r2, c2 - 1);
    }
  }

  /** A cell of the table past the first of its row is the reference of
      its field; the first is a number. */
  lemma CellRef(subtasks: Subtasks, intended: bool, g: int, r: int, c: int)
    requires CellAt(GenerateTable(subtasks, intended), g, r, c)
    ensures c == 0 ==> CellIn(GenerateTable(subtasks, intended), g, r, c).Number?
    ensures c > 0 ==> FieldAt(subtasks, g, r, c - 1)
                      && CellIn(GenerateTable(subtasks, intended), g, r, c) == Ref(PathAt(subtasks, g, r, c - 1))
  {
    CellOf(subtasks, intended, g, r, c);
  }

  /** Different fields of testcases of subtasks have different references. */
  lemma PathsDistinct(subtasks: Subtasks, g1: int, r1: int, f1: int, g2: int, r2: int, f2: int)
    requires WellKeyed(subtasks) && FieldAt(subtasks, g1, r1, f1) && FieldAt(subtasks, g2, r2, f2)
    requires (g1, r1, f1) != (g2, r2, f2)
    ensures PathAt(subtasks, g1, r1, f1) != PathAt(subtasks, g2, r2, f2)
  {
    PathsInjective(subtasks, g1, r1, f1, g2, r2, f2);
  }

  /** The references of two fields are equal only for the same subtask,
      testcase and field. */
  lemma PathsInjective(subtasks: Subtasks, g1: int, r1: int, f1: int, g2: int, r2: int, f2: int)
    requires WellKeyed(subtasks) && FieldAt(subtasks, g1, r1, f1) && FieldAt(subtasks, g2, r2, f2)
    ensures PathAt(subtasks, g1, r1, f1) == PathAt(subtasks, g2, r2, f2) ==> (g1, r1, f1) == (g2, r2, f2)
  {
    var st1, st2 := subtasks[g1], subtasks[g2];
    if GenPath(st1.0, st1.1.testcases[r1], Fields[f1]) == GenPath(st2.0, st2.1.testcases[r2], Fields[f2]) {
      GenPathInjective(st1.0, st1.1.testcases[r1], Fields[f1], st2.0, st2.1.testcases[r2], Fields[f2]);
      FieldsDistinct(f1, f2);
      assert g1 == g2;
      assert Distinct(st1.1.testcases);
    }
  }

  // ---------------------------------------------------------------------------
  // Row titles

  /** As written, every row of a subtask carries the same title, the
      subtask's number. */
  lemma RowTitlesRepeat(index: int, testcases: seq<int>, i: int, j: int)
    requires 0 <= i < |testcases| && 0 <= j < |testcases|
    ensures GenerateTestcases(index, testcases, false)[i].title == GenerateTestcases(index, testcases, false)[j].title
            == "Test case " + IntToString(index)
  {
  }

  /** As intended, the rows of a subtask have pairwise distinct titles,
      each naming its testcase. */
  lemma RowTitlesIntended(index: int, testcases: seq<int>, i: int, j: int)
    requires Distinct(testcases) && 0 <= i < |testcases| && 0 <= j < |testcases| && i != j
    ensures GenerateTestcases(index, testcases, true)[i].title == "Test case " + IntToString(testcases[i])
    ensures GenerateTestcases(index, testcases, true)[i].title != GenerateTestcases(index, testcases, true)[j].title
  {
    var a, b := IntToString(testcases[i]), IntToString(testcases[j]);
    if "Test case " + a == "Test case " + b {
      assert a == ("Test case " + a)[10..] == ("Test case " + b)[10..] == b;
      IntToStringInjective(testcases[i], testcases[j]);
    }
  }
}
