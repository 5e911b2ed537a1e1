/** backend/database_service.py: the `reports` table and the upsert that
    stores one analysed report. The database file is the state of a
    `ReportStore`; what SQLite does with the bound values (TEXT affinity, a
    nullable primary key) is written out. */
module DatabaseService {
  import opened Common
  import opened Text

  /** A value as a TEXT column holds it: text, or NULL. */
  type Cell = Option<string>

  /** One row of `reports`, less its `object_name` column, which is the key
      it is filed under. `howReported` is the `method` column (`method` is
      a keyword here). */
  datatype Row = Row(school: Cell, howReported: Cell, phone: Cell, time: Cell,
                     transcriptionText: Cell, submissionTimestamp: Cell)

  /** The rows of `reports`. `object_name` is the primary key, so there is
      at most one row per text key; SQLite lets such a key be NULL, and
      NULL keys never collide, so rows with a NULL key accumulate. */
  datatype Table = Table(keyed: map<string, Row>, unkeyed: seq<Row>)

  /** Number of rows. */
  function Count(t: Table): nat
  {
    |t.keyed| + |t.unkeyed|
  }

  /** What binding one parameter does: the cell stored, the
      sqlite3.Error raised for a type SQLite cannot store (a list or a
      dict), or the OverflowError raised for an integer wider than 64 bits,
      which is not a sqlite3.Error. */
  datatype Binding = Bound(cell: Cell) | Unsupported | TooLarge

  const MinInt64: int := -0x8000_0000_0000_0000
  const MaxInt64: int := 0x7fff_ffff_ffff_ffff

  /** A parameter as stored in a TEXT column: a `None` from `dict.get` or a
      JSON null is NULL, a string is kept, an integer or a boolean (an
      integer 1 or 0 to SQLite) is converted to its decimal text. */
  function Bind(v: Option<Value>): (b: Binding)
    ensures b.TooLarge? <==> v.Some? && v.value.Int? && !(MinInt64 <= v.value.n <= MaxInt64)
    ensures b.Unsupported? <==> v.Some? && (v.value.Array? || v.value.Object?)
    ensures b == Bound(None) <==> v.None? || v == Some(Null)
    ensures v.Some? && v.value.Str? ==> b == Bound(Some(v.value.s))
    ensures v.Some? && v.value.Int? && MinInt64 <= v.value.n <= MaxInt64 ==> b == Bound(Some(IntText(v.value.n)))
    ensures v == Some(Bool(true)) ==> b == Bound(Some("1"))
    ensures v == Some(Bool(false)) ==> b == Bound(Some("0"))
  {
    match v
    case None => Bound(None)
    case Some(x) =>
      match x
      case Str(s) => Bound(Some(s))
      case Int(n) => if MinInt64 <= n <= MaxInt64 then Bound(Some(IntText(n))) else TooLarge
      case Bool(b) => Bound(Some(if b then "1" else "0"))
      case Null => Bound(None)
      case _ => Unsupported
  }

  /** All parameters bound, or the failure of the first that is not. */
  datatype Bindings = AllBound(cells: seq<Cell>) | Failed(first: Binding)

  /** The parameters are bound one by one, left to right; the first that
      fails stops the statement. */
  function BindAll(ps: seq<Option<Value>>): (r: Bindings)
    ensures r.AllBound? <==> forall i :: 0 <= i < |ps| ==> Bind(ps[i]).Bound?
    ensures r.AllBound? ==> |r.cells| == |ps| && forall i :: 0 <= i < |ps| ==> Bind(ps[i]) == Bound(r.cells[i])
    ensures r.Failed? ==> !r.first.Bound?
    ensures r.Failed? ==> exists i :: 0 <= i < |ps| && Bind(ps[i]) == r.first
                                      && forall j :: 0 <= j < i ==> Bind(ps[j]).Bound?
  {
    if ps == [] then AllBound([])
    else
      match Bind(ps[0])
      case Bound(c) =>
        var rest := BindAll(ps[1..]);
        if rest.AllBound? then
          assert forall i :: 1 <= i < |ps| ==> ps[i] == ps[1..][i - 1];
          AllBound([c] + rest.cells)
        else
          var i :| 0 <= i < |ps[1..]| && Bind(ps[1..][i]) == rest.first
                   && forall j :: 0 <= j < i ==> Bind(ps[1..][j]).Bound?;
          assert forall j :: 1 <= j < i + 1 ==> ps[j] == ps[1..][j - 1];
          assert ps[i + 1] == ps[1..][i];
          rest
      case b => Failed(b)
  }

  /** The seven parameters of the INSERT, in column order: the key, the
      five fields read with `dict.get`, and the clock's timestamp. */
  function Params(data: map<string, Value>, now: string): (ps: seq<Option<Value>>)
    requires "object_name" in data
    ensures |ps| == 7
    ensures ps[0] == Some(data["object_name"]) && ps[6] == Some(Str(now))
    ensures ps[1] == Get(data, "school") && ps[2] == Get(data, "method") && ps[3] == Get(data, "phone")
    ensures ps[4] == Get(data, "time") && ps[5] == Get(data, "transcription_text")
  {
    [Some(data["object_name"]), Get(data, "school"), Get(data, "method"), Get(data, "phone"),
     Get(data, "time"), Get(data, "transcription_text"), Some(Str(now))]
  }

  /** `INSERT OR REPLACE`: a row with a text key replaces the row with that
      key, if any; a row with a NULL key is added. */
  function Upsert(t: Table, key: Cell, row: Row): (r: Table)
    ensures key.Some? ==> r.unkeyed == t.unkeyed && key.value in r.keyed && r.keyed[key.value] == row
    ensures key.Some? ==> forall k :: k != key.value ==> (k in r.keyed <==> k in t.keyed)
                                                         && (k in t.keyed ==> r.keyed[k] == t.keyed[k])
    ensures key.Some? ==> Count(r) == Count(t) + (if key.value in t.keyed then 0 else 1)
    ensures key.None? ==> r.keyed == t.keyed && r.unkeyed == t.unkeyed + [row] && Count(r) == Count(t) + 1
  {
    match key
    case None => Table(t.keyed, t.unkeyed + [row])
    case Some(k) =>
      var m := t.keyed[k := row];
      if k in t.keyed then
        assert m.Keys == t.keyed.Keys;
        Table(m, t.unkeyed)
      else
        assert m.Keys == t.keyed.Keys + {k};
        Table(m, t.unkeyed)
  }

  /** `str(object_name)` in the success message, for the values that can
      be bound. */
  function Shown(v: Value): string
  {
    match v
    case Str(s) => s
    case Int(n) => IntText(n)
    case Bool(b) => if b then "True" else "False"
    case Null => "None"
    case _ => ""
  }

  /** The second element of the returned pair, and the one outcome that
      is not a pair. */
  datatype SaveOutcome =
    | Saved(shown: string)  // (True, "数据已成功保存或更新，主键为: " + shown)
    | MissingObjectName     // (False, "缺少 'object_name' 字段")
    | StoreFailed           // (False, "数据库操作失败: ..."), a sqlite3.Error
    | Escaped               // the OverflowError propagates to the caller

  /** Lines 28-62 as a function of the table before the call (None when
      the `reports` table does not exist). `dbFails` says whether opening
      the database or running the statement raised a sqlite3.Error for a
      reason outside the model (an unopenable file, a lock, a full disk). */
  function Save(t: Option<Table>, data: map<string, Value>, now: string, dbFails: bool): (r: (Option<Table>, SaveOutcome))
    ensures "object_name" !in data ==> r == (t, MissingObjectName)
    ensures r.1 == MissingObjectName <==> "object_name" !in data
    ensures r.1 == StoreFailed <==> "object_name" in data
                                    && (dbFails || t.None? || BindAll(Params(data, now)) == Failed(Unsupported))
    ensures !r.1.Saved? ==> r.0 == t
    ensures r.1.Saved? <==> "object_name" in data && t.Some? && !dbFails
                            && BindAll(Params(data, now)).AllBound?
    ensures r.1.Escaped? <==> "object_name" in data && t.Some? && !dbFails
                              && BindAll(Params(data, now)) == Failed(TooLarge)
    ensures r.1.Saved? ==> r.0.Some? && r.1.shown == Shown(data["object_name"])
  {
    if "object_name" !in data then (t, MissingObjectName)
    else if dbFails || t.None? then (t, StoreFailed)
    else
      match BindAll(Params(data, now))
      case Failed(b) => (t, if b.TooLarge? then Escaped else StoreFailed)
      case AllBound(c) =>
        (Some(Upsert(t.value, c[0], Row(c[1], c[2], c[3], c[4], c[5], c[6]))), Saved(Shown(data["object_name"])))
  }

  /** The row a successful save files: each field as bound, and the
      server's clock as the submission time, whatever `data` holds under
      that name. */
  lemma SavedRow(t: Table, data: map<string, Value>, now: string, key: string)
    requires "object_name" in data && Bind(Some(data["object_name"])) == Bound(Some(key))
    requires Save(Some(t), data, now, false).1.Saved?
    ensures var u := Save(Some(t), data, now, false).0.value;
            && key in u.keyed
            && u.keyed[key].submissionTimestamp == Some(now)
            && Bound(u.keyed[key].school) == Bind(Get(data, "school"))
            && Bound(u.keyed[key].howReported) == Bind(Get(data, "method"))
            && Bound(u.keyed[key].phone) == Bind(Get(data, "phone"))
            && Bound(u.keyed[key].time) == Bind(Get(data, "time"))
            && Bound(u.keyed[key].transcriptionText) == Bind(Get(data, "transcription_text"))
  {
    var ps := Params(data, now);
    var c := BindAll(ps).cells;
    assert Bind(ps[0]) == Bound(c[0]);
    assert Bind(ps[6]) == Bound(c[6]);
  }

  /** A save with a text key touches no other row. */
  lemma SaveKeepsOthers(t: Table, data: map<string, Value>, now: string, key: string, other: string)
    requires "object_name" in data && Bind(Some(data["object_name"])) == Bound(Some(key))
    requires Save(Some(t), data, now, false).1.Saved? && other != key
    ensures var u := Save(Some(t), data, now, false).0.value;
            && u.unkeyed == t.unkeyed
            && (other in u.keyed <==> other in t.keyed)
            && (other in t.keyed ==> u.keyed[other] == t.keyed[other])
  {
    var c := BindAll(Params(data, now)).cells;
    assert Bind(Params(data, now)[0]) == Bound(c[0]);
  }

  /** Saving a report for a key already stored replaces its row: the table
      keeps its size; a new key adds one row. */
  lemma SaveCount(t: Table, data: map<string, Value>, now: string, key: string)
    requires "object_name" in data && Bind(Some(data["object_name"])) == Bound(Some(key))
    requires Save(Some(t), data, now, false).1.Saved?
    ensures Count(Save(Some(t), data, now, false).0.value) == Count(t) + (if key in t.keyed then 0 else 1)
  {
    var c := BindAll(Params(data, now)).cells;
    assert Bind(Params(data, now)[0]) == Bound(c[0]);
  }

  /** A second save of a report with the same key replaces the first
      one's row: the table ends as if only the second report had been
      saved. Saving the same report again always succeeds. */
  lemma SaveTwice(t: Table, d1: map<string, Value>, d2: map<string, Value>, now1: string, now2: string, key: string)
    requires "object_name" in d1 && Bind(Some(d1["object_name"])) == Bound(Some(key))
    requires "object_name" in d2 && Bind(Some(d2["object_name"])) == Bound(Some(key))
    requires Save(Some(t), d1, now1, false).1.Saved?
    requires d2 == d1 || Save(Some(t), d2, now2, false).1.Saved?
    ensures Save(Some(t), d2, now2, false).1.Saved?
    ensures Save(Save(Some(t), d1, now1, false).0, d2, now2, false) == Save(Some(t), d2, now2, false)
  {
    if d2 == d1 {
      SaveAgainBinds(d1, now1, now2);
    }
    var c1, c2 := BindAll(Params(d1, now1)).cells, BindAll(Params(d2, now2)).cells;
    assert Bind(Params(d1, now1)[0]) == Bound(c1[0]);
    assert Bind(Params(d2, now2)[0]) == Bound(c2[0]);
    UpsertOverwrite(t, Some(key), Row(c1[1], c1[2], c1[3], c1[4], c1[5], c1[6]),
                    Row(c2[1], c2[2], c2[3], c2[4], c2[5], c2[6]));
  }

  /** The clock's timestamp always binds, so a report whose fields bound
      once bind at any other time. */
  lemma SaveAgainBinds(data: map<string, Value>, now1: string, now2: string)
    requires "object_name" in data && BindAll(Params(data, now1)).AllBound?
    ensures BindAll(Params(data, now2)).AllBound?
  {
    var p1, p2 := Params(data, now1), Params(data, now2);
    assert forall i :: 0 <= i < 6 ==> p1[i] == p2[i];
    assert forall i :: 0 <= i < 7 ==> Bind(p1[i]).Bound?;
  }

  /** An integer key and its decimal text are the same key to the TEXT
      column: the second save replaces the first save's row. */
  lemma IntKeyMatchesTextKey(t: Table, data: map<string, Value>, now: string, n: int)
    requires MinInt64 <= n <= MaxInt64
    requires Save(Some(t), data["object_name" := Int(n)], now, false).1.Saved?
    ensures var d1 := data["object_name" := Int(n)];
            var d2 := data["object_name" := Str(IntText(n))];
            var u := Save(Some(t), d1, now, false).0;
            && Save(u, d2, now, false).1.Saved?
            && Save(u, d2, now, false).0 == u
  {
    var d1 := data["object_name" := Int(n)];
    var d2 := data["object_name" := Str(IntText(n))];
    var p1, p2 := Params(d1, now), Params(d2, now);
    assert p1[1..] == p2[1..];
    BindAllSameHead(p1, p2);
    var c := BindAll(p1).cells;
    assert Bind(p1[0]) == Bound(c[0]);
    var row := Row(c[1], c[2], c[3], c[4], c[5], c[6]);
    UpsertOverwrite(t, c[0], row, row);
  }

  /** Parameter lists that differ only in a first parameter bound to the
      same cell bind alike. */
  lemma BindAllSameHead(ps: seq<Option<Value>>, qs: seq<Option<Value>>)
    requires ps != [] && qs != [] && Bind(ps[0]) == Bind(qs[0]) && ps[1..] == qs[1..]
    ensures BindAll(ps) == BindAll(qs)
  {
  }

  /** Filing a row under a text key twice leaves only the second row. */
  lemma UpsertOverwrite(t: Table, key: Cell, row1: Row, row2: Row)
    requires key.Some?
    ensures Upsert(Upsert(t, key, row1), key, row2) == Upsert(t, key, row2)
  {
    assert t.keyed[key.value := row1][key.value := row2] == t.keyed[key.value := row2];
  }

  /** A report whose key is JSON null is never replaced: each save adds a
      row and leaves the keyed rows alone. */
  lemma NullKeysAccumulate(t: Table, data: map<string, Value>, now: string)
    requires "object_name" in data && data["object_name"] == Null
    ensures var r := Save(Some(t), data, now, false);
            r.1.Saved? ==> && r.1 == Saved("None")
                           && Count(r.0.value) == Count(t) + 1
                           && r.0.value.keyed == t.keyed
                           && |r.0.value.unkeyed| == |t.unkeyed| + 1
                           && r.0.value.unkeyed[..|t.unkeyed|] == t.unkeyed
                           && var row := r.0.value.unkeyed[|t.unkeyed|];
                              && row.submissionTimestamp == Some(now)
                              && Bound(row.school) == Bind(Get(data, "school"))
                              && Bound(row.howReported) == Bind(Get(data, "method"))
                              && Bound(row.phone) == Bind(Get(data, "phone"))
                              && Bound(row.time) == Bind(Get(data, "time"))
                              && Bound(row.transcriptionText) == Bind(Get(data, "transcription_text"))
  {
    var ps := Params(data, now);
    if BindAll(ps).AllBound? {
      var c := BindAll(ps).cells;
      assert Bound(c[0]) == Bind(ps[0]) == Bound(None);
      var u := Save(Some(t), data, now, false).0.value;
      assert u.unkeyed == t.unkeyed + [Row(c[1], c[2], c[3], c[4], c[5], c[6])];
    }
  }

  /** Keys other than the six the statement reads make no difference,
      `submission_timestamp` among them. */
  lemma ExtraFieldsIgnored(t: Option<Table>, data: map<string, Value>, now: string, dbFails: bool,
                           x: string, v: Value)
    requires x !in {"object_name", "school", "method", "phone", "time", "transcription_text"}
    ensures Save(t, data[x := v], now, dbFails) == Save(t, data, now, dbFails)
  {
    var d := data[x := v];
    if "object_name" in data {
      assert Params(d, now) == Params(data, now);
    }
  }

  /** Only the presence of `object_name` is checked: an empty name is a
      key like any other, stored whenever the other fields bind. */
  lemma EmptyNameAccepted(t: Table, data: map<string, Value>, now: string)
    requires "object_name" in data && data["object_name"] == Str("")
    ensures var r := Save(Some(t), data, now, false);
            && (r.1.Saved? <==> forall i :: 1 <= i < 6 ==> Bind(Params(data, now)[i]).Bound?)
            && (r.1.Saved? ==> r.1 == Saved("") && "" in r.0.value.keyed)
  {
    var ps := Params(data, now);
    assert Bind(ps[0]) == Bound(Some(""));
    assert Bind(ps[6]) == Bound(Some(now));
    if BindAll(ps).AllBound? {
      var c := BindAll(ps).cells;
      assert Bind(ps[0]) == Bound(c[0]);
    }
  }

  /** `init_db`: `CREATE TABLE IF NOT EXISTS`. */
  function Init(t: Option<Table>): (r: Option<Table>)
    ensures r.Some?
    ensures t.Some? ==> r == t
    ensures t.None? ==> Count(r.value) == 0
  {
    if t.Some? then t else Some(Table(map[], []))
  }

  /** Initialising again changes nothing, and nothing stored is lost. */
  lemma InitIdempotent(t: Option<Table>)
    ensures Init(Init(t)) == Init(t)
  {
  }

  /** The database file. `table` is None while the `reports` table does not
      exist. */
  class ReportStore {
    var table: Option<Table>

    /** Module load: the file as found, then `init_db()` (line 65). */
    constructor (existing: Option<Table>)
      ensures table == Init(existing)
    {
      table := existing;
      new;
      InitDb();
    }

    /** Lines 10-26. */
    method InitDb()
      modifies this
      ensures table == Init(old(table))
      ensures table.Some?
    {
      if table.None? {
        table := Some(Table(map[], []));
      }
    }

    /** Lines 28-62: `(ok, message)`, with `ok` true exactly when the
        report was stored. */
    method SaveReportData(data: map<string, Value>, now: string, dbFails: bool) returns (ok: bool, outcome: SaveOutcome)
      modifies this
      ensures (table, outcome) == Save(old(table), data, now, dbFails)
      ensures ok <==> outcome.Saved?
      ensures !ok ==> table == old(table)
    {
      if "object_name" !in data {
        return false, MissingObjectName;
      }
      var objectName := data["object_name"];
      var ps := [Some(objectName), Get(data, "school"), Get(data, "method"), Get(data, "phone"),
                 Get(data, "time"), Get(data, "transcription_text"), Some(Str(now))];
      if dbFails || table.None? {
        return false, StoreFailed;
      }
      assert ps == Params(data, now);
      var bound := BindAll(ps);
      match bound {
        case Failed(b) =>
          return false, if b.TooLarge? then Escaped else StoreFailed;
        case AllBound(c) =>
          table := Some(Upsert(table.value, c[0], Row(c[1], c[2], c[3], c[4], c[5], c[6])));
          return true, Saved(Shown(objectName));
      }
    }
  }
}
