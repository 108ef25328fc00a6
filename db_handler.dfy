/** The query layer of db_handler.py. The SQL engine is not modelled: a
    Store answers each query with the rows it retrieved, or with Failed when
    the engine raised DatabaseError. What is modelled is how each query
    function turns those rows into its result, and the CREATE TABLE text
    built from DB_SCHEMA. */
module DbHandler {
  import opened Text
  import opened Dicts

  // ---------------------------------------------------------------------
  // Schema

  datatype Table = Artists | Songs

  function TableName(t: Table): string
  {
    match t
    case Artists => "artists"
    case Songs => "songs"
  }

  /** DB_SCHEMA: for each table, its fields and their SQL types, in order. */
  const DbSchema: Dict<string, Dict<string, string>> := [("artists", ArtistFields), ("songs", SongFields)]

  const ArtistFields: Dict<string, string> := [
    ("artist_id", "INTEGER"), ("artist_names", "TEXT"), ("num_hit_songs", "INTEGER"), ("total_weeks", "INTEGER")]

  const SongFields: Dict<string, string> := [
    ("artist_id", "INTEGER"), ("track_name", "TEXT"), ("duration_ms", "INTEGER"),
    ("peak_rank", "INTEGER"), ("weeks_on_chart", "INTEGER")]

  /** The fields DB_SCHEMA lists for a table. */
  function SchemaFields(t: Table): seq<string>
  {
    match t
    case Artists => Keys(ArtistFields)
    case Songs => Keys(SongFields)
  }

  /** The display key that select and search both match on. */
  function KeyColumn(t: Table): string
  {
    match t
    case Artists => "artist_names"
    case Songs => "track_name"
  }

  // ---------------------------------------------------------------------
  // CREATE TABLE text

  /** The column declarations of each table, comma-separated. */
  const ArtistsColumns := "\"artist_id\" INTEGER" + ", " + "\"artist_names\" TEXT"
                        + ", " + "\"num_hit_songs\" INTEGER" + ", " + "\"total_weeks\" INTEGER"
  const SongsColumns := "\"artist_id\" INTEGER" + ", " + "\"track_name\" TEXT"
                      + ", " + "\"duration_ms\" INTEGER" + ", " + "\"peak_rank\" INTEGER"
                      + ", " + "\"weeks_on_chart\" INTEGER"
  /** The clause load_data adds to the artists statement. */
  const PrimaryKey := "PRIMARY KEY(\"artist_id\")"
  /** The two statements written out. */
  const ArtistsDdl := "CREATE TABLE \"artists\"(" + ArtistsColumns + ", " + PrimaryKey + ");"
  const SongsDdl := "CREATE TABLE \"songs\"(" + SongsColumns + ");"

  function CreatePrefix(tableName: string): string
  {
    "CREATE TABLE \"" + tableName + "\"("
  }

  function FieldDecl(field: (string, string)): string
  {
    "\"" + field.0 + "\" " + field.1
  }

  function FieldDecls(fields: Dict<string, string>): seq<string>
  {
    seq(|fields|, i requires 0 <= i < |fields| => FieldDecl(fields[i]))
  }

  /** The text the field loop appends: each declaration followed by ", ". */
  function DeclsWithCommas(fields: Dict<string, string>): string
  {
    if fields == [] then ""
    else DeclsWithCommas(fields[..|fields| - 1]) + FieldDecl(fields[|fields| - 1]) + ", "
  }

  predicate IsListSeparator(c: char)
  {
    c == ',' || c == ' '
  }

  /** rstrip(", ") takes back exactly the last ", " when the last declared
      type does not itself end in a comma or a space. */
  predicate LastTypeKept(fields: Dict<string, string>)
  {
    fields == [] ||
    var ty := fields[|fields| - 1].1;
    ty != [] && !IsListSeparator(ty[|ty| - 1])
  }

  lemma {:induction false} DeclsAreJoined(fields: Dict<string, string>)
    requires fields != []
    ensures DeclsWithCommas(fields) == Join(", ", FieldDecls(fields)) + ", "
  {
    var n := |fields| - 1;
    var init := fields[..n];
    var d := FieldDecl(fields[n]);
    FieldDeclsSnoc(fields);
    JoinSnoc(", ", FieldDecls(init), d);
    if init != [] {
      DeclsAreJoined(init);
    } else {
      assert DeclsWithCommas(init) + d == d;
    }
  }

  lemma FieldDeclsSnoc(fields: Dict<string, string>)
    requires fields != []
    ensures var n := |fields| - 1;
            FieldDecls(fields) == FieldDecls(fields[..n]) + [FieldDecl(fields[n])] &&
            (FieldDecls(fields[..n]) == [] <==> fields[..n] == [])
  {
  }

  lemma {:induction false} TrimEndSuffix(s: string, t: string)
    requires s == [] || !IsListSeparator(s[|s| - 1])
    requires forall i :: 0 <= i < |t| ==> IsListSeparator(t[i])
    ensures TrimEnd(s + t, IsListSeparator) == s
    decreases |t|
  {
    if t == [] {
      assert s + t == s;
    } else {
      assert (s + t)[..|s + t| - 1] == s + t[..|t| - 1];
      TrimEndSuffix(s, t[..|t| - 1]);
    }
  }

  /** The statement load_data builds for one table: the declarations each
      followed by ", ", then the primary key clause for artists, or, for any
      other table, the text with trailing commas and spaces stripped. */
  function CreateTableText(tableName: string, fields: Dict<string, string>): string
  {
    var q := CreatePrefix(tableName) + DeclsWithCommas(fields);
    (if tableName == "artists" then q + PrimaryKey else TrimEnd(q, IsListSeparator)) + ");"
  }

  /** The statement is the comma-separated declaration list in schema order,
      then the primary key clause for artists; the stripping loses nothing
      but the last ", " when the last type does not end in ',' or ' '. */
  lemma CreateTableJoined(tableName: string, fields: Dict<string, string>)
    ensures tableName == "artists" && fields != [] ==>
      CreateTableText(tableName, fields)
        == CreatePrefix(tableName) + Join(", ", FieldDecls(fields)) + ", " + PrimaryKey + ");"
    ensures tableName != "artists" && LastTypeKept(fields) ==>
      CreateTableText(tableName, fields) == CreatePrefix(tableName) + Join(", ", FieldDecls(fields)) + ");"
  {
    if tableName == "artists" && fields != [] {
      KeyedJoined(tableName, fields);
    } else if tableName != "artists" && LastTypeKept(fields) {
      StrippedJoined(tableName, fields);
    }
  }

  lemma KeyedJoined(tableName: string, fields: Dict<string, string>)
    requires tableName == "artists" && fields != []
    ensures CreateTableText(tableName, fields)
              == CreatePrefix(tableName) + Join(", ", FieldDecls(fields)) + ", " + PrimaryKey + ");"
  {
    var prefix := CreatePrefix(tableName);
    var j := Join(", ", FieldDecls(fields));
    DeclsAreJoined(fields);
    ConcatAssoc(prefix, j, ", ");
  }

  lemma StrippedJoined(tableName: string, fields: Dict<string, string>)
    requires tableName != "artists" && LastTypeKept(fields)
    ensures CreateTableText(tableName, fields) == CreatePrefix(tableName) + Join(", ", FieldDecls(fields)) + ");"
  {
    var prefix := CreatePrefix(tableName);
    var q := prefix + DeclsWithCommas(fields);
    assert CreateTableText(tableName, fields) == TrimEnd(q, IsListSeparator) + ");";
    var decls := FieldDecls(fields);
    var joined := prefix + Join(", ", decls);
    if fields != [] {
      DeclsAreJoined(fields);
      ConcatAssoc(prefix, Join(", ", decls), ", ");
      JoinLastChar(decls);
      assert joined[|joined| - 1] == Join(", ", decls)[|Join(", ", decls)| - 1];
      TrimEndSuffix(joined, ", ");
    } else {
      assert q == prefix + "" && joined == prefix + "";
      TrimEndSuffix(prefix, "");
    }
  }

  lemma {:induction false} JoinLastChar(decls: seq<string>)
    requires decls != [] && decls[|decls| - 1] != []
    ensures var j := Join(", ", decls); j != [] && j[|j| - 1] == decls[|decls| - 1][|decls[|decls| - 1]| - 1]
  {
    if |decls| > 1 {
      JoinLastChar(decls[1..]);
    }
  }

  lemma JoinFour(a: seq<string>)
    requires |a| == 4
    ensures Join(", ", a) == a[0] + ", " + a[1] + ", " + a[2] + ", " + a[3]
  {
    assert a[3..] == [a[3]];
    assert a[2..][1..] == a[3..] && a[1..][1..] == a[2..];
    assert Join(", ", a[2..]) == a[2] + ", " + a[3];
    assert Join(", ", a[1..]) == a[1] + ", " + Join(", ", a[2..]);
  }

  lemma JoinFive(a: seq<string>)
    requires |a| == 5
    ensures Join(", ", a) == a[0] + ", " + a[1] + ", " + a[2] + ", " + a[3] + ", " + a[4]
  {
    JoinFour(a[1..]);
  }

  // One lemma per declaration keeps each literal comparison on its own.
  lemma ArtistDecl0() ensures FieldDecl(ArtistFields[0]) == "\"artist_id\" INTEGER" {}
  lemma ArtistDecl1() ensures FieldDecl(ArtistFields[1]) == "\"artist_names\" TEXT" {}
  lemma ArtistDecl2() ensures FieldDecl(ArtistFields[2]) == "\"num_hit_songs\" INTEGER" {}
  lemma ArtistDecl3() ensures FieldDecl(ArtistFields[3]) == "\"total_weeks\" INTEGER" {}
  lemma SongDecl0() ensures FieldDecl(SongFields[0]) == "\"artist_id\" INTEGER" {}
  lemma SongDecl1() ensures FieldDecl(SongFields[1]) == "\"track_name\" TEXT" {}
  lemma SongDecl2() ensures FieldDecl(SongFields[2]) == "\"duration_ms\" INTEGER" {}
  lemma SongDecl3() ensures FieldDecl(SongFields[3]) == "\"peak_rank\" INTEGER" {}
  lemma SongDecl4() ensures FieldDecl(SongFields[4]) == "\"weeks_on_chart\" INTEGER" {}

  lemma ArtistsPrefix() ensures CreatePrefix("artists") == "CREATE TABLE \"artists\"(" {}
  lemma SongsPrefix() ensures CreatePrefix("songs") == "CREATE TABLE \"songs\"(" {}

  lemma ArtistsJoined()
    ensures CreateTableText(DbSchema[0].0, DbSchema[0].1)
              == CreatePrefix("artists") + Join(", ", FieldDecls(ArtistFields)) + ", " + PrimaryKey + ");"
  {
    CreateTableJoined("artists", ArtistFields);
  }

  lemma SongsJoined()
    ensures CreateTableText(DbSchema[1].0, DbSchema[1].1)
              == CreatePrefix("songs") + Join(", ", FieldDecls(SongFields)) + ");"
  {
    var ty := SongFields[4].1;
    assert ty[|ty| - 1] == 'R';
    assert LastTypeKept(SongFields);
    CreateTableJoined("songs", SongFields);
  }

  lemma ArtistsList()
    ensures Join(", ", FieldDecls(ArtistFields)) == ArtistsColumns
  {
    JoinFour(FieldDecls(ArtistFields));
    ArtistDecl0();
    ArtistDecl1();
    ArtistDecl2();
    ArtistDecl3();
  }

  lemma SongsList()
    ensures Join(", ", FieldDecls(SongFields)) == SongsColumns
  {
    JoinFive(FieldDecls(SongFields));
    SongDecl0();
    SongDecl1();
    SongDecl2();
    SongDecl3();
    SongDecl4();
  }

  /** The statement DB_SCHEMA yields for artists, written out. */
  lemma ArtistsStatement()
    ensures CreateTableText(DbSchema[0].0, DbSchema[0].1) == ArtistsDdl
  {
    ArtistsJoined();
    ArtistsPrefix();
    ArtistsList();
  }

  /** The statement DB_SCHEMA yields for songs, written out. */
  lemma SongsStatement()
    ensures CreateTableText(DbSchema[1].0, DbSchema[1].1) == SongsDdl
  {
    SongsJoined();
    SongsPrefix();
    SongsList();
  }

  /** The loop of load_data that builds one CREATE TABLE statement. */
  method CreateTableStatement(tableName: string, fields: Dict<string, string>) returns (q: string)
    ensures q == CreateTableText(tableName, fields)
  {
    q := CreatePrefix(tableName);
    var i := 0;
    while i < |fields|
      invariant 0 <= i <= |fields|
      invariant q == CreatePrefix(tableName) + DeclsWithCommas(fields[..i])
    {
      assert fields[..i + 1][..i] == fields[..i];
      q := q + FieldDecl(fields[i]) + ", ";
      i := i + 1;
    }
    assert fields[..i] == fields;
    if tableName == "artists" {
      q := q + PrimaryKey;
    } else {
      q := TrimEnd(q, IsListSeparator);
    }
    q := q + ");";
  }

  /** The CREATE TABLE statements load_data runs, in schema order. */
  method SchemaStatements() returns (stmts: seq<string>)
    ensures |stmts| == 2 && stmts[0] == ArtistsDdl && stmts[1] == SongsDdl
  {
    stmts := [];
    var i := 0;
    while i < |DbSchema|
      invariant 0 <= i <= |DbSchema|
      invariant |stmts| == i
      invariant forall j :: 0 <= j < i ==> stmts[j] == CreateTableText(DbSchema[j].0, DbSchema[j].1)
    {
      var q := CreateTableStatement(DbSchema[i].0, DbSchema[i].1);
      stmts := stmts + [q];
      i := i + 1;
    }
    ArtistsStatement();
    SongsStatement();
  }

  // ---------------------------------------------------------------------
  // What the engine returns

  /** A cell as sqlite3 hands it to Python. A REAL cell is carried as the
      text Python's float repr gives it; float arithmetic is not modelled. */
  datatype Value = IntVal(i: int) | TextVal(s: string) | RealVal(repr: string) | NullVal

  /** str(v). */
  function Str(v: Value): string
  {
    match v
    case IntVal(i) => IntToString(i)
    case TextVal(s) => s
    case RealVal(r) => r
    case NullVal => "None"
  }

  type Row = seq<Value>

  /** fetchall() after execute(), or Failed where execute raised DatabaseError. */
  datatype Fetched = Failed | Rows(rows: seq<Row>)

  /** The row queries of the module, named by what they select.
      SelectBy:  SELECT key, columns FROM table WHERE key = "name"
      SongsOf:   SELECT artist_names, track_name FROM artists JOIN songs WHERE artist_names = "artist"
      AuthorOf:  SELECT artist_names FROM artists JOIN songs WHERE track_name = "track"
      SearchBy:  SELECT key FROM table WHERE key LIKE "pattern%" */
  datatype Query =
    | SelectBy(table: Table, key: string, name: string, columns: seq<string>)
    | SongsOf(artist: string)
    | AuthorOf(track: string)
    | SearchBy(table: Table, key: string, pattern: string)

  /** The aggregate queries of data(): COUNT(*) of a table, AVG(duration_ms). */
  datatype Aggregate = CountOf(table: Table) | AverageDuration

  /** The open database as seen through the cursor: the rows each query
      retrieves, and the single cell each aggregate yields (None where the
      engine raised DatabaseError). */
  datatype Store = Store(fetch: Query -> Fetched, aggregate: Aggregate -> Option<Value>)

  function SelectQuery(table: Table, searchable: string, columns: seq<string>): Query
  {
    SelectBy(table, KeyColumn(table), searchable, columns)
  }

  function SearchQuery(table: Table, searchable: string): Query
  {
    SearchBy(table, KeyColumn(table), searchable)
  }

  /** Every row has at least `width` cells: what the engine returns for a
      query selecting `width` columns. */
  predicate Shaped(rows: seq<Row>, width: nat)
  {
    ShapedBelow(rows, width, |rows|)
  }

  /** The rows before index p have at least `width` cells. */
  predicate ShapedBelow(rows: seq<Row>, width: nat, p: nat)
  {
    forall i :: 0 <= i < p && i < |rows| ==> |rows[i]| >= width
  }

  /** The index of the first row with fewer than `width` cells, or |rows|:
      where indexing a row raises IndexError, which the `return` in each
      query's `finally` swallows, ending the loop with what was built. */
  function FirstShort(rows: seq<Row>, width: nat): (p: nat)
    ensures p <= |rows| && ShapedBelow(rows, width, p)
    ensures p < |rows| ==> |rows[p]| < width
  {
    if rows == [] then 0
    else if |rows[0]| < width then 0
    else
      var p := 1 + FirstShort(rows[1..], width);
      assert forall i :: 1 <= i < p ==> rows[i] == rows[1..][i - 1];
      p
  }

  lemma FirstShortAt(rows: seq<Row>, width: nat, i: nat)
    requires i <= |rows| && ShapedBelow(rows, width, i)
    requires i < |rows| ==> |rows[i]| < width
    ensures FirstShort(rows, width) == i
  {
  }

  /** The first cell of each row. */
  function Names(rows: seq<Row>): (names: seq<Value>)
    requires Shaped(rows, 1)
    ensures |names| == |rows|
  {
    seq(|rows|, i requires 0 <= i < |rows| => rows[i][0])
  }

  // ---------------------------------------------------------------------
  // select

  /** The name-keyed result of select: for each name, its column dict. */
  type Selection = Dict<Value, Dict<string, Value>>

  /** The inner dict select fills from one row: columns[c] -> vals[c]
      (vals is the row after its name cell), as far as vals reaches. */
  function Fields(columns: seq<string>, vals: seq<Value>): Dict<string, Value>
  {
    var m := if |columns| <= |vals| then |columns| else |vals|;
    FieldsOf(columns[..m], vals)
  }

  function FieldsOf(columns: seq<string>, vals: seq<Value>): Dict<string, Value>
    requires |columns| <= |vals|
  {
    if columns == [] then []
    else
      var n := |columns| - 1;
      Put(FieldsOf(columns[..n], vals), columns[n], vals[n])
  }

  /** One pass of select's loop: a row without cells changes nothing (the
      IndexError comes before any assignment); otherwise the name maps to a
      fresh column dict, replacing any earlier one in place. */
  function SelectStep(acc: Selection, row: Row, columns: seq<string>): Selection
  {
    if row == [] then acc else Put(acc, row[0], Fields(columns, row[1..]))
  }

  function SelectRows(rows: seq<Row>, columns: seq<string>): Selection
  {
    if rows == [] then []
    else SelectStep(SelectRows(rows[..|rows| - 1], columns), rows[|rows| - 1], columns)
  }

  /** What select returns for what its query retrieved: None on failure;
      otherwise the fold of the rows up to and including the first row too
      short for the columns. */
  function Selected(retrieved: Fetched, columns: seq<string>): Option<Selection>
  {
    match retrieved
    case Failed => None
    case Rows(rows) =>
      var p := FirstShort(rows, |columns| + 1);
      var done := SelectRows(rows[..p], columns);
      Some(if p < |rows| then SelectStep(done, rows[p], columns) else done)
  }

  lemma SelectRowsSnoc(rows: seq<Row>, i: nat, columns: seq<string>)
    requires i < |rows|
    ensures SelectRows(rows[..i + 1], columns) == SelectStep(SelectRows(rows[..i], columns), rows[i], columns)
  {
    assert rows[..i + 1][..i] == rows[..i];
  }

  /** select's inner loop over one row with a name cell: the column dict
      it fills, and whether the row reached every column (no IndexError). */
  method RowFields(row: Row, columns: seq<string>) returns (fields: Dict<string, Value>, complete: bool)
    requires row != []
    ensures fields == Fields(columns, row[1..])
    ensures complete <==> |row| >= |columns| + 1
  {
    fields := [];
    var col := 0;
    while col < |columns|
      invariant 0 <= col <= |columns| && col < |row|
      invariant fields == FieldsOf(columns[..col], row[1..])
    {
      if col + 1 >= |row| {
        break;
      }
      assert columns[..col + 1][..col] == columns[..col];
      fields := Put(fields, columns[col], row[col + 1]);
      col := col + 1;
    }
    assert col == if |columns| <= |row[1..]| then |columns| else |row[1..]|;
    complete := col == |columns|;
  }

  /** select(cur, searchable, table, columns). */
  method Select(db: Store, searchable: string, table: Table, columns: seq<string>)
    returns (allResults: Option<Selection>)
    ensures allResults == Selected(db.fetch(SelectQuery(table, searchable, columns)), columns)
  {
    var retrieved := db.fetch(SelectQuery(table, searchable, columns));
    if retrieved.Failed? {
      return None;
    }
    var rows := retrieved.rows;
    var width := |columns| + 1;
    var acc: Selection := [];
    var i := 0;
    while i < |rows|
      invariant 0 <= i <= |rows|
      invariant ShapedBelow(rows, width, i)
      invariant acc == SelectRows(rows[..i], columns)
    {
      var row := rows[i];
      SelectRowsSnoc(rows, i, columns);
      if row == [] {
        FirstShortAt(rows, width, i);
        break;
      }
      var name := row[0];
      var fields, complete := RowFields(row, columns);
      acc := Put(acc, name, fields);
      if !complete {
        FirstShortAt(rows, width, i);
        break;
      }
      i := i + 1;
    }
    if i == |rows| {
      assert rows[..i] == rows;
      FirstShortAt(rows, width, i);
    }
    return Some(acc);
  }

  // ---------------------------------------------------------------------
  // What select's dict holds

  /** The rows before the first one too short for `width` columns. */
  function UntilShort(rows: seq<Row>, width: nat): (r: seq<Row>)
    ensures r == rows[..FirstShort(rows, width)]
    ensures Shaped(r, width)
  {
    var p := FirstShort(rows, width);
    assert forall i :: 0 <= i < p ==> rows[..p][i] == rows[i];
    rows[..p]
  }

  /** On rows that all carry a name and every column, select returns the
      fold of all of them. */
  lemma SelectedShaped(rows: seq<Row>, columns: seq<string>)
    requires Shaped(rows, |columns| + 1)
    ensures Selected(Rows(rows), columns) == Some(SelectRows(rows, columns))
  {
    FirstShortAt(rows, |columns| + 1, |rows|);
    assert rows[..|rows|] == rows;
  }

  lemma NamesPrefix(rows: seq<Row>, n: nat)
    requires Shaped(rows, 1) && n <= |rows|
    ensures Shaped(rows[..n], 1) && Names(rows[..n]) == Names(rows)[..n]
  {
    assert forall i :: 0 <= i < n ==> rows[..n][i] == rows[i];
  }

  /** The names of select's dict are the distinct names of the rows, in the
      order each first appears. */
  lemma {:induction false} SelectRowsKeys(rows: seq<Row>, columns: seq<string>)
    requires Shaped(rows, 1)
    ensures Keys(SelectRows(rows, columns)) == FirstOccurrences(Names(rows))
  {
    if rows != [] {
      var n := |rows| - 1;
      NamesPrefix(rows, n);
      SelectRowsKeys(rows[..n], columns);
      FirstOccurrencesSpec(Names(rows[..n]));
      var names := Names(rows);
      assert names[..|names| - 1] == Names(rows[..n]);
    }
  }

  /** The index of the last row named k, or -1. */
  function LastNamed(rows: seq<Row>, k: Value): (j: int)
    requires Shaped(rows, 1)
    ensures -1 <= j < |rows|
    ensures j == -1 <==> k !in Names(rows)
    ensures 0 <= j ==> rows[j][0] == k
    ensures forall i :: j < i < |rows| ==> rows[i][0] != k
  {
    if rows == [] then -1
    else
      var n := |rows| - 1;
      if rows[n][0] == k then assert Names(rows)[n] == k; n
      else
        NamesPrefix(rows, n);
        assert Names(rows) == Names(rows[..n]) + [rows[n][0]];
        LastNamed(rows[..n], k)
  }

  /** Each name maps to the column dict of the last row that carries it:
      a later row with the same name overwrites the earlier one. */
  lemma {:induction false} SelectRowsLookup(rows: seq<Row>, columns: seq<string>, k: Value)
    requires Shaped(rows, 1)
    ensures var j := LastNamed(rows, k);
            Lookup(SelectRows(rows, columns), k) == if j < 0 then None else Some(Fields(columns, rows[j][1..]))
  {
    if rows != [] {
      var n := |rows| - 1;
      NamesPrefix(rows, n);
      SelectRowsLookup(rows[..n], columns, k);
      SelectRowsLast(rows, columns);
      LookupPut(SelectRows(rows[..n], columns), rows[n][0], Fields(columns, rows[n][1..]), k);
      if rows[n][0] != k {
        LastNamedEarlier(rows, k);
      }
    }
  }

  lemma SelectRowsLast(rows: seq<Row>, columns: seq<string>)
    requires Shaped(rows, 1) && rows != []
    ensures var n := |rows| - 1;
            SelectRows(rows, columns) == Put(SelectRows(rows[..n], columns), rows[n][0], Fields(columns, rows[n][1..]))
  {
    assert rows[|rows| - 1] != [];
  }

  /** When the last row has another name, the last row named k is an
      earlier one. */
  lemma LastNamedEarlier(rows: seq<Row>, k: Value)
    requires Shaped(rows, 1) && rows != [] && rows[|rows| - 1][0] != k
    ensures var n := |rows| - 1;
            Shaped(rows[..n], 1) &&
            var j := LastNamed(rows[..n], k);
            LastNamed(rows, k) == j && (0 <= j ==> rows[..n][j] == rows[j])
  {
    NamesPrefix(rows, |rows| - 1);
  }

  lemma {:induction false} FieldsOfKeys(columns: seq<string>, vals: seq<Value>)
    requires |columns| <= |vals| && Distinct(columns)
    ensures Keys(FieldsOf(columns, vals)) == columns
  {
    if columns != [] {
      var n := |columns| - 1;
      var prev := columns[..n];
      DistinctPrefix(columns, n);
      FieldsOfKeys(prev, vals);
      assert columns[n] !in prev by {
        forall i | 0 <= i < n ensures prev[i] != columns[n] {
          assert prev[i] == columns[i];
        }
      }
      assert Keys(FieldsOf(columns, vals)) == prev + [columns[n]];
      assert columns == prev + [columns[n]];
    }
  }

  lemma {:induction false} FieldsOfLookup(columns: seq<string>, vals: seq<Value>, c: int)
    requires |columns| <= |vals| && Distinct(columns) && 0 <= c < |columns|
    ensures Lookup(FieldsOf(columns, vals), columns[c]) == Some(vals[c])
  {
    var n := |columns| - 1;
    var prev := columns[..n];
    LookupPut(FieldsOf(prev, vals), columns[n], vals[n], columns[c]);
    if c < n {
      assert columns[c] != columns[n];
      assert prev[c] == columns[c];
      DistinctPrefix(columns, n);
      FieldsOfLookup(prev, vals, c);
    }
  }

  /** With distinct column names, the column dict of a row lists the columns
      the row reaches, in order, each holding the cell after the name in
      the same position. */
  lemma FieldsZip(columns: seq<string>, vals: seq<Value>)
    requires Distinct(columns)
    ensures var m := if |columns| <= |vals| then |columns| else |vals|;
            Keys(Fields(columns, vals)) == columns[..m] &&
            forall c :: 0 <= c < m ==> Lookup(Fields(columns, vals), columns[c]) == Some(vals[c])
  {
    var m := if |columns| <= |vals| then |columns| else |vals|;
    assert Distinct(columns[..m]);
    FieldsOfKeys(columns[..m], vals);
    forall c | 0 <= c < m
      ensures Lookup(Fields(columns, vals), columns[c]) == Some(vals[c])
    {
      FieldsOfLookup(columns[..m], vals, c);
    }
  }

  lemma {:induction false} SelectRowsNonEmpty(rows: seq<Row>, columns: seq<string>)
    requires rows != [] && rows[0] != []
    ensures SelectRows(rows, columns) != []
  {
    var n := |rows| - 1;
    var last := rows[n];
    if last == [] {
      SelectRowsNonEmpty(rows[..n], columns);
    }
  }

  /** select's dict is empty exactly when the engine returned no rows or a
      first row without cells: the test parse_input applies to its
      existence probe. */
  lemma SelectedEmpty(rows: seq<Row>, columns: seq<string>)
    ensures Selected(Rows(rows), columns) == Some([]) <==> rows == [] || rows[0] == []
  {
    var p := FirstShort(rows, |columns| + 1);
    if rows != [] && rows[0] != [] {
      if p == 0 {
        assert SelectRows(rows[..p], columns) == [];
      } else {
        assert rows[..p][0] == rows[0];
        SelectRowsNonEmpty(rows[..p], columns);
        if p < |rows| && rows[p] != [] {
          assert SelectStep(SelectRows(rows[..p], columns), rows[p], columns) != [];
        }
      }
    } else if rows != [] {
      assert p == 0;
    }
  }

  // ---------------------------------------------------------------------
  // join_songlist

  /** Artist name -> the tracks of that artist, as join_songlist builds it. */
  type Songlists = Dict<Value, seq<Value>>

  /** One pass of join_songlist's loop: the track is appended to the
      artist's list, or starts a new one. A row without both cells raises
      IndexError before anything is assigned. */
  function SonglistStep(acc: Songlists, row: Row): Songlists
  {
    if |row| < 2 then acc
    else
      match Lookup(acc, row[0])
      case Some(tracks) => Put(acc, row[0], tracks + [row[1]])
      case None => Put(acc, row[0], [row[1]])
  }

  function SonglistRows(rows: seq<Row>): Songlists
  {
    if rows == [] then [] else SonglistStep(SonglistRows(rows[..|rows| - 1]), rows[|rows| - 1])
  }

  /** What join_songlist returns for what its query retrieved. */
  function Songlisted(retrieved: Fetched): Option<Songlists>
  {
    match retrieved
    case Failed => None
    case Rows(rows) => Some(SonglistRows(UntilShort(rows, 2)))
  }

  lemma SonglistRowsSnoc(rows: seq<Row>, i: nat)
    requires i < |rows|
    ensures SonglistRows(rows[..i + 1]) == SonglistStep(SonglistRows(rows[..i]), rows[i])
  {
    assert rows[..i + 1][..i] == rows[..i];
  }

  /** join_songlist(cur, searchable). */
  method JoinSonglist(db: Store, searchable: string) returns (allResults: Option<Songlists>)
    ensures allResults == Songlisted(db.fetch(SongsOf(searchable)))
  {
    var retrieved := db.fetch(SongsOf(searchable));
    if retrieved.Failed? {
      return None;
    }
    var rows := retrieved.rows;
    var acc: Songlists := [];
    var i := 0;
    while i < |rows|
      invariant 0 <= i <= |rows|
      invariant ShapedBelow(rows, 2, i)
      invariant acc == SonglistRows(rows[..i])
    {
      var row := rows[i];
      if |row| < 2 {
        FirstShortAt(rows, 2, i);
        return Some(acc);
      }
      SonglistRowsSnoc(rows, i);
      var name := row[0];
      var tracks := Lookup(acc, name);
      if tracks.Some? {
        acc := Put(acc, name, tracks.value + [row[1]]);
      } else {
        acc := Put(acc, name, [row[1]]);
      }
      assert ShapedBelow(rows, 2, i + 1);
      i := i + 1;
    }
    assert rows[..i] == rows;
    FirstShortAt(rows, 2, i);
    return Some(acc);
  }

  /** The second cells of the rows whose first cell is k, in row order. */
  function TracksOf(rows: seq<Row>, k: Value): seq<Value>
    requires Shaped(rows, 2)
  {
    if rows == [] then []
    else
      var n := |rows| - 1;
      assert Shaped(rows[..n], 2) by {
        assert forall i :: 0 <= i < n ==> rows[..n][i] == rows[i];
      }
      TracksOf(rows[..n], k) + (if rows[n][0] == k then [rows[n][1]] else [])
  }

  lemma ShapedPrefix(rows: seq<Row>, width: nat, n: nat)
    requires Shaped(rows, width) && n <= |rows|
    ensures Shaped(rows[..n], width)
  {
    assert forall i :: 0 <= i < n ==> rows[..n][i] == rows[i];
  }

  /** The songlist of an artist holds every track of that artist's rows,
      in row order; a name with no row has no entry. */
  lemma {:induction false} SonglistRowsLookup(rows: seq<Row>, k: Value)
    requires Shaped(rows, 2)
    ensures Shaped(rows, 1)
    ensures Lookup(SonglistRows(rows), k) == if k in Names(rows) then Some(TracksOf(rows, k)) else None
  {
    if rows != [] {
      var n := |rows| - 1;
      var init := rows[..n];
      ShapedPrefix(rows, 2, n);
      NamesPrefix(rows, n);
      SonglistRowsLookup(init, k);
      NamesLast(rows);
      TracksOfLast(rows, k);
      SonglistStepLookup(SonglistRows(init), rows[n], k);
      if rows[n][0] == k && k !in Names(init) {
        TracksOfAbsent(init, k);
        assert [] + [rows[n][1]] == [rows[n][1]];
      }
    }
  }

  lemma NamesLast(rows: seq<Row>)
    requires Shaped(rows, 1) && rows != []
    ensures var n := |rows| - 1;
            Shaped(rows[..n], 1) && Names(rows) == Names(rows[..n]) + [rows[n][0]]
  {
    NamesPrefix(rows, |rows| - 1);
  }

  lemma TracksOfLast(rows: seq<Row>, k: Value)
    requires Shaped(rows, 2) && rows != []
    ensures var n := |rows| - 1;
            Shaped(rows[..n], 2) &&
            TracksOf(rows, k) == if rows[n][0] == k then TracksOf(rows[..n], k) + [rows[n][1]] else TracksOf(rows[..n], k)
  {
    var n := |rows| - 1;
    ShapedPrefix(rows, 2, n);
    if rows[n][0] != k {
      assert TracksOf(rows[..n], k) + [] == TracksOf(rows[..n], k);
    }
  }

  /** One step of join_songlist's loop, read at key k. */
  lemma SonglistStepLookup(acc: Songlists, row: Row, k: Value)
    requires |row| >= 2
    ensures Lookup(SonglistStep(acc, row), k) ==
              if row[0] != k then Lookup(acc, k)
              else Some((if Lookup(acc, k).Some? then Lookup(acc, k).value else []) + [row[1]])
  {
    match Lookup(acc, row[0])
    case Some(tracks) => LookupPut(acc, row[0], tracks + [row[1]], k);
    case None =>
      LookupPut(acc, row[0], [row[1]], k);
      assert [] + [row[1]] == [row[1]];
  }

  lemma {:induction false} TracksOfAbsent(rows: seq<Row>, k: Value)
    requires Shaped(rows, 2)
    ensures Shaped(rows, 1)
    ensures k !in Names(rows) ==> TracksOf(rows, k) == []
  {
    if rows != [] {
      var n := |rows| - 1;
      ShapedPrefix(rows, 2, n);
      NamesPrefix(rows, n);
      TracksOfAbsent(rows[..n], k);
      assert Names(rows) == Names(rows[..n]) + [rows[n][0]];
    }
  }

  /** The artists of join_songlist's dict are the distinct names of the
      rows, in the order each first appears. */
  lemma {:induction false} SonglistRowsKeys(rows: seq<Row>)
    requires Shaped(rows, 2)
    ensures Shaped(rows, 1)
    ensures Keys(SonglistRows(rows)) == FirstOccurrences(Names(rows))
  {
    if rows != [] {
      var n := |rows| - 1;
      ShapedPrefix(rows, 2, n);
      NamesPrefix(rows, n);
      SonglistRowsKeys(rows[..n]);
      FirstOccurrencesSpec(Names(rows[..n]));
      var names := Names(rows);
      assert names[..|names| - 1] == Names(rows[..n]);
      var acc := SonglistRows(rows[..n]);
      assert Lookup(acc, rows[n][0]).None? <==> rows[n][0] !in Keys(acc);
    }
  }

  /** On rows that all carry an artist and a track, join_songlist groups
      all of them. */
  lemma SonglistedShaped(rows: seq<Row>)
    requires Shaped(rows, 2)
    ensures Songlisted(Rows(rows)) == Some(SonglistRows(rows))
  {
    FirstShortAt(rows, 2, |rows|);
    assert rows[..|rows|] == rows;
  }

  /** The number of tracks over all lists. */
  function TotalTracks(d: Songlists): nat
  {
    if d == [] then 0 else |d[0].1| + TotalTracks(d[1..])
  }

  /** d[k] = v changes the total by the length of v less that of the list
      it replaces. */
  lemma {:induction false} TotalTracksPut(d: Songlists, k: Value, v: seq<Value>)
    ensures TotalTracks(Put(d, k, v)) + (if Lookup(d, k).Some? then |Lookup(d, k).value| else 0)
              == TotalTracks(d) + |v|
  {
    if d != [] {
      if d[0].0 == k {
        assert ([(k, v)] + d[1..])[1..] == d[1..];
      } else {
        TotalTracksPut(d[1..], k, v);
        var rest := Put(d[1..], k, v);
        assert ([d[0]] + rest)[1..] == rest;
      }
    }
  }

  /** Every row's track lands in exactly one list: the lengths of the lists
      add up to the number of rows. */
  lemma {:induction false} SonglistTotal(rows: seq<Row>)
    requires Shaped(rows, 2)
    ensures TotalTracks(SonglistRows(rows)) == |rows|
  {
    if rows != [] {
      var n := |rows| - 1;
      ShapedPrefix(rows, 2, n);
      SonglistTotal(rows[..n]);
      var acc := SonglistRows(rows[..n]);
      var row := rows[n];
      match Lookup(acc, row[0])
      case Some(tracks) => TotalTracksPut(acc, row[0], tracks + [row[1]]);
      case None => TotalTracksPut(acc, row[0], [row[1]]);
    }
  }

  // ---------------------------------------------------------------------
  // search

  /** What search returns for what its query retrieved: the first cell of
      each row, up to the first row without one. */
  function Searched(retrieved: Fetched): Option<seq<Value>>
  {
    match retrieved
    case Failed => None
    case Rows(rows) => Some(Names(UntilShort(rows, 1)))
  }

  /** search(cur, table, searchable). */
  method Search(db: Store, table: Table, searchable: string) returns (result: Option<seq<Value>>)
    ensures result == Searched(db.fetch(SearchQuery(table, searchable)))
  {
    var retrieved := db.fetch(SearchQuery(table, searchable));
    if retrieved.Failed? {
      return None;
    }
    var rows := retrieved.rows;
    var names: seq<Value> := [];
    var i := 0;
    while i < |rows|
      invariant 0 <= i <= |rows|
      invariant ShapedBelow(rows, 1, i)
      invariant |names| == i && forall j :: 0 <= j < i ==> names[j] == rows[j][0]
    {
      if rows[i] == [] {
        break;
      }
      names := names + [rows[i][0]];
      i := i + 1;
    }
    FirstShortAt(rows, 1, i);
    SearchedNames(rows, i, names);
    return Some(names);
  }

  lemma SearchedNames(rows: seq<Row>, p: nat, names: seq<Value>)
    requires p == FirstShort(rows, 1)
    requires |names| == p && forall j :: 0 <= j < p ==> names[j] == rows[j][0]
    ensures Searched(Rows(rows)) == Some(names)
  {
    var r := UntilShort(rows, 1);
    assert forall j :: 0 <= j < p ==> r[j] == rows[j];
    assert Names(r) == names;
  }

  /** On rows that all carry a name, search returns one name per row, in
      row order. */
  lemma SearchedShaped(rows: seq<Row>)
    requires Shaped(rows, 1)
    ensures var r := Searched(Rows(rows));
            r.Some? && |r.value| == |rows| && forall i :: 0 <= i < |rows| ==> r.value[i] == rows[i][0]
  {
    FirstShortAt(rows, 1, |rows|);
    assert rows[..|rows|] == rows;
  }

  /** A failed query gives None and a query that matches nothing gives the
      empty dict or list, never None. */
  lemma NoMatchIsEmpty(columns: seq<string>)
    ensures Selected(Failed, columns) == None && Selected(Rows([]), columns) == Some([])
    ensures Songlisted(Failed) == None && Songlisted(Rows([])) == Some([])
    ensures Searched(Failed) == None && Searched(Rows([])) == Some([])
  {
    SelectedEmpty([], columns);
    assert UntilShort([], 2) == [];
    assert UntilShort([], 1) == [];
  }

  // ---------------------------------------------------------------------
  // join_author

  /** join_author(cur, searchable): the first cell of the first row, the
      empty string where there is none (the IndexError is swallowed), None
      on failure. */
  function JoinAuthor(db: Store, searchable: string): (r: Option<Value>)
    ensures r.None? <==> db.fetch(AuthorOf(searchable)).Failed?
    ensures var f := db.fetch(AuthorOf(searchable));
            f.Rows? && f.rows != [] && f.rows[0] != [] ==> r == Some(f.rows[0][0])
    ensures var f := db.fetch(AuthorOf(searchable));
            f.Rows? && (f.rows == [] || f.rows[0] == []) ==> r == Some(TextVal(""))
  {
    match db.fetch(AuthorOf(searchable))
    case Failed => None
    case Rows(rows) => if rows != [] && rows[0] != [] then Some(rows[0][0]) else Some(TextVal(""))
  }

  // ---------------------------------------------------------------------
  // data

  /** What data returns: a string, the empty dict {} it starts from, or None. */
  datatype DataResult = DataNone | DataEmptyDict | DataText(text: string)

  /** The aggregate each data keyword asks for, and the sentence it reports. */
  function AggregateFor(keyword: string): Option<(Aggregate, string)>
  {
    if keyword == "artists" then Some((CountOf(Artists), "The total number of artists stored is: "))
    else if keyword == "songs" then Some((CountOf(Songs), "The total number of songs stored is: "))
    else if keyword == "duration" then Some((AverageDuration, "The average duration of songs store in ms is: "))
    else None
  }

  /** data(cur, keyword). */
  function Data(db: Store, keyword: string): (r: DataResult)
    ensures AggregateFor(keyword).None? ==> r == DataEmptyDict
    ensures AggregateFor(keyword).Some? ==>
              var (a, sentence) := AggregateFor(keyword).value;
              match db.aggregate(a)
              case None => r == DataNone
              case Some(v) => r == DataText(sentence + Str(v))
  {
    if keyword == "artists" then
      match db.aggregate(CountOf(Artists))
      case None => DataNone
      case Some(v) => DataText("The total number of artists stored is: " + Str(v))
    else if keyword == "songs" then
      match db.aggregate(CountOf(Songs))
      case None => DataNone
      case Some(v) => DataText("The total number of songs stored is: " + Str(v))
    else if keyword == "duration" then
      match db.aggregate(AverageDuration)
      case None => DataNone
      case Some(v) => DataText("The average duration of songs store in ms is: " + Str(v))
    else DataEmptyDict
  }
}
