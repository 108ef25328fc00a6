/** parse_input: what one line typed at the prompt asks for, and what the
    program prints in answer. Whether music.db exists is the parameter
    `loaded`; the database is the Store the queries read. */
module Parse {
  import opened Text
  import opened Dicts
  import opened DbHandler
  import opened Presenters

  /** What one call of parse_input does. */
  datatype Outcome =
    | LoadRequested                             // load_data(), then "Successfully loaded data."
    | HelpRequested                             // display_help()
    | Printed(issued: seq<Query>, text: string) // the row queries run, and the text printed
    | Raised(issued: seq<Query>)                // TypeError out of search(...) + search(...)

  /** The line read before any query: a fixed command, a query about a
      named artist or song, or a line rejected with a reason. */
  datatype Request =
    | Load
    | Help
    | Stats(keyword: string)
    | Rejected(reason: string)
    | Named(table: Table, name: string, action: string)

  /** What a keyword after the entity asks for. */
  datatype Action = ListSongs | ShowColumns(columns: seq<string>) | ShowAuthor | SearchNames

  const NotLoaded := "You haven't loaded the data yet. Please execute LOAD DATA."

  /** What the handler of InvalidInput prints. */
  function InvalidInput(reason: string): string
  {
    " Invalid Input: " + reason + " Please try again."
  }

  function NotFound(name: string, t: Table): string
  {
    "\"" + name + "\" was not found in the " + TableName(t) + " database."
  }

  /** The first keyword names the table. */
  function EntityOf(word: string): Option<Table>
  {
    if word == "ARTIST" then Some(Artists)
    else if word == "SONG" then Some(Songs)
    else None
  }

  /** The second keyword, per table. SEARCH is an action of both tables,
      SONGLIST only of artists and AUTHOR only of songs; every other action
      selects one of the column lists the table offers. */
  function ActionFor(t: Table, word: string): (a: Option<Action>)
    ensures a == Some(SearchNames) <==> word == "SEARCH"
    ensures a == Some(ListSongs) <==> t == Artists && word == "SONGLIST"
    ensures a == Some(ShowAuthor) <==> t == Songs && word == "AUTHOR"
    ensures a.Some? && a.value.ShowColumns? ==> a.value.columns in ColumnChoices(t)
  {
    match t
    case Artists =>
      if word == "SONGLIST" then Some(ListSongs)
      else if word == "HITS" then Some(ShowColumns(["num_hit_songs"]))
      else if word == "WEEKS" then Some(ShowColumns(["total_weeks"]))
      else if word == "INFO" then Some(ShowColumns(["num_hit_songs", "total_weeks"]))
      else if word == "SEARCH" then Some(SearchNames)
      else None
    case Songs =>
      if word == "AUTHOR" then Some(ShowAuthor)
      else if word == "DURATION" then Some(ShowColumns(["duration_ms"]))
      else if word == "RANK" then Some(ShowColumns(["peak_rank"]))
      else if word == "WEEK" then Some(ShowColumns(["weeks_on_chart"]))
      else if word == "INFO" then Some(ShowColumns(["duration_ms", "peak_rank", "weeks_on_chart"]))
      else if word == "SEARCH" then Some(SearchNames)
      else None
  }

  /** The column the existence probe selects. */
  function ProbeColumn(t: Table): string
  {
    match t
    case Artists => "total_weeks"
    case Songs => "weeks_on_chart"
  }

  function ProbeQuery(t: Table, name: string): Query
  {
    SelectQuery(t, name, [ProbeColumn(t)])
  }

  /** Only the line LOAD DATA, in any case and with any surrounding
      whitespace, asks for the load; every other line meets the gate. */
  lemma ClassifyLoad(line: string)
    ensures Classify(line) == Load <==> Upper(Strip(line)) == "LOAD DATA"
  {
    FixedLoad(Upper(Strip(line)));
  }

  lemma FixedLoad(cmd: string)
    ensures FixedRequest(cmd) == Some(Load) <==> cmd == "LOAD DATA"
  {
  }

  /** A line that is no fixed command and does not hold exactly two
      quotation marks is rejected as not recognised. */
  lemma UnquotedRejected(line: string)
    requires FixedRequest(Upper(Strip(line))).None? && Count(Strip(line), '"') != 2
    ensures Classify(line) == Rejected("Command not recognised.")
  {
  }

  /** Two quotation marks stand apart. */
  lemma QuotesApart(s: string)
    requires Count(s, '"') == 2
    ensures 0 <= Find(s, '"') < RFind(s, '"')
  {
    CountZero(s, '"');
    var f := Find(s, '"');
    var r := RFind(s, '"');
    if f == r {
      assert s == s[..f] + [s[f]] + s[f + 1..];
      CountZero(s[..f], '"');
    }
  }

  /** The text between the first and the last quotation mark. */
  function NameOf(s: string): string
    requires Count(s, '"') == 2
  {
    QuotesApart(s);
    s[Find(s, '"') + 1..RFind(s, '"')]
  }

  /** The keywords after the last quotation mark, upper-cased. */
  function WordsOf(s: string): seq<string>
  {
    Split(Strip(Upper(s[RFind(s, '"') + 1..])))
  }

  /** The commands recognised before any quotation is looked at, compared
      with the stripped, upper-cased line. */
  function FixedRequest(cmd: string): (r: Option<Request>)
    ensures r.Some? ==> r.value.Load? || r.value.Help? || r.value.Stats?
  {
    if cmd == "LOAD DATA" then Some(Load)
    else if cmd == "HELP" then Some(Help)
    else if cmd == "TOTAL ARTISTS" then Some(Stats("artists"))
    else if cmd == "TOTAL SONGS" then Some(Stats("songs"))
    else if cmd == "AVG DURATION" then Some(Stats("duration"))
    else None
  }

  /** The rest of the parse, on the stripped line: the quotation marks,
      the name between them and the two keywords after them. */
  function QuotedRequest(s: string): (r: Request)
    ensures r.Named? || r.Rejected?
    ensures Count(s, '"') != 2 ==> r == Rejected("Command not recognised.")
  {
    if Count(s, '"') != 2 then Rejected("Command not recognised.")
    else
      var words := WordsOf(s);
      if |words| < 2 then Rejected("Invalid number of commands.")
      else
        match EntityOf(words[0])
        case None => Rejected(words[0])
        case Some(t) => Named(t, NameOf(s), words[1])
  }

  /** Everything parse_input decides from the line alone: the quoted
      parse, a query about a name or a rejection, is the outcome exactly
      when the stripped, upper-cased line is no fixed command. */
  function Classify(line: string): (r: Request)
    ensures r.Named? || r.Rejected? <==> FixedRequest(Upper(Strip(line))).None?
  {
    var s := Strip(line);
    match FixedRequest(Upper(s))
    case Some(r) => r
    case None => QuotedRequest(s)
  }

  /** parse_input(conx, user_input). */
  method ParseInput(loaded: bool, userInput: string, db: Store) returns (out: Outcome)
    ensures Classify(userInput).Load? ==> out == LoadRequested
    ensures !Classify(userInput).Load? && !loaded ==> out == Printed([], NotLoaded)
    ensures loaded && Classify(userInput).Help? ==> out == HelpRequested
    ensures loaded && Classify(userInput).Stats? ==>
              out == Printed([], DisplayData(Data(db, Classify(userInput).keyword)))
    ensures loaded && Classify(userInput).Rejected? ==>
              out == Printed([], InvalidInput(Classify(userInput).reason))
    ensures loaded && Classify(userInput).Named? ==>
              var Named(t, name, action) := Classify(userInput);
              var probe := ProbeQuery(t, name);
              var probed := if action == "SEARCH" then [] else [probe];
              if action != "SEARCH" && Selected(db.fetch(probe), [ProbeColumn(t)]) == Some([]) then
                out == Printed([probe], InvalidInput(NotFound(name, t)))
              else
                match ActionFor(t, action)
                case None => out == Printed(probed, InvalidInput(action))
                case Some(ShowColumns(cols)) =>
                  var q := SelectQuery(t, name, cols);
                  out == Printed(probed + [q], DisplayText(Selected(db.fetch(q), cols)))
                case Some(ListSongs) =>
                  out == Printed(probed + [SongsOf(name)], DisplaySonglistText(Songlisted(db.fetch(SongsOf(name)))))
                case Some(ShowAuthor) =>
                  out == Printed(probed + [AuthorOf(name)], DisplayAuthor(name, JoinAuthor(db, name)))
                case Some(SearchNames) =>
                  var q1 := SearchQuery(t, name);
                  var r1 := Searched(db.fetch(q1));
                  if name == "" || '%' in name then
                    out == Printed([q1], DisplaySearchText(r1))
                  else
                    var q2 := SearchQuery(t, "%, " + name);
                    var r2 := Searched(db.fetch(q2));
                    if r1.None? || r2.None? then out == Raised([q1, q2])
                    else out == Printed([q1, q2], DisplaySearchText(Some(r1.value + r2.value)))
  {
    var request := Classify(userInput);
    if request.Load? {
      return LoadRequested;
    }
    if !loaded {
      return Printed([], NotLoaded);
    }
    match request
    case Help =>
      return HelpRequested;
    case Stats(keyword) =>
      return Printed([], DisplayData(Data(db, keyword)));
    case Rejected(reason) =>
      return Printed([], InvalidInput(reason));
    case Named(t, name, action) =>
      var issued: seq<Query> := [];
      if action != "SEARCH" {
        var probe := Select(db, name, t, [ProbeColumn(t)]);
        issued := [ProbeQuery(t, name)];
        if probe == Some([]) {
          return Printed(issued, InvalidInput(NotFound(name, t)));
        }
      }
      match ActionFor(t, action)
      case None =>
        return Printed(issued, InvalidInput(action));
      case Some(ShowColumns(cols)) =>
        var result := Select(db, name, t, cols);
        var text := Display(result);
        return Printed(issued + [SelectQuery(t, name, cols)], text);
      case Some(ListSongs) =>
        var result := JoinSonglist(db, name);
        var text := DisplaySonglist(result);
        return Printed(issued + [SongsOf(name)], text);
      case Some(ShowAuthor) =>
        return Printed(issued + [AuthorOf(name)], DisplayAuthor(name, JoinAuthor(db, name)));
      case Some(SearchNames) =>
        CountZero(name, '%');
        if name == "" || Count(name, '%') != 0 {
          var result := Search(db, t, name);
          var text := DisplaySearch(result);
          return Printed([SearchQuery(t, name)], text);
        }
        var first := Search(db, t, name);
        var second := Search(db, t, "%, " + name);
        var qs := [SearchQuery(t, name), SearchQuery(t, "%, " + name)];
        if first.None? || second.None? {
          return Raised(qs);
        }
        var text := DisplaySearch(Some(first.value + second.value));
        return Printed(qs, text);
  }

  // ---------------------------------------------------------------------
  // What the parse recovers from a line

  lemma CountQuoteFree(a: string)
    requires '"' !in a
    ensures Count(a, '"') == 0
  {
    CountZero(a, '"');
  }

  /** No fixed command holds a quotation mark. */
  lemma QuotedNotFixed(cmd: string, i: nat)
    requires i < |cmd| && cmd[i] == '"'
    ensures FixedRequest(cmd) == None
  {
  }

  lemma CountQuote()
    ensures Count("\"", '"') == 1
  {
    var q: string := "\"";
    assert q[..0] == [];
  }

  /** The quotation marks of a`"`m`"`b: those of the three parts and two more. */
  lemma CountQuotes(a: string, m: string, b: string)
    ensures Count(a + "\"" + m + "\"" + b, '"') == Count(a, '"') + Count(m, '"') + Count(b, '"') + 2
  {
    var q: string := "\"";
    CountQuote();
    CountAppend(a, q, '"');
    CountAppend(a + q, m, '"');
    CountAppend(a + q + m, q, '"');
    CountAppend(a + q + m + q, b, '"');
  }

  /** A string cut at two positions of the same character. */
  lemma CutAt(s: string, f: nat, r: nat)
    requires f < r < |s| && s[f] == '"' && s[r] == '"'
    ensures s == s[..f] + "\"" + s[f + 1..r] + "\"" + s[r + 1..]
  {
  }

  /** The parts of a`"`m`"`b read back by position. */
  lemma PartsAt(a: string, m: string, b: string)
    ensures var line := a + "\"" + m + "\"" + b;
            var r := |a| + 1 + |m|;
            |line| == r + 1 + |b| && line[..|a|] == a && line[|a|] == '"' &&
            line[|a| + 1..r] == m && line[r] == '"' && line[r + 1..] == b
  {
  }

  /** Where the quotation marks of `pre"name"tail` stand. */
  lemma QuotedLine(pre: string, name: string, tail: string)
    requires '"' !in pre && '"' !in name && '"' !in tail
    ensures var line := pre + "\"" + name + "\"" + tail;
            Count(line, '"') == 2 && Find(line, '"') == |pre| && RFind(line, '"') == |pre| + 1 + |name| &&
            line[|pre|] == '"' && NameOf(line) == name && line[RFind(line, '"') + 1..] == tail
  {
    var line := pre + "\"" + name + "\"" + tail;
    CountQuoteFree(pre);
    CountQuoteFree(name);
    CountQuoteFree(tail);
    CountQuotes(pre, name, tail);
    var f := |pre|;
    var r := |pre| + 1 + |name|;
    PartsAt(pre, name, tail);
    FindIs(line, '"', f);
    RFindIs(line, '"', r);
  }

  /** The quoted part of a parse on `pre"name"tail`. */
  lemma QuotedRequestOf(pre: string, name: string, tail: string)
    requires '"' !in pre && '"' !in name && '"' !in tail
    ensures var words := Split(Strip(Upper(tail)));
            QuotedRequest(pre + "\"" + name + "\"" + tail) ==
              if |words| < 2 then Rejected("Invalid number of commands.")
              else match EntityOf(words[0])
                case None => Rejected(words[0])
                case Some(t) => Named(t, name, words[1])
  {
    var line := pre + "\"" + name + "\"" + tail;
    QuotedLine(pre, name, tail);
    assert WordsOf(line) == Split(Strip(Upper(tail)));
  }

  /** A line `pre"name"tail` with no other quotation mark and no
      whitespace at either end parses to the name between the quotes and
      the keywords of the tail: it is never taken for a fixed command. */
  lemma ClassifyQuoted(pre: string, name: string, tail: string)
    requires '"' !in pre && '"' !in name && '"' !in tail
    requires pre == [] || !IsSpace(pre[0])
    requires tail == [] || !IsSpace(tail[|tail| - 1])
    ensures Classify(pre + "\"" + name + "\"" + tail) == QuotedRequest(pre + "\"" + name + "\"" + tail)
  {
    var line := pre + "\"" + name + "\"" + tail;
    assert line[|pre|] == '"';
    assert line != [] && line[0] == (if pre == [] then '"' else pre[0]);
    assert line[|line| - 1] == (if tail == [] then '"' else tail[|tail| - 1]);
    StripUnchanged(line);
    assert Upper(line)[|pre|] == '"';
    QuotedNotFixed(Upper(line), |pre|);
  }

  /** A query about a name comes out of the quoted part of the parse. */
  lemma NamedIsQuoted(line: string)
    requires Classify(line).Named?
    ensures Classify(line) == QuotedRequest(Strip(line))
  {
  }

  /** What a quoted parse reports as a query about a name. */
  lemma QuotedNamed(s: string)
    requires QuotedRequest(s).Named?
    ensures Count(s, '"') == 2
    ensures var words := WordsOf(s);
            |words| >= 2 && EntityOf(words[0]) == Some(QuotedRequest(s).table) &&
            QuotedRequest(s) == Named(QuotedRequest(s).table, NameOf(s), words[1])
  {
  }

  /** Conversely, a line parsed as a query about a name holds exactly two
      quotation marks around that name, and the keywords come from what
      follows the second one. */
  lemma ClassifiedNamed(line: string)
    requires Classify(line).Named?
    ensures var s := Strip(line);
            var Named(t, name, action) := Classify(line);
            Count(s, '"') == 2 &&
            var f := Find(s, '"');
            var r := RFind(s, '"');
            0 <= f < r && '"' !in s[..f] && '"' !in name && '"' !in s[r + 1..] &&
            s == s[..f] + "\"" + name + "\"" + s[r + 1..] &&
            var words := WordsOf(s);
            |words| >= 2 && EntityOf(words[0]) == Some(t) && action == words[1]
  {
    NamedIsQuoted(line);
    QuotedNamed(Strip(line));
    QuotedParts(Strip(line));
  }

  lemma QuotedParts(s: string)
    requires Count(s, '"') == 2
    ensures var f := Find(s, '"');
            var r := RFind(s, '"');
            0 <= f < r && '"' !in s[..f] && '"' !in NameOf(s) && '"' !in s[r + 1..] &&
            s == s[..f] + "\"" + NameOf(s) + "\"" + s[r + 1..]
  {
    QuotesApart(s);
    var f := Find(s, '"');
    var r := RFind(s, '"');
    var name := s[f + 1..r];
    CutAt(s, f, r);
    CountQuoteFree(s[..f]);
    CountQuoteFree(s[r + 1..]);
    CountQuotes(s[..f], name, s[r + 1..]);
    CountZero(name, '"');
  }

  /** The columns each action may select, per table. */
  function ColumnChoices(t: Table): seq<seq<string>>
  {
    match t
    case Artists => [["num_hit_songs"], ["total_weeks"], ["num_hit_songs", "total_weeks"]]
    case Songs => [["duration_ms"], ["peak_rank"], ["weeks_on_chart"], ["duration_ms", "peak_rank", "weeks_on_chart"]]
  }

  lemma SchemaColumns()
    ensures SchemaFields(Artists) == ["artist_id", "artist_names", "num_hit_songs", "total_weeks"]
    ensures SchemaFields(Songs) == ["artist_id", "track_name", "duration_ms", "peak_rank", "weeks_on_chart"]
  {
  }

  /** Every column an action selects, and the probe's column, is a column
      of the table in DB_SCHEMA besides its name column, and no action
      selects a column twice. */
  lemma ActionsInSchema(t: Table, word: string)
    ensures ProbeColumn(t) in SchemaFields(t) && ProbeColumn(t) != KeyColumn(t)
    ensures ActionFor(t, word).Some? && ActionFor(t, word).value.ShowColumns? ==>
              var cols := ActionFor(t, word).value.columns;
              cols != [] && Distinct(cols) &&
              forall c :: c in cols ==> c in SchemaFields(t) && c != KeyColumn(t)
  {
    SchemaColumns();
    ChoicesInSchema(t);
  }

  /** A column list an action may select: non-empty, without repeats,
      and made of columns of t other than its name column. */
  predicate SchemaChoice(t: Table, cols: seq<string>)
  {
    cols != [] && Distinct(cols) && forall c :: c in cols ==> c in SchemaFields(t) && c != KeyColumn(t)
  }

  lemma ArtistChoices()
    ensures forall cols :: cols in ColumnChoices(Artists) ==> SchemaChoice(Artists, cols)
  {
    SchemaColumns();
  }

  lemma SongChoices()
    ensures forall cols :: cols in ColumnChoices(Songs) ==> SchemaChoice(Songs, cols)
  {
    SchemaColumns();
  }

  lemma ChoicesInSchema(t: Table)
    ensures ProbeColumn(t) in SchemaFields(t) && ProbeColumn(t) != KeyColumn(t)
    ensures forall cols :: cols in ColumnChoices(t) ==> SchemaChoice(t, cols)
  {
    SchemaColumns();
    if t == Artists { ArtistChoices(); } else { SongChoices(); }
  }

  lemma FieldsTwo(a: string, b: string, x: Value, y: Value)
    requires a != b
    ensures Fields([a, b], [x, y]) == [(a, x), (b, y)]
  {
    var cols := [a, b];
    assert cols[..2] == cols && cols[..1] == [a] && [a][..0] == [];
    assert FieldsOf([a], [x, y]) == [(a, x)];
  }

  lemma GroupTextTwo(a: string, b: string, x: Value, y: Value)
    ensures GroupText([(a, x), (b, y)]) == FieldText(a, x) + FieldText(b, y)
  {
    var fs := [(a, x), (b, y)];
    assert fs[..1] == [(a, x)] && fs[..1][..0] == [];
    assert GroupText([(a, x)]) == "" + FieldText(a, x);
    assert "" + FieldText(a, x) == FieldText(a, x);
  }

  lemma SelectOneRow(n: Value, vals: seq<Value>, cols: seq<string>)
    requires |vals| >= |cols|
    ensures Selected(Rows([[n] + vals]), cols) == Some([(n, Fields(cols, vals))])
  {
    var rows: seq<Row> := [[n] + vals];
    SelectedShaped(rows, cols);
    assert rows[..0] == [];
    assert rows[0][1..] == vals;
  }

  lemma HitsPrefix()
    ensures " " + "num_hit_songs" + ": " == " num_hit_songs: "
  {
  }

  lemma WeeksPrefix()
    ensures " " + "total_weeks" + ": " == " total_weeks: "
  {
  }

  lemma HitsLabel(x: Value)
    ensures FieldText("num_hit_songs", x) == " num_hit_songs: " + Str(x)
  {
    HitsPrefix();
  }

  lemma WeeksLabel(x: Value)
    ensures FieldText("total_weeks", x) == " total_weeks: " + Str(x)
  {
    WeeksPrefix();
  }

  lemma ArtistInfoFields(n: Value, hits: Value, weeks: Value)
    ensures DisplayText(Selected(Rows([[n, hits, weeks]]), ["num_hit_songs", "total_weeks"]))
              == FieldText("num_hit_songs", hits) + FieldText("total_weeks", weeks)
  {
    var a, b := "num_hit_songs", "total_weeks";
    assert a != b by {
      assert a[0] != b[0];
    }
    SelectOneRow(n, [hits, weeks], [a, b]);
    assert [n, hits, weeks] == [n] + [hits, weeks];
    FieldsTwo(a, b, hits, weeks);
    DisplayOne(n, [(a, hits), (b, weeks)]);
    GroupTextTwo(a, b, hits, weeks);
  }

  /** ARTIST INFO on a name with one row prints the hit count and the weeks
      of that row, in the order the action names them. */
  lemma ArtistInfoText(n: Value, hits: Value, weeks: Value)
    ensures DisplayText(Selected(Rows([[n, hits, weeks]]), ["num_hit_songs", "total_weeks"]))
              == " num_hit_songs: " + Str(hits) + " total_weeks: " + Str(weeks)
  {
    ArtistInfoFields(n, hits, weeks);
    HitsLabel(hits);
    WeeksLabel(weeks);
    ConcatAssoc(" num_hit_songs: " + Str(hits), " total_weeks: ", Str(weeks));
  }

  lemma AdeleUpper()
    ensures Upper(" artist info") == " ARTIST INFO"
  {
  }

  lemma AdeleStrip()
    ensures Strip(" ARTIST INFO") == "ARTIST INFO"
  {
    assert " ARTIST INFO" == [' '] + "ARTIST INFO";
    StripSpaceFirst(' ', "ARTIST INFO");
    StripUnchanged("ARTIST INFO");
  }

  lemma AdeleSplit()
    ensures Split("ARTIST INFO") == ["ARTIST", "INFO"]
  {
    assert Join(" ", ["ARTIST", "INFO"]) == "ARTIST INFO";
    SplitJoin(["ARTIST", "INFO"]);
  }

  lemma AdeleWords()
    ensures Split(Strip(Upper(" artist info"))) == ["ARTIST", "INFO"]
  {
    AdeleUpper();
    AdeleStrip();
    AdeleSplit();
  }

  /** The line `"Adele" artist info` asks for the hit count and the weeks
      of the artist named Adele. */
  lemma AdeleInfo()
    ensures Classify("\"Adele\" artist info") == Named(Artists, "Adele", "INFO")
  {
    var tail := " artist info";
    assert "\"Adele\" artist info" == [] + "\"" + "Adele" + "\"" + tail;
    ClassifyQuoted([], "Adele", tail);
    QuotedRequestOf([], "Adele", tail);
    AdeleWords();
  }
}
