/** The presenters of parse.py. Each returns the text it hands to print;
    the newline print itself adds is not part of the text. */
module Presenters {
  import opened Text
  import opened Dicts
  import opened DbHandler

  // ---------------------------------------------------------------------
  // display

  /** " column: value", one entry of an inner dict. */
  function FieldText(column: string, v: Value): string
  {
    " " + column + ": " + Str(v)
  }

  /** The entries of one inner dict, in insertion order, with nothing between. */
  function GroupText(fields: Dict<string, Value>): string
  {
    if fields == [] then ""
    else
      var n := |fields| - 1;
      GroupText(fields[..n]) + FieldText(fields[n].0, fields[n].1)
  }

  function Groups(d: Selection): (gs: seq<string>)
    ensures |gs| == |d|
  {
    seq(|d|, i requires 0 <= i < |d| => GroupText(d[i].1))
  }

  /** What display prints: one group per name, separated by commas. */
  function DisplayText(dictInput: Option<Selection>): string
  {
    match dictInput
    case None => "Error in Selection. Please try again."
    case Some(d) => Join(",", Groups(d))
  }

  /** display(dict_input). */
  method Display(dictInput: Option<Selection>) returns (formatString: string)
    ensures formatString == DisplayText(dictInput)
  {
    if dictInput.None? {
      return "Error in Selection. Please try again.";
    }
    var d := dictInput.value;
    formatString := "";
    var firstComma := false;
    var i := 0;
    while i < |d|
      invariant 0 <= i <= |d|
      invariant firstComma == (i > 0)
      invariant formatString == Join(",", Groups(d[..i]))
    {
      assert Groups(d[..i + 1]) == Groups(d[..i]) + [GroupText(d[i].1)];
      JoinSnoc(",", Groups(d[..i]), GroupText(d[i].1));
      if firstComma {
        formatString := formatString + ",";
      }
      firstComma := true;
      formatString := AppendFields(formatString, d[i].1);
      i := i + 1;
    }
    assert d[..i] == d;
  }

  /** The inner loop of display: one " column: value" per entry. */
  method AppendFields(base: string, fields: Dict<string, Value>) returns (formatString: string)
    ensures formatString == base + GroupText(fields)
  {
    formatString := base;
    var j := 0;
    while j < |fields|
      invariant 0 <= j <= |fields|
      invariant formatString == base + GroupText(fields[..j])
    {
      GroupTextSnoc(fields, j);
      ConcatAssoc(base, GroupText(fields[..j]), FieldText(fields[j].0, fields[j].1));
      formatString := formatString + FieldText(fields[j].0, fields[j].1);
      j := j + 1;
    }
    assert fields[..j] == fields;
  }

  lemma GroupTextSnoc(fields: Dict<string, Value>, j: nat)
    requires j < |fields|
    ensures GroupText(fields[..j + 1]) == GroupText(fields[..j]) + FieldText(fields[j].0, fields[j].1)
  {
    assert fields[..j + 1][..j] == fields[..j];
  }

  /** A selection of one name shows that name's entries alone. */
  lemma DisplayOne(name: Value, fields: Dict<string, Value>)
    ensures DisplayText(Some([(name, fields)])) == GroupText(fields)
  {
    assert Groups([(name, fields)]) == [GroupText(fields)];
  }

  lemma {:induction false} GroupTextCommas(fields: Dict<string, Value>)
    requires forall i :: 0 <= i < |fields| ==> ',' !in fields[i].0 && ',' !in Str(fields[i].1)
    ensures Count(GroupText(fields), ',') == 0
  {
    if fields != [] {
      var n := |fields| - 1;
      GroupTextCommas(fields[..n]);
      var f := fields[n];
      CountZero(f.0, ',');
      CountZero(Str(f.1), ',');
      CountAppend(" " + f.0, ": ", ',');
      CountAppend(" ", f.0, ',');
      CountAppend(" " + f.0 + ": ", Str(f.1), ',');
      CountAppend(GroupText(fields[..n]), FieldText(f.0, f.1), ',');
    }
  }

  lemma {:induction false} JoinCommas(xs: seq<string>)
    requires forall i :: 0 <= i < |xs| ==> Count(xs[i], ',') == 0
    ensures Count(Join(",", xs), ',') == if xs == [] then 0 else |xs| - 1
  {
    if |xs| > 1 {
      JoinCommas(xs[1..]);
      CountAppend(xs[0], ",", ',');
      CountAppend(xs[0] + ",", Join(",", xs[1..]), ',');
    }
  }

  /** Where neither the column names nor the values hold a comma, the
      commas display prints are exactly the separators between names. */
  lemma DisplayCommas(d: Selection)
    requires forall i, j :: 0 <= i < |d| && 0 <= j < |d[i].1| ==> ',' !in d[i].1[j].0 && ',' !in Str(d[i].1[j].1)
    ensures Count(DisplayText(Some(d)), ',') == if d == [] then 0 else |d| - 1
  {
    forall i | 0 <= i < |d|
      ensures Count(Groups(d)[i], ',') == 0
    {
      GroupTextCommas(d[i].1);
    }
    JoinCommas(Groups(d));
  }

  // ---------------------------------------------------------------------
  // display_songlist

  function TrackNames(tracks: seq<Value>): (names: seq<string>)
    ensures |names| == |tracks|
  {
    seq(|tracks|, i requires 0 <= i < |tracks| => Str(tracks[i]))
  }

  /** "Songlist for <artist>: <track>, <track>, ...", ended by a newline. */
  function SonglistLine(artist: Value, tracks: seq<Value>): string
  {
    "Songlist for " + Str(artist) + ": " + Join(", ", TrackNames(tracks)) + "\n"
  }

  /** One line per artist, in insertion order. */
  function SonglistText(d: Songlists): string
  {
    if d == [] then ""
    else
      var n := |d| - 1;
      SonglistText(d[..n]) + SonglistLine(d[n].0, d[n].1)
  }

  /** What display_songlist prints (with end="", so nothing is added). */
  function DisplaySonglistText(dictInput: Option<Songlists>): string
  {
    match dictInput
    case None => "Error in selection. Please try again."
    case Some(d) => SonglistText(d)
  }

  /** display_songlist(dict_input). */
  method DisplaySonglist(dictInput: Option<Songlists>) returns (formatString: string)
    ensures formatString == DisplaySonglistText(dictInput)
  {
    if dictInput.None? {
      return "Error in selection. Please try again.";
    }
    var d := dictInput.value;
    formatString := "";
    var i := 0;
    while i < |d|
      invariant 0 <= i <= |d|
      invariant formatString == SonglistText(d[..i])
    {
      assert d[..i + 1][..i] == d[..i];
      formatString := formatString + SonglistLine(d[i].0, d[i].1);
      i := i + 1;
    }
    assert d[..i] == d;
  }

  lemma {:induction false} JoinNoNewline(sep: string, xs: seq<string>)
    requires '\n' !in sep
    requires forall i :: 0 <= i < |xs| ==> '\n' !in xs[i]
    ensures '\n' !in Join(sep, xs)
  {
    if |xs| > 1 {
      JoinNoNewline(sep, xs[1..]);
    }
  }

  lemma LineCount(artist: Value, tracks: seq<Value>)
    requires '\n' !in Str(artist)
    requires forall j :: 0 <= j < |tracks| ==> '\n' !in Str(tracks[j])
    ensures Count(SonglistLine(artist, tracks), '\n') == 1
  {
    var names := TrackNames(tracks);
    JoinNoNewline(", ", names);
    var body := "Songlist for " + Str(artist) + ": " + Join(", ", names);
    assert '\n' !in body;
    CountZero(body, '\n');
    CountAppend(body, "\n", '\n');
    assert Count("\n", '\n') == 1 by {
      var nl: string := "\n";
      assert nl[..0] == [];
    }
  }

  /** Where no artist or track name holds a newline, display_songlist
      prints exactly one line per artist. */
  lemma {:induction false} SonglistLines(d: Songlists)
    requires forall i :: 0 <= i < |d| ==> '\n' !in Str(d[i].0)
    requires forall i, j :: 0 <= i < |d| && 0 <= j < |d[i].1| ==> '\n' !in Str(d[i].1[j])
    ensures Count(SonglistText(d), '\n') == |d|
  {
    if d != [] {
      var n := |d| - 1;
      SonglistLines(d[..n]);
      var names := TrackNames(d[n].1);
      JoinNoNewline(", ", names);
      LineCount(d[n].0, d[n].1);
      CountAppend(SonglistText(d[..n]), SonglistLine(d[n].0, d[n].1), '\n');
    }
  }

  // ---------------------------------------------------------------------
  // display_search

  /** One search result: "\"<name>\" | ". */
  function Entry(x: Value): string
  {
    "\"" + Str(x) + "\" | "
  }

  /** The results in order; a line break goes before the 5th, 10th, 15th...
      result, keeping five results to a line. */
  function Entries(xs: seq<Value>): string
  {
    if xs == [] then ""
    else
      var n := |xs| - 1;
      Entries(xs[..n]) + (if n % 5 == 4 then "\n" else "") + Entry(xs[n])
  }

  /** What display_search prints. */
  function DisplaySearchText(listInput: Option<seq<Value>>): string
  {
    match listInput
    case None => "Bad Input. Try Again."
    case Some(xs) => if xs == [] then "No Relevant Results." else "Relevant Results: " + Entries(xs)
  }

  /** display_search(list_input). */
  method DisplaySearch(listInput: Option<seq<Value>>) returns (formatString: string)
    ensures formatString == DisplaySearchText(listInput)
  {
    formatString := "Relevant Results: ";
    if listInput.None? {
      formatString := "Bad Input. Try Again.";
      return;
    }
    var xs := listInput.value;
    if |xs| == 0 {
      formatString := "No Relevant Results.";
      return;
    }
    var counter := 0;
    var i := 0;
    while i < |xs|
      invariant 0 <= i <= |xs|
      invariant counter == i % 5
      invariant formatString == "Relevant Results: " + Entries(xs[..i])
    {
      EntriesSnoc(xs, i);
      CounterStep(i);
      ghost var br: string := if i % 5 == 4 then "\n" else "";
      ghost var before := formatString;
      counter := counter + 1;
      if counter == 5 {
        formatString := formatString + "\n";
        counter := 0;
      }
      assert formatString == before + br;
      ConcatAssoc("Relevant Results: ", Entries(xs[..i]), br);
      ConcatAssoc("Relevant Results: ", Entries(xs[..i]) + br, Entry(xs[i]));
      formatString := formatString + Entry(xs[i]);
      i := i + 1;
    }
    assert xs[..i] == xs;
  }

  /** The counter of display_search wraps to 0 after every fifth result. */
  lemma CounterStep(i: nat)
    ensures (i + 1) % 5 == if i % 5 == 4 then 0 else i % 5 + 1
  {
  }

  lemma EntriesSnoc(xs: seq<Value>, i: nat)
    requires i < |xs|
    ensures Entries(xs[..i + 1]) == Entries(xs[..i]) + (if i % 5 == 4 then "\n" else "") + Entry(xs[i])
  {
    assert xs[..i + 1][..i] == xs[..i];
  }

  lemma EntryNoNewline(x: Value)
    requires '\n' !in Str(x)
    ensures '\n' !in Entry(x)
  {
  }

  lemma BreakCount(n: nat)
    ensures Count(if n % 5 == 4 then "\n" else "", '\n') == if n % 5 == 4 then 1 else 0
  {
    var nl: string := "\n";
    assert nl[..0] == [];
  }

  /** Where no result holds a newline, the results fill |xs| / 5 + 1 lines:
      display_search breaks the line once for every fifth result. */
  lemma {:induction false} SearchLineBreaks(xs: seq<Value>)
    requires forall i :: 0 <= i < |xs| ==> '\n' !in Str(xs[i])
    ensures Count(Entries(xs), '\n') == |xs| / 5
  {
    if xs != [] {
      var n := |xs| - 1;
      SearchLineBreaks(xs[..n]);
      var e := Entry(xs[n]);
      EntryNoNewline(xs[n]);
      CountZero(e, '\n');
      var br: string := if n % 5 == 4 then "\n" else "";
      BreakCount(n);
      CountAppend(Entries(xs[..n]), br, '\n');
      CountAppend(Entries(xs[..n]) + br, e, '\n');
    }
  }

  lemma PrefixExtends(a: string, b: string, c: string)
    requires a <= b
    ensures a <= b + c
  {
    assert (b + c)[..|a|] == b[..|a|];
  }

  /** The text for the first i results is a prefix of the text for the
      first j: with EntriesSnoc, each result appears quoted, after the
      results before it. */
  lemma {:induction false} EntriesPrefix(xs: seq<Value>, i: nat, j: nat)
    requires i <= j <= |xs|
    ensures Entries(xs[..i]) <= Entries(xs[..j])
    decreases j - i
  {
    if i < j {
      EntriesPrefix(xs, i, j - 1);
      EntriesSnoc(xs, j - 1);
      var br: string := if (j - 1) % 5 == 4 then "\n" else "";
      PrefixExtends(Entries(xs[..i]), Entries(xs[..j - 1]), br + Entry(xs[j - 1]));
      ConcatAssoc(Entries(xs[..j - 1]), br, Entry(xs[j - 1]));
    }
  }

  // ---------------------------------------------------------------------
  // display_author and display_data

  /** What display_author prints: the selection error line when there is
      no performer, otherwise a line that names the song first and the
      performer last. */
  function DisplayAuthor(songName: string, artistName: Option<Value>): (t: string)
    ensures artistName.None? ==> t == "Error in selection. Please try again."
    ensures artistName.Some? ==>
              var performer := Str(artistName.value);
              |t| == |songName| + 18 + |performer| &&
              t[..|songName|] == songName && t[|t| - |performer|..] == performer &&
              t[|songName|..|songName| + 18] == " was performed by "
  {
    match artistName
    case None => "Error in selection. Please try again."
    case Some(a) => songName + " was performed by " + Str(a)
  }

  /** What display_data prints: a statistic's text unchanged, the
      calculation error line for None, and "{}", which is how print shows
      the empty dict. */
  function DisplayData(dataResult: DataResult): (t: string)
    ensures dataResult.DataText? ==> t == dataResult.text
    ensures dataResult.DataNone? ==> t == "Error in data calculation. Please try again."
    ensures dataResult.DataEmptyDict? ==> t == "{}"
  {
    match dataResult
    case DataNone => "Error in data calculation. Please try again."
    case DataEmptyDict => "{}"
    case DataText(t) => t
  }

  /** What a statistics command prints: the sentence of its keyword with
      the aggregate, the error line when the aggregate cannot be read, and
      {} for a keyword that asks for nothing. */
  lemma DataShown(db: Store, keyword: string)
    ensures DisplayData(Data(db, keyword)) ==
              match AggregateFor(keyword)
              case None => "{}"
              case Some((a, sentence)) =>
                match db.aggregate(a)
                case None => "Error in data calculation. Please try again."
                case Some(v) => sentence + Str(v)
  {
  }
}
