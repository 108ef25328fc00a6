# song-queries: the command pipeline, in Dafny

song-queries is a command-line program that answers questions about a music
chart database: the hits and weeks of an artist, the duration, rank and weeks
of a song, an artist's songlist, a song's performer, a name search, and three
totals. This project models the part of the program that interprets one
command and shapes the answer:

- `parse_input`. It recognises `LOAD DATA` first, whether or not the data
  has been loaded. Every other line is gated on whether the data has been
  loaded; past the gate it recognises the remaining fixed commands (`HELP`,
  `TOTAL ARTISTS`, `TOTAL SONGS`, `AVG DURATION`). It tokenizes `"<name>" <ENTITY> <ACTION>`
  lines, validates them, and runs the existence probe. It dispatches to the
  eleven entity/action queries and applies the SEARCH rule.
- The presenters `display`, `display_songlist`, `display_author`,
  `display_data` and `display_search`. Each is modelled as the string it
  hands to `print`.
- The row handling of `select`, `join_songlist`, `join_author`, `search`
  and `data`. The SQL engine is a parameter, a `Store`. For each query it
  gives the rows `fetchall()` returns, or `Failed` where `execute` raised
  `DatabaseError`. For each aggregate it gives the one cell, or `None`.
- The `DB_SCHEMA` constant and the loop in `load_data` that builds the two
  `CREATE TABLE` statements.

Python dicts are insertion-ordered: a dict is the sequence of its entries
(`Dicts.Dict`). Assigning to a present key replaces its value where the key
stands; assigning to a new key appends it. The four row-query functions
(`select`, `join_songlist`, `join_author` and `search`) end in
`finally: return ...`, which swallows an `IndexError` from a row with too
few cells; `data` has no `finally` and returns its result directly. The
model keeps that behaviour: `select`, `join_songlist` and `search` stop at the first such row and return what they have built so far.
The lemmas about the full results assume rows the engine actually returns
for these SELECTs (`Shaped`: every row has all the selected cells).

Modules: `Text` (the string built-ins used), `Dicts` (None-or-value and the
ordered dict), `DbHandler` (db_handler.py), `Presenters` (the display
functions of parse.py) and `Parse` (parse_input).

## Model

| member | source | states |
|---|---|---|
| DbHandler.SchemaStatements | db_handler.py:78-87 | the load loop issues exactly two statements: the artists DDL, then the songs DDL, in DB_SCHEMA order |
| DbHandler.CreateTableStatement | db_handler.py:79-86 | the statement the loop builds for one table equals CreateTableText: the prefix, each field as `"field" TYPE, `, then either the key clause or the stripped list, then `);` |
| DbHandler.CreateTableJoined | db_handler.py:80-86 | for artists the statement is the `, `-joined declarations followed by `, PRIMARY KEY("artist_id"));`. For any other table whose last type does not end in `,` or space, `rstrip(", ")` removes exactly the last separator |
| DbHandler.StrippedJoined | db_handler.py:84-86 | rstrip removes exactly the final `, `, and nothing of the last declared type |
| DbHandler.ArtistsStatement | db_handler.py:10-16 | the artists statement, spelled out: four columns in schema order and the primary key clause |
| DbHandler.SongsStatement | db_handler.py:17-23 | the songs statement, spelled out: five columns in schema order, no trailing comma |
| DbHandler.Select | db_handler.py:98-137 | select returns None when the query fails; otherwise it folds the retrieved rows into name -> column dict up to the first short row (method proved against Selected) |
| DbHandler.RowFields | db_handler.py:132-135 | the inner dict gets the requested columns in order, each with the cell after the name, up to the row's end; `complete` iff the row has every column |
| DbHandler.SelectRowsKeys | db_handler.py:130-132 | the keys of select's dict are the distinct names of the rows, in the order each first appears |
| DbHandler.SelectRowsLookup | db_handler.py:130-135 | a name maps to the column dict of the last row with that name, and an absent name has no entry |
| DbHandler.FieldsZip | db_handler.py:134-135 | with distinct columns, the inner dict has the requested columns in order, the c-th holding the row's (c+1)-th cell |
| DbHandler.SelectedEmpty | db_handler.py:113-135 | select's dict is empty iff the engine returns no rows, or a first row with no cells |
| DbHandler.SelectedShaped | db_handler.py:128-135 | on well-formed rows, select folds all of them |
| DbHandler.NoMatchIsEmpty | db_handler.py:113-127 | a failed query gives None and a query that matches nothing gives an empty dict, not None; join_songlist (lines 150-158) and search (lines 207-219) behave the same way |
| DbHandler.JoinSonglist | db_handler.py:140-170 | join_songlist returns None when the query fails; otherwise it groups rows up to the first short row (method proved against Songlisted) |
| DbHandler.SonglistRowsLookup | db_handler.py:161-168 | an artist's list holds exactly the tracks of that artist's rows, in retrieval order, duplicates kept; an absent artist has no entry |
| DbHandler.SonglistRowsKeys | db_handler.py:161-168 | the artists appear in the order each is first retrieved |
| DbHandler.SonglistTotal | db_handler.py:161-168 | the lengths of all lists add up to the number of rows |
| DbHandler.SonglistedShaped | db_handler.py:159-168 | on well-formed rows, join_songlist groups all of them |
| DbHandler.TotalTracksPut | db_handler.py:163-168 | assigning a list changes the track total by its length, less the length of the list it replaces |
| DbHandler.Search | db_handler.py:198-225 | search returns None when the query fails; otherwise it returns the first cell of each row up to the first empty row, searching the same name column select uses (method proved against Searched) |
| DbHandler.SearchedShaped | db_handler.py:222-223 | on well-formed rows, search returns one name per row in row order, so its length is the row count |
| DbHandler.JoinAuthor | db_handler.py:173-195 | None iff the query fails; the first row's first cell when there is one; otherwise the initial empty string (the IndexError is swallowed) |
| DbHandler.Data | db_handler.py:228-273 | artists/songs/duration report their sentence followed by the aggregate, None when the aggregate fails, and the initial `{}` for any other keyword |
| Presenters.Display | parse.py:105-134 | display prints the per-name groups separated by single commas, none leading or trailing, or the selection error line for None (method proved against DisplayText) |
| Presenters.AppendFields | parse.py:131-132 | the inner loop appends `" col: value"` for each entry, in insertion order |
| Presenters.DisplayCommas | parse.py:122-132 | where column names and values hold no comma, the printed commas number one fewer than the names |
| Presenters.DisplayOne | parse.py:122-132 | a selection of one name prints that name's entries alone, with no separator |
| Presenters.DisplaySonglist | parse.py:137-149 | display_songlist prints one `Songlist for <artist>: <t1>, <t2>, ...` line per artist in insertion order, or its error line for None (method proved against DisplaySonglistText) |
| Presenters.SonglistLines | parse.py:147-149 | where no name holds a newline, the output has exactly one newline per artist |
| Presenters.DisplayAuthor | parse.py:152-162 | with no performer, the selection error line; otherwise the author line starts with the song name and ends with the performer, with the 18 characters of ` was performed by ` between them |
| Presenters.DisplayData | parse.py:165-175 | a statistic's text is printed unchanged, None prints the calculation error line, and the empty dict prints as `{}` |
| Presenters.DataShown | parse.py:165-175 | a statistic prints its sentence with the aggregate, the calculation error line when the aggregate fails, and `{}` for an unknown keyword |
| Presenters.DisplaySearch | parse.py:178-207 | None prints `Bad Input. Try Again.` and [] prints `No Relevant Results.`; otherwise `Relevant Results: ` and `"x" \| ` per result, with a line break before the 5th, 10th, ... result (method proved against DisplaySearchText) |
| Presenters.SearchLineBreaks | parse.py:200-206 | where no result holds a newline, the results contain exactly n div 5 newlines |
| Presenters.EntriesPrefix | parse.py:201-206 | the text for the first i results is a prefix of the text for the first j, so results appear in list order |
| Parse.ParseInput | parse.py:19-102 | the whole command: LOAD DATA always loads; every other line prints the not-loaded message without the data; the fixed commands, the rejections, the probe and each entity/action query, with the row queries issued in order and the text printed; SEARCH issues one search for an empty name or one containing `%`, two otherwise, and raises when either of the two fails; a failed single search prints `Bad Input. Try Again.` |
| Parse.Classify | parse.py:29-54 | on the stripped line, the quoted parse (a query about a name or a rejection) is the outcome exactly when the upper-cased line is no fixed command |
| Parse.FixedRequest | parse.py:30-43 | a fixed command only ever asks for the load, the help text or a statistic, never a query about a name or a rejection |
| Parse.QuotedRequest | parse.py:46-98 | the quoted parse gives a query about a name or a rejection, and a line without exactly two `"` is rejected with `Command not recognised.` |
| Parse.ActionFor | parse.py:59-96 | SEARCH is an action of both tables, SONGLIST is one of artists only and AUTHOR of songs only (each an if-and-only-if); every other action selects one of the column lists its table offers |
| Parse.ClassifyLoad | parse.py:29-30 | a line asks for the load iff, stripped and upper-cased, it is LOAD DATA |
| Parse.UnquotedRejected | parse.py:46-47 | a line that is no fixed command and does not hold exactly two `"` is rejected with `Command not recognised.` |
| Parse.QuotedRequestOf | parse.py:46-98 | on `pre"name"tail`, the name is the text between the quotes; fewer than two keywords after the quotes is `Invalid number of commands.`; an unknown first keyword is rejected with that keyword; keywords past the second are ignored |
| Parse.ClassifyQuoted | parse.py:29-44 | a line `pre"name"tail` with no whitespace at either end is never taken for a fixed command, whatever precedes the first quote |
| Parse.ClassifiedNamed | parse.py:46-54 | conversely, a line parsed as a query about a name holds exactly two quotes, with that name between them, and the two keywords come from after the second quote |
| Parse.QuotedParts | parse.py:46-49 | with exactly two quotes, the line is the text before, a quote, the name, a quote and the rest, and the name holds no quote |
| Parse.ActionsInSchema | parse.py:57-94 | the probe column and every column an action selects are DB_SCHEMA columns of its table other than the name column; no action selects nothing or a column twice |
| Parse.ArtistInfoText | parse.py:66-67 | ARTIST INFO on one matching row prints ` num_hit_songs: <hits> total_weeks: <weeks>` |
| Parse.AdeleInfo | parse.py:49-67 | the line `"Adele" artist info` asks for the INFO of artist Adele |
| Text.SplitJoin | parse.py:51 | split() gives back whitespace-free words joined by single spaces |
| Text.NatToStringRoundTrip | parse.py:132 | the decimal text str() gives a natural number reads back as that number |
| Text.IntToStringRoundTrip | parse.py:132 | the text str() gives any integer, a minus sign before the digits when it is negative, reads back as that integer |
| Dicts.LookupPut | db_handler.py:132-135 | after d[k] = v, d[k] is v and every other key reads as before |
| Dicts.FirstOccurrencesSpec | db_handler.py:130-132 | first occurrences are distinct and are exactly the elements of the sequence |

## Left out

- The sqlite3 engine. The SQL text, LIKE matching, join order and the causes of DatabaseError are not modelled: `Store` gives each query's rows or a failure.
- CSV loading with pandas, the file probe in `load_data`, and `os.path.exists("music.db")`. Whether the data is loaded is the parameter `loaded`; a LOAD DATA command is the outcome `LoadRequested`, covering the load and its "Successfully loaded data." line.
- `DBConnection` (db_handler.py:29-57) and the connection opening in parse_input (parse.py:34-35): thin wrappers over sqlite3.connect with no logic of their own.
- main.py: the input/print loop and its EXIT check.
- `display_help`: static text; HELP is the outcome `HelpRequested`.
- AVG(duration_ms) as a float: a REAL cell is carried as the text of its repr (`RealVal`), and no float arithmetic or formatting is modelled.
- Unicode: upper() and the whitespace of strip()/split() are ASCII only.
- `print` itself: each presenter returns the string it prints, without print's own trailing newline. display_songlist uses `end=""`, so its text is its whole output.
- Presenters.DisplaySonglist: Python raises TypeError when an artist or track name is not a str; the model renders every cell with str().
- Presenters.DisplaySearch: Python raises TypeError when a search result is not a str; the model renders every cell with str().
- Parse.ParseInput: the raise/except flow of InvalidInput is modelled as the text the handler prints; the probe's and the action's select are both run through `Select`.
