/** The `search` command (cmd/search.go): join the arguments into one query,
    search with the `type` flag, and list each movie or show hit as a row.
    Table styling is not modelled. */
module Search {
  import opened Wrappers
  import opened Text
  import opened Multimaps
  import opened Api

  const DefaultType := "movie,show"
  const NoResults := "No results found."

  datatype Row = Row(kind: string, title: string, year: int, imdb: string)

  /** The row a hit contributes: only a movie hit with its movie record, or a
      show hit with its show record. */
  function RowOf(r: SearchResult): (row: Option<Row>)
    ensures row.Some? <==> (r.kind == "movie" && r.movie.Some?) || (r.kind == "show" && r.show.Some?)
    ensures row.Some? && r.kind == "movie" ==>
              row.value == Row("Movie", r.movie.value.title, r.movie.value.year, r.movie.value.imdb)
    ensures row.Some? && r.kind == "show" ==>
              row.value == Row("TV Show", r.show.value.title, r.show.value.year, r.show.value.imdb)
  {
    match r.kind
    case "movie" => (match r.movie case Some(m) => Some(Row("Movie", m.title, m.year, m.imdb)) case None => None)
    case "show" => (match r.show case Some(s) => Some(Row("TV Show", s.title, s.year, s.imdb)) case None => None)
    case _ => None
  }

  /** The loop over the results: each hit contributes its row, if any, in order. */
  method ResultRows(results: seq<SearchResult>) returns (rows: seq<Row>)
    ensures rows == Rows(results)
    ensures |rows| <= |results|
  {
    rows := [];
    var i := 0;
    while i < |results|
      invariant 0 <= i <= |results|
      invariant rows == Rows(results[..i])
      invariant |rows| <= i
    {
      RowsAppend(results[..i], [results[i]]);
      assert results[..i + 1] == results[..i] + [results[i]];
      match RowOf(results[i]) {
        case Some(row) => rows := rows + [row];
        case None =>
      }
      i := i + 1;
    }
    assert results[..i] == results;
  }

  /** The rows of `results` as a function. */
  function Rows(results: seq<SearchResult>): (rows: seq<Row>)
    ensures |rows| <= |results|
    ensures forall i :: 0 <= i < |rows| ==> rows[i].kind == "Movie" || rows[i].kind == "TV Show"
  {
    if results == [] then []
    else
      match RowOf(results[0])
      case None => Rows(results[1..])
      case Some(row) => [row] + Rows(results[1..])
  }

  lemma {:induction false} RowsAppend(a: seq<SearchResult>, b: seq<SearchResult>)
    ensures Rows(a + b) == Rows(a) + Rows(b)
    decreases |a|
  {
    if a == [] {
      assert a + b == b;
    } else {
      RowsAppend(a[1..], b);
      assert (a + b)[1..] == a[1..] + b;
    }
  }

  /** Hits the table shows. */
  predicate Shown(r: SearchResult) {
    (r.kind == "movie" && r.movie.Some?) || (r.kind == "show" && r.show.Some?)
  }

  /** The rows are the shown hits, each mapped to its row, in result order:
      any hit that is not shown, whatever its type, is skipped. */
  lemma {:induction false} RowsAreShownHits(results: seq<SearchResult>)
    ensures |Rows(results)| <= |results|
    ensures (forall i :: 0 <= i < |results| ==> !Shown(results[i])) <==> Rows(results) == []
    ensures forall i :: 0 <= i < |results| && Shown(results[i]) ==> RowOf(results[i]).value in Rows(results)
    decreases |results|
  {
    if results != [] {
      RowsAreShownHits(results[1..]);
      var tail := results[1..];
      assert forall i :: 1 <= i < |results| ==> results[i] == tail[i - 1];
      if !Shown(results[0]) && Rows(tail) != [] {
        var k :| 0 <= k < |tail| && Shown(tail[k]);
        assert Shown(results[k + 1]);
      }
    }
  }

  datatype Output =
    | UsageError                      // fewer than one argument: the command does not run
    | Fatal(message: string)          // logrus Fatal: the process exits
    | Empty(message: string)          // no results: a message and no table
    | Table(rows: seq<Row>)

  /** `searchCmd.Run` with the positional arguments and the `type` flag. */
  method SearchCommand(loaded: Option<Credentials>, args: seq<string>, searchType: string,
                       transport: Request -> Outcome<seq<SearchResult>>) returns (out: Output)
    ensures |args| == 0 <==> out == UsageError
    ensures |args| > 0 && loaded.None? ==> out.Fatal?
    ensures |args| > 0 && loaded.Some? ==>
      var res := Search(Client(Endpoint, loaded.value), JoinSpaces(args), searchType, transport);
      && (res.Err? <==> out == Fatal("Search failed"))
      && (res == Ok([]) <==> out == Empty(NoResults))
      && (res.Ok? && res.value != [] ==> out == Table(Rows(res.value)))
  {
    if |args| == 0 {
      return UsageError;
    }
    match NewClient(loaded)
    case None =>
      return Fatal(ConfigMissing);
    case Some(c) =>
      var query := JoinSpaces(args);
      match Search(c, query, searchType, transport)
      case Err(_) =>
        return Fatal("Search failed");
      case Ok(results) =>
        if |results| == 0 {
          return Empty(NoResults);
        }
        var rows := ResultRows(results);
        return Table(rows);
  }

  /** The query is the arguments joined by single spaces and the type is sent
      verbatim as the last path segment; with space-free arguments the query
      splits back into them. */
  lemma SearchQuery(c: Client, args: seq<string>, searchType: string)
    requires 1 <= |args|
    requires forall i :: 0 <= i < |args| ==> ' ' !in args[i]
    ensures var r := SearchRequest(c, JoinSpaces(args), searchType);
      && r.url == c.endpoint + "/search/" + searchType
      && |Values(r.query, "query")| == 1
      && SplitSpaces(Values(r.query, "query")[0]) == args
  {
    SearchRequestShape(c, JoinSpaces(args), searchType);
    JoinSplitRoundTrip(args);
  }

  /** Without a `type` flag the search covers movies and shows. */
  lemma DefaultTypeSearch(c: Client, query: string)
    ensures SearchRequest(c, query, DefaultType).url == c.endpoint + "/search/" + "movie,show"
  {
    SearchRequestShape(c, query, DefaultType);
  }
}
