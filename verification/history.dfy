/** The `history` command (cmd/history.go): fetch the user's settings for
    their slug, fetch one page of their watch history, and turn each entry
    into a table row. Table styling, colours and relative-time rendering are
    not modelled: a row's `watched` cell is the entry's watch time as given. */
module History {
  import opened Wrappers
  import opened Text
  import opened Multimaps
  import opened Api

  const DefaultPage := 1
  const DefaultLimit := 10

  const MovieKind := "Movie \U{1F3AC}"
  const ShowKind := "TV Show \U{1F4FA}"

  datatype Row = Row(kind: string, title: string, watched: string)

  /** `fmt.Sprintf("S%02dE%02d", season, number)`. */
  function EpisodeLabel(season: int, number: int): (s: string)
    ensures |s| >= 6 && s[0] == 'S'
  {
    "S" + Pad2(season) + "E" + Pad2(number)
  }

  /** Reads a label back: an `S`, a number, an `E`, a number. */
  function ParseEpisodeLabel(l: string): Option<(int, int)> {
    if |l| == 0 || l[0] != 'S' || 'E' !in l[1..] then None
    else
      var rest := l[1..];
      var i := IndexOf(rest, 'E');
      match (ParseDecimal(rest[..i]), ParseDecimal(rest[i + 1..]))
      case (Some(s), Some(n)) => Some((s, n))
      case _ => None
  }

  /** The label names its season and episode unambiguously, each padded to at
      least two characters. */
  lemma EpisodeLabelRoundTrip(season: int, number: int)
    ensures ParseEpisodeLabel(EpisodeLabel(season, number)) == Some((season, number))
    ensures |EpisodeLabel(season, number)| >= 6
  {
    var a, b := Pad2(season), Pad2(number);
    assert EpisodeLabel(season, number) == "S" + a + "E" + b;
    ParseLabelParts(a, b, season, number);
  }

  /** Any two numerals put together as `S<a>E<b>` read back as their values. */
  lemma ParseLabelParts(a: string, b: string, x: int, y: int)
    requires Numeral(a) && ParseDecimal(a) == Some(x)
    requires ParseDecimal(b) == Some(y)
    ensures ParseEpisodeLabel("S" + a + "E" + b) == Some((x, y))
  {
    var l := "S" + a + "E" + b;
    assert 'E' !in a by {
      forall i | 0 <= i < |a| ensures a[i] != 'E' {
        assert IsDigit(a[i]) || a[i] == '-';
      }
    }
    assert l[1..] == a + ['E'] + b;
    IndexOfAfterPrefix(a, 'E', b);
    var rest := l[1..];
    assert rest[..|a|] == a;
    assert rest[|a| + 1..] == b;
  }

  /** The title cell of an episode: the show title and the label in parentheses. */
  function EpisodeTitle(show: string, season: int, number: int): string {
    show + " (" + EpisodeLabel(season, number) + ")"
  }

  lemma EpisodeTitleSpelled(show: string, season: int, number: int)
    ensures EpisodeTitle(show, season, number) == show + " (S" + Pad2(season) + "E" + Pad2(number) + ")"
  {
    TitleShape(show, Pad2(season), Pad2(number));
  }

  lemma TitleShape(show: string, a: string, b: string)
    ensures show + " (" + ("S" + a + "E" + b) + ")" == show + " (S" + a + "E" + b + ")"
  {
  }

  /** The row an entry contributes, if any. */
  function RowOf(item: HistoryItem): (r: Option<Row>)
    ensures r.Some? <==> item.kind == "movie" || item.kind == "episode"
    ensures r.Some? ==> r.value.watched == item.watchedAt
    ensures r.Some? ==> (r.value.kind == MovieKind <==> item.kind == "movie")
    ensures item.kind == "movie" ==> r.value.title == item.movie.title
  {
    match item.kind
    case "movie" => Some(Row(MovieKind, item.movie.title, item.watchedAt))
    case "episode" => Some(Row(ShowKind, EpisodeTitle(item.show.title, item.episode.season, item.episode.number), item.watchedAt))
    case _ => None
  }

  /** The rows of the table, one per movie or episode entry, in response order. */
  function HistoryRows(items: seq<HistoryItem>): (rows: seq<Row>)
    ensures |rows| <= |items|
    ensures forall i :: 0 <= i < |rows| ==> rows[i].kind == MovieKind || rows[i].kind == ShowKind
  {
    if items == [] then []
    else
      var rest := HistoryRows(items[1..]);
      match RowOf(items[0])
      case None => rest
      case Some(row) => [row] + rest
  }

  /** A movie entry yields exactly its title and watch time; an episode entry
      yields the show title with its `SxxEyy` label; anything else yields no row. */
  lemma ItemRows(item: HistoryItem)
    ensures item.kind == "movie" ==> HistoryRows([item]) == [Row(MovieKind, item.movie.title, item.watchedAt)]
    ensures item.kind == "episode" ==>
      && |HistoryRows([item])| == 1
      && HistoryRows([item])[0].kind == ShowKind
      && HistoryRows([item])[0].watched == item.watchedAt
      && HistoryRows([item])[0].title
           == item.show.title + " (S" + Pad2(item.episode.season) + "E" + Pad2(item.episode.number) + ")"
      && exists tag :: HistoryRows([item])[0].title == item.show.title + " (" + tag + ")"
                         && ParseEpisodeLabel(tag) == Some((item.episode.season, item.episode.number))
    ensures item.kind != "movie" && item.kind != "episode" ==> HistoryRows([item]) == []
  {
    if item.kind == "episode" {
      EpisodeLabelRoundTrip(item.episode.season, item.episode.number);
      var tag := EpisodeLabel(item.episode.season, item.episode.number);
      assert HistoryRows([item])[0].title == item.show.title + " (" + tag + ")";
      EpisodeTitleSpelled(item.show.title, item.episode.season, item.episode.number);
    }
  }

  /** Rows follow the response: the rows of a concatenation are the rows of
      each part, in order. */
  lemma {:induction false} HistoryRowsAppend(a: seq<HistoryItem>, b: seq<HistoryItem>)
    ensures HistoryRows(a + b) == HistoryRows(a) + HistoryRows(b)
    decreases |a|
  {
    if a == [] {
      assert a + b == b;
    } else {
      var ab := a + b;
      assert ab[0] == a[0] && ab[1..] == a[1..] + b;
      HistoryRowsAppend(a[1..], b);
      var tail := HistoryRows(a[1..]) + HistoryRows(b);
      assert HistoryRows(ab[1..]) == tail;
      if RowOf(a[0]).Some? {
        var row := RowOf(a[0]).value;
        assert HistoryRows(ab) == [row] + tail;
        assert HistoryRows(a) == [row] + HistoryRows(a[1..]);
      } else {
        assert HistoryRows(ab) == tail;
      }
    }
  }

  /** Entries whose type the table shows. */
  function CountListed(items: seq<HistoryItem>): nat {
    if items == [] then 0
    else (if items[0].kind == "movie" || items[0].kind == "episode" then 1 else 0) + CountListed(items[1..])
  }

  /** There is one row per movie or episode entry and none for the rest. */
  lemma {:induction false} HistoryRowsCount(items: seq<HistoryItem>)
    ensures |HistoryRows(items)| == CountListed(items)
    decreases |items|
  {
    if items != [] {
      HistoryRowsCount(items[1..]);
    }
  }

  /** `Page <page> out of <page count>, <item count> items in total`. */
  function Footer(p: Pagination): (s: string)
    ensures |s| >= 5 + |p.page| && s[..5] == "Page " && s[5..5 + |p.page|] == p.page
    ensures |s| >= 15 && s[|s| - 15..] == " items in total"
  {
    "Page " + p.page + " out of " + p.pageCount + ", " + p.itemCount + " items in total"
  }

  datatype Output =
    | Fatal(message: string)          // log.Fatalf: the process exits
    | Failed(error: Error)            // the error is printed and the command returns
    | Table(rows: seq<Row>, footer: string)

  /** `historyCmd.Run` with the `page` and `limit` flags. */
  function HistoryCommand(loaded: Option<Credentials>, page: int, limit: int,
                          settingsTransport: Request -> Outcome<UserSettings>,
                          historyTransport: Request -> Outcome<seq<HistoryItem>>): (out: Output)
    ensures loaded.None? ==> out.Fatal?
    ensures out.Table? ==> loaded.Some? && GetUserSettings(Client(Endpoint, loaded.value), settingsTransport).Ok?
    ensures out.Table? ==>
      var c := Client(Endpoint, loaded.value);
      var h := GetUserHistory(c, GetUserSettings(c, settingsTransport).value.userSlug, PaginationParams(page, limit), historyTransport);
      h.Ok? && |out.rows| <= |h.value.0|
  {
    match NewClient(loaded)
    case None => Fatal(ConfigMissing)
    case Some(c) =>
      match GetUserSettings(c, settingsTransport)
      case Err(_) => Fatal("Failed to get user settings")
      case Ok(settings) =>
        match GetUserHistory(c, settings.userSlug, PaginationParams(page, limit), historyTransport)
        case Err(e) => Failed(e)
        case Ok((items, pagination)) => Table(HistoryRows(items), Footer(pagination))
  }

  /** History is fetched for the slug found in the settings with the `page` and
      `limit` flags: the history transport matters only through that one
      request. */
  lemma HistoryUsesSlugAndFlags(creds: Credentials, page: int, limit: int, user: string,
                                settingsTransport: Request -> Outcome<UserSettings>,
                                t1: Request -> Outcome<seq<HistoryItem>>, t2: Request -> Outcome<seq<HistoryItem>>)
    requires GetUserSettings(Client(Endpoint, creds), settingsTransport).Ok? ==>
               GetUserSettings(Client(Endpoint, creds), settingsTransport).value.userSlug == user
    requires t1(HistoryRequest(Client(Endpoint, creds), user, PaginationParams(page, limit)))
             == t2(HistoryRequest(Client(Endpoint, creds), user, PaginationParams(page, limit)))
    ensures HistoryCommand(Some(creds), page, limit, settingsTransport, t1)
            == HistoryCommand(Some(creds), page, limit, settingsTransport, t2)
  {
  }

  /** With the default flags the history request asks for page 1 of 10 entries. */
  lemma DefaultFlagsQuery(c: Client, user: string)
    ensures var q := HistoryRequest(c, user, PaginationParams(DefaultPage, DefaultLimit)).query;
      Values(q, "page") == ["1"] && Values(q, "limit") == ["10"] && q.Keys == {"page", "limit"}
  {
    HistoryRequestShape(c, user, PaginationParams(DefaultPage, DefaultLimit));
    PaginationQueryEntries(PaginationParams(DefaultPage, DefaultLimit));
    DecimalTen();
  }

  /** A settings failure ends the command fatally before any history request;
      a history failure is reported and nothing is rendered. */
  lemma HistoryFailures(creds: Credentials, page: int, limit: int,
                        settingsTransport: Request -> Outcome<UserSettings>,
                        historyTransport: Request -> Outcome<seq<HistoryItem>>)
    ensures var c := Client(Endpoint, creds);
            var out := HistoryCommand(Some(creds), page, limit, settingsTransport, historyTransport);
      && (GetUserSettings(c, settingsTransport).Err? ==> out == Fatal("Failed to get user settings"))
      && (GetUserSettings(c, settingsTransport).Ok? ==>
            var user := GetUserSettings(c, settingsTransport).value.userSlug;
            var h := GetUserHistory(c, user, PaginationParams(page, limit), historyTransport);
            (h.Err? <==> out.Failed?) && (h.Err? ==> out == Failed(h.error)))
  {
  }

  /** On success the table holds the rows of the decoded entries and the footer
      shows the page, page count and item count headers, in that order, with
      "" for a missing header. */
  lemma HistoryTable(creds: Credentials, page: int, limit: int, settings: UserSettings,
                     settingsTransport: Request -> Outcome<UserSettings>,
                     historyTransport: Request -> Outcome<seq<HistoryItem>>,
                     resp: Response<seq<HistoryItem>>, items: seq<HistoryItem>)
    requires GetUserSettings(Client(Endpoint, creds), settingsTransport) == Ok(settings)
    requires historyTransport(HistoryRequest(Client(Endpoint, creds), settings.userSlug, PaginationParams(page, limit))) == Ok(resp)
    requires resp.status == 200 && resp.body == Some(items)
    ensures HistoryCommand(Some(creds), page, limit, settingsTransport, historyTransport)
            == Table(HistoryRows(items),
                     "Page " + First(resp.header, "X-Pagination-Page")
                     + " out of " + First(resp.header, "X-Pagination-Page-Count")
                     + ", " + First(resp.header, "X-Pagination-Item-Count") + " items in total")
  {
  }
}
