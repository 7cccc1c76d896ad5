/** How the plugin fetches each level: the request it builds from a decoded
    record, and the stream URL it cuts out of the download-helper site's
    answer. The HTTP request itself belongs to the host. */
module Models {
  import opened Js
  import opened Records

  const MITELE_BASEURL := "http://www.mitele.es"
  const DESCARGAVIDEOS_BASEURL := "http://www.descargavideos.tv"
  const HANDLER := "/mitele_handler.php"
  const SEASON_LISTING := "/temporadasbrowser/getCapitulos/"

  /** An HTTP GET: a URL and the query arguments the host appends to it. */
  datatype Request = Request(url: string, args: seq<(string, Value)>)

  function Min(a: int, b: int): int
  {
    if a <= b then a else b
  }

  /** getCategoryHTML: the site base, a slash and the category id. Reading
      the id throws on an undefined or null category, and so does an id
      that does not convert to a string. */
  function CategoryRequest(category: Value): (r: Outcome<Request>)
    ensures r.Thrown? <==> Nullish(category) || ToStr(Get(category, "id")).Thrown?
    ensures r.Thrown? ==> r.error == TypeError
    ensures r.Ok? ==> r.value == Request(MITELE_BASEURL + "/" + ToStr(Get(category, "id")).value, [])
  {
    var id :- Member(category, "id");
    var path :- ToStr(id);
    Ok(Request(MITELE_BASEURL + "/" + path, []))
  }

  /** getProgramHTML: the site base, a slash and the program's path (which
      itself starts with a slash, so the URL holds two). */
  function ProgramRequest(program: Value): (r: Outcome<Request>)
    ensures r.Thrown? <==> Nullish(program) || ToStr(Get(program, "url")).Thrown?
    ensures r.Thrown? ==> r.error == TypeError
    ensures r.Ok? ==> r.value == Request(MITELE_BASEURL + "/" + ToStr(Get(program, "url")).value, [])
  {
    var url :- Member(program, "url");
    var path :- ToStr(url);
    Ok(Request(MITELE_BASEURL + "/" + path, []))
  }

  /** getSeasonHTML: the season listing of the given page. Once `season.id`
      has been read, reading `season.page` cannot throw, but converting
      either to a string can. */
  function SeasonRequest(season: Value): (r: Outcome<Request>)
    ensures r.Thrown? <==> Nullish(season) || ToStr(Get(season, "id")).Thrown? || ToStr(Get(season, "page")).Thrown?
    ensures r.Thrown? ==> r.error == TypeError
    ensures r.Ok? ==>
      r.value == Request(MITELE_BASEURL + SEASON_LISTING + ToStr(Get(season, "id")).value + "/" +
                         ToStr(Get(season, "page")).value, [])
  {
    var id :- Member(season, "id");
    var idText :- ToStr(id);
    var pageText :- ToStr(Get(season, "page"));
    Ok(Request(MITELE_BASEURL + SEASON_LISTING + idText + "/" + pageText, []))
  }

  /** The video's page on the site: the base followed by the record's url. */
  function VideoPageURL(video: Value): (r: Outcome<string>)
    ensures r.Thrown? <==> Nullish(video) || ToStr(Get(video, "url")).Thrown?
    ensures r.Thrown? ==> r.error == TypeError
    ensures r.Ok? ==> StartsWith(r.value, MITELE_BASEURL) && r.value[|MITELE_BASEURL|..] == ToStr(Get(video, "url")).value
  {
    var url :- Member(video, "url");
    var path :- ToStr(url);
    assert (MITELE_BASEURL + path)[..|MITELE_BASEURL|] == MITELE_BASEURL;
    Ok(MITELE_BASEURL + path)
  }

  /** The query to the download-helper site for a video page: `modo` 1 and
      the page as `web`. */
  function HandlerRequest(pageURL: string): (r: Request)
    ensures r.url == DESCARGAVIDEOS_BASEURL && r.args == [("modo", Num(1)), ("web", Str(pageURL))]
  {
    Request(DESCARGAVIDEOS_BASEURL, [("modo", Num(1)), ("web", Str(pageURL))])
  }

  /** The text getVideoFile cuts from the helper's answer: from the handler
      path to the nearer of the next double or single quote, where a missing
      quote kind makes `Math.min` pick -1. */
  function HandlerPath(html: string): (path: string)
    ensures Contains(html, path)
  {
    var ini := IndexOf(html, HANDLER, 0);
    var end := Min(IndexOf(html, "\"", ini), IndexOf(html, "'", ini));
    var path := Slice(html, ini, end);
    var from := RelativeIndex(ini, |html|);
    assert OccursAt(html, path, from) by {
      assert html[from..from + |path|] == path;
    }
    path
  }

  /** getVideoFile's result. */
  function VideoFile(html: string): (file: string)
    ensures StartsWith(file, DESCARGAVIDEOS_BASEURL)
  {
    DESCARGAVIDEOS_BASEURL + HandlerPath(html)
  }

  /** The first quote after the handler path lies past the path's end,
      and no such quote comes before it. */
  lemma QuoteAfter(html: string, ini: nat, q: char, n: int)
    requires OccursAt(html, HANDLER, ini)
    requires q == '"' || q == '\''
    requires n == IndexOf(html, [q], ini) && n >= 0
    ensures ini + |HANDLER| <= n
    ensures html[n] == q
    ensures forall k :: ini <= k < n ==> html[k] != q
  {
    assert q !in HANDLER;
    CharAfterPattern(html, HANDLER, ini, q);
  }

  /** The cut from a handler path at `ini` to the nearer of the quotes
      after it starts with the handler path and holds no quote. */
  lemma QuotedCut(html: string, ini: nat)
    requires OccursAt(html, HANDLER, ini)
    requires IndexOf(html, "\"", ini) >= 0 && IndexOf(html, "'", ini) >= 0
    ensures var path := Slice(html, ini, Min(IndexOf(html, "\"", ini), IndexOf(html, "'", ini)));
      StartsWith(path, HANDLER) && '"' !in path && '\'' !in path
  {
    var q1, q2 := IndexOf(html, "\"", ini), IndexOf(html, "'", ini);
    QuoteAfter(html, ini, '"', q1);
    QuoteAfter(html, ini, '\'', q2);
    var end := Min(q1, q2);
    var path := Slice(html, ini, end);
    assert path == html[ini..end];
    assert path[..|HANDLER|] == html[ini..ini + |HANDLER|];
  }

  /** When the handler path is present and both kinds of quote follow it,
      the stream URL is the helper's base followed by the handler path up
      to the first quote, with no quote in it. */
  lemma HandlerURLWhenQuoted(html: string)
    requires IndexOf(html, HANDLER, 0) >= 0
    requires IndexOf(html, "\"", IndexOf(html, HANDLER, 0)) >= 0
    requires IndexOf(html, "'", IndexOf(html, HANDLER, 0)) >= 0
    ensures var path := HandlerPath(html);
      VideoFile(html) == DESCARGAVIDEOS_BASEURL + path &&
      StartsWith(path, HANDLER) &&
      '"' !in path && '\'' !in path
  {
    QuotedCut(html, IndexOf(html, HANDLER, 0));
  }

  /** With the handler path present but one kind of quote missing after it,
      the end is -1 and the cut runs to the page's last character, dropping
      only that one. */
  lemma HandlerURLWhenAQuoteIsMissing(html: string)
    requires IndexOf(html, HANDLER, 0) >= 0
    requires IndexOf(html, "\"", IndexOf(html, HANDLER, 0)) == -1 ||
             IndexOf(html, "'", IndexOf(html, HANDLER, 0)) == -1
    ensures HandlerPath(html) == html[IndexOf(html, HANDLER, 0)..|html| - 1]
  {
    var ini := IndexOf(html, HANDLER, 0);
    var q1, q2 := IndexOf(html, "\"", ini), IndexOf(html, "'", ini);
    assert Min(q1, q2) == -1;
    assert ini + |HANDLER| <= |html|;
    assert RelativeIndex(-1, |html|) == |html| - 1;
  }

  /** Without the handler path the start is -1, which `slice` reads as the
      last character, and no end lies after it: the stream URL is the bare
      helper base. */
  lemma HandlerURLWithoutHandler(html: string)
    requires IndexOf(html, HANDLER, 0) == -1
    ensures VideoFile(html) == DESCARGAVIDEOS_BASEURL
  {
    var q1, q2 := IndexOf(html, "\"", -1), IndexOf(html, "'", -1);
    assert q1 == -1 || q1 < |html|;
    assert q2 == -1 || q2 < |html|;
  }

  /** A category sent through its URI is fetched from the site's page of
      its id. */
  lemma CategoryFetchedThroughURI(encode: Value -> string, decode: string -> Option<Value>, c: Category)
    requires Lossless(encode, decode)
    requires Storable(c.page)
    ensures Payload(CategoryURI(encode, c), CategoryLevel).Some?
    ensures var decoded := decode(Payload(CategoryURI(encode, c), CategoryLevel).value);
      decoded.Some? &&
      CategoryRequest(decoded.value) == Ok(Request(MITELE_BASEURL + "/" + c.id, []))
  {
    CategoryTravels(encode, decode, c);
    assert Get(CategoryJs(c), "id") == Str(c.id);
  }

  /** A program sent through its URI is fetched from the site followed by
      a slash and its own path, or throws a TypeError when that path does
      not convert to a string. */
  lemma ProgramFetchedThroughURI(encode: Value -> string, decode: string -> Option<Value>, p: Program)
    requires Lossless(encode, decode)
    requires ProgramStorable(p)
    ensures Payload(ProgramURI(encode, p), ProgramLevel).Some?
    ensures var decoded := decode(Payload(ProgramURI(encode, p), ProgramLevel).value);
      decoded.Some? &&
      (ToStr(p.url).Ok? ==> ProgramRequest(decoded.value) == Ok(Request(MITELE_BASEURL + "/" + ToStr(p.url).value, []))) &&
      (ToStr(p.url).Thrown? ==> ProgramRequest(decoded.value) == Thrown(TypeError))
  {
    ProgramTravels(encode, decode, p);
    assert Get(ProgramJs(p), "url") == p.url;
  }

  /** A video sent through its URI is resolved by asking the helper site
      about the site's page of its url, or throws a TypeError when that url
      does not convert to a string. */
  lemma VideoResolvedThroughURI(encode: Value -> string, decode: string -> Option<Value>, v: Video)
    requires Lossless(encode, decode)
    requires VideoStorable(v)
    ensures Payload(VideoURI(encode, v), VideoLevel).Some?
    ensures var decoded := decode(Payload(VideoURI(encode, v), VideoLevel).value);
      decoded.Some? &&
      (ToStr(v.url).Ok? ==>
        VideoPageURL(decoded.value) == Ok(MITELE_BASEURL + ToStr(v.url).value) &&
        HandlerRequest(VideoPageURL(decoded.value).value) ==
          Request(DESCARGAVIDEOS_BASEURL, [("modo", Num(1)), ("web", Str(MITELE_BASEURL + ToStr(v.url).value))])) &&
      (ToStr(v.url).Thrown? ==> VideoPageURL(decoded.value) == Thrown(TypeError))
  {
    VideoTravels(encode, decode, v);
    assert Get(VideoJs(v), "url") == v.url;
  }

  /** A season sent through its URI is fetched from the listing of its own
      id and page, or throws a TypeError when either does not convert to a
      string. */
  lemma SeasonFetchedThroughURI(encode: Value -> string, decode: string -> Option<Value>, s: Season)
    requires Lossless(encode, decode)
    requires SeasonStorable(s)
    ensures Payload(SeasonURI(encode, s), SeasonLevel).Some?
    ensures var decoded := decode(Payload(SeasonURI(encode, s), SeasonLevel).value);
      decoded.Some? &&
      (ToStr(s.id).Ok? && ToStr(s.page).Ok? ==>
        SeasonRequest(decoded.value) ==
          Ok(Request(MITELE_BASEURL + SEASON_LISTING + ToStr(s.id).value + "/" + ToStr(s.page).value, []))) &&
      (ToStr(s.id).Thrown? || ToStr(s.page).Thrown? ==> SeasonRequest(decoded.value) == Thrown(TypeError))
  {
    SeasonTravels(encode, decode, s);
    assert Get(SeasonJs(s), "id") == s.id && Get(SeasonJs(s), "page") == s.page;
  }

  /** A season with page 1, as the program page produces them, is fetched
      from the first page of its listing. */
  lemma FreshSeasonFetchesFirstPage(s: Season)
    requires s.page == Num(1)
    ensures SeasonRequest(SeasonJs(s)).Ok? <==> ToStr(s.id).Ok?
    ensures SeasonRequest(SeasonJs(s)).Ok? ==>
      var url := SeasonRequest(SeasonJs(s)).value.url;
      StartsWith(url, MITELE_BASEURL + SEASON_LISTING) && EndsWith(url, "/1") &&
      url[|MITELE_BASEURL + SEASON_LISTING|..|url| - 2] == ToStr(s.id).value
  {
    var obj := SeasonJs(s);
    assert Get(obj, "page") == Num(1) && Get(obj, "id") == s.id;
    assert ToStr(Num(1)) == Ok("1");
    if ToStr(s.id).Ok? {
      var head := MITELE_BASEURL + SEASON_LISTING;
      assert SeasonRequest(obj).value.url == head + ToStr(s.id).value + "/" + "1";
      FirstPageLayout(head, ToStr(s.id).value);
    }
  }

  lemma FirstPageLayout(head: string, id: string)
    ensures var url := head + id + "/" + "1";
      StartsWith(url, head) && EndsWith(url, "/1") && url[|head|..|url| - 2] == id
  {
    var url := head + id + "/" + "1";
    assert url[..|head|] == head;
    assert url[|url| - 2..] == "/1";
    assert url[|head|..|url| - 2] == id;
  }
}
