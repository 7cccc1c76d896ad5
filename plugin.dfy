/** The plugin's controllers, one per route, and the list-building loops
    they use. The host's page object is a class whose fields the
    controllers set; the module-wide category list is an array that the
    start page updates in place. JSON encoding and decoding, the program
    pattern and the HTTP fetch are the host's, passed to every controller
    as a `Host`. A controller that throws returns the exception, and what
    it changed on the page before the throw stays changed: a request or a
    listing that throws leaves the page as it was, a video whose metadata
    throws ends the list after the videos before it, and a category title
    that throws leaves the category's programs listed and the page's type,
    contents and logo set. */
module Plugin {
  import opened Js
  import opened Records
  import opened Models
  import opened Parsers
  import opened Views

  const TITLE := "mitele"
  const MITELE_LOGO := "http://www.mitele.es/theme-assets/themes/views/themes/mitele/img/logo/mitele-head.png"

  /** The host services the controllers call: `showtime.JSONEncode`,
      `showtime.JSONDecode`, the program pattern's `exec`, and an HTTP GET
      returning the response body. */
  datatype Host = Host(encode: Value -> string, decode: string -> Option<Value>,
                       matcher: string -> Option<Groups>, fetch: Request -> string)

  /** How the host lays out a page: 'items' or 'contents'. */
  datatype Arrangement = ItemsArrangement | ContentsArrangement

  /** One `page.appendItem(uri, type, metadata)`. */
  datatype Item = Item(uri: string, itemType: ItemType, metadata: Metadata)

  /** The host's page properties a controller sets: `page.type`,
      `page.contents`, `page.metadata.logo`, `page.metadata.title`,
      `page.source` and `page.loading`. */
  datatype PageState = PageState(pageType: Option<ItemType>, contents: Option<Arrangement>,
                                 logo: Value, title: Value, source: Option<string>, loading: bool)

  /** The host's page: the appended items and the properties controllers set. */
  class Page {
    var items: seq<Item>
    var state: PageState

    constructor ()
      ensures items == [] && state == PageState(None, None, Undefined, Undefined, None, true)
    {
      items := [];
      state := PageState(None, None, Undefined, Undefined, None, true);
    }

    method AppendItem(uri: string, itemType: ItemType, metadata: Metadata)
      modifies this`items
      ensures items == old(items) + [Item(uri, itemType, metadata)]
    {
      items := items + [Item(uri, itemType, metadata)];
    }
  }

  /** The start page's item for a category: a directory opening that
      category, titled with its plain title. */
  function CategoryItem(encode: Value -> string, c: Category): (item: Item)
    ensures Payload(item.uri, CategoryLevel) == Some(encode(CategoryJs(c)))
    ensures item.itemType == DirectoryType && item.metadata.title == Plain(Str(c.title))
    ensures item.metadata.description.None? && item.metadata.icon == Undefined
  {
    Item(CategoryURI(encode, c), DirectoryType, Metadata(Plain(Str(c.title)), None, Undefined))
  }

  /** displayPrograms' item for a program: a video item opening that
      program, with the program's metadata. */
  function ProgramItem(encode: Value -> string, p: Program): (item: Item)
    ensures Payload(item.uri, ProgramLevel) == Some(encode(ProgramJs(p)))
    ensures item.itemType == VideoType && item.metadata == ProgramMetadata(p)
  {
    Item(ProgramURI(encode, p), VideoType, ProgramMetadata(p))
  }

  /** displaySeasons' item for a season: a directory opening that season,
      with the season's metadata. */
  function SeasonItem(encode: Value -> string, s: Season): (item: Item)
    ensures Payload(item.uri, SeasonLevel) == Some(encode(SeasonJs(s)))
    ensures item.itemType == DirectoryType && item.metadata == SeasonMetadata(s)
  {
    Item(SeasonURI(encode, s), DirectoryType, SeasonMetadata(s))
  }

  /** displayVideos' item for a video: a video item opening that video,
      with the video's metadata, or the TypeError computing the metadata
      throws. */
  function VideoItem(encode: Value -> string, v: Video): (r: Outcome<Item>)
    ensures r.Thrown? <==> VideoMetadata(v).Thrown?
    ensures r.Thrown? ==> r.error == TypeError
    ensures r.Ok? ==>
      Payload(r.value.uri, VideoLevel) == Some(encode(VideoJs(v))) &&
      r.value.itemType == VideoType && r.value.metadata == VideoMetadata(v).value
  {
    var metadata :- VideoMetadata(v);
    Ok(Item(VideoURI(encode, v), VideoType, metadata))
  }

  /** The items a display loop appends: one per element, in order. */
  function CategoryItems(encode: Value -> string, cs: seq<Category>): (r: seq<Item>)
    ensures |r| == |cs|
  {
    if cs == [] then [] else CategoryItems(encode, cs[..|cs| - 1]) + [CategoryItem(encode, cs[|cs| - 1])]
  }

  function ProgramItems(encode: Value -> string, ps: seq<Program>): (r: seq<Item>)
    ensures |r| == |ps|
  {
    if ps == [] then [] else ProgramItems(encode, ps[..|ps| - 1]) + [ProgramItem(encode, ps[|ps| - 1])]
  }

  function SeasonItems(encode: Value -> string, ss: seq<Season>): (r: seq<Item>)
    ensures |r| == |ss|
  {
    if ss == [] then [] else SeasonItems(encode, ss[..|ss| - 1]) + [SeasonItem(encode, ss[|ss| - 1])]
  }

  /** What displayVideos appends, and the exception that ends it early,
      if one does. */
  datatype Display = Display(items: seq<Item>, thrown: Option<JsError>)

  /** A display loop whose items can throw, from position `from` on: the
      items in order, up to the first exception, which ends it. */
  function Shown(outcomes: seq<Outcome<Item>>, from: nat): (d: Display)
    requires from <= |outcomes|
    decreases |outcomes| - from
  {
    if from == |outcomes| then Display([], None)
    else match outcomes[from]
      case Thrown(e) => Display([], Some(e))
      case Ok(item) =>
        var rest := Shown(outcomes, from + 1);
        Display([item] + rest.items, rest.thrown)
  }

  /** The outcome of each video's item. */
  function VideoOutcomes(encode: Value -> string, vs: seq<Video>): (r: seq<Outcome<Item>>)
    ensures |r| == |vs| && forall i :: 0 <= i < |vs| ==> r[i] == VideoItem(encode, vs[i])
  {
    seq(|vs|, i requires 0 <= i < |vs| => VideoItem(encode, vs[i]))
  }

  /** The video loop: the videos' items, shown until one throws. */
  function VideoDisplay(encode: Value -> string, vs: seq<Video>): Display
  {
    Shown(VideoOutcomes(encode, vs), 0)
  }

  /** The video list: item `i` is the item of video `i`; the list is
      complete when nothing is thrown, and otherwise stops at the first
      video whose metadata throws a TypeError. */
  lemma VideoDisplaySpec(encode: Value -> string, vs: seq<Video>)
    ensures var d := VideoDisplay(encode, vs);
      |d.items| <= |vs| &&
      (forall i :: 0 <= i < |d.items| ==> VideoItem(encode, vs[i]) == Ok(d.items[i])) &&
      (d.thrown.None? ==> |d.items| == |vs|) &&
      (d.thrown.Some? ==>
        |d.items| < |vs| && VideoItem(encode, vs[|d.items|]).Thrown? && d.thrown == Some(TypeError))
  {
    var outcomes := VideoOutcomes(encode, vs);
    ShownSpec(outcomes, 0);
    var d := Shown(outcomes, 0);
    assert forall i :: 0 <= i < |d.items| ==> outcomes[i] == Ok(d.items[i]);
    if d.thrown.Some? {
      assert outcomes[|d.items|].Thrown?;
    }
  }

  /** The category list: item `i` opens category `i` as a directory titled
      with its plain title. */
  lemma {:induction false} CategoryItemsSpec(encode: Value -> string, cs: seq<Category>)
    ensures forall i :: 0 <= i < |cs| ==>
      CategoryItems(encode, cs)[i] ==
        Item(CategoryURI(encode, cs[i]), DirectoryType, Metadata(Plain(Str(cs[i].title)), None, Undefined))
  {
    if cs != [] {
      var init := cs[..|cs| - 1];
      CategoryItemsSpec(encode, init);
      assert forall i :: 0 <= i < |init| ==> init[i] == cs[i];
    }
  }

  /** The program list: item `i` opens program `i` as a video item with
      the program's metadata. */
  lemma {:induction false} ProgramItemsSpec(encode: Value -> string, ps: seq<Program>)
    ensures forall i :: 0 <= i < |ps| ==>
      ProgramItems(encode, ps)[i] == Item(ProgramURI(encode, ps[i]), VideoType, ProgramMetadata(ps[i]))
  {
    if ps != [] {
      var init := ps[..|ps| - 1];
      ProgramItemsSpec(encode, init);
      assert forall i :: 0 <= i < |init| ==> init[i] == ps[i];
    }
  }

  /** The season list: item `i` opens season `i` as a directory with the
      season's metadata. */
  lemma {:induction false} SeasonItemsSpec(encode: Value -> string, ss: seq<Season>)
    ensures forall i :: 0 <= i < |ss| ==>
      SeasonItems(encode, ss)[i] == Item(SeasonURI(encode, ss[i]), DirectoryType, SeasonMetadata(ss[i]))
  {
    if ss != [] {
      var init := ss[..|ss| - 1];
      SeasonItemsSpec(encode, init);
      assert forall i :: 0 <= i < |init| ==> init[i] == ss[i];
    }
  }

  /** A display loop from position `from` on: its item `i` is outcome
      `from + i`; it runs to the end when nothing is thrown, and otherwise
      stops with the exception of the first outcome that throws. */
  lemma {:induction false} ShownSpec(outcomes: seq<Outcome<Item>>, from: nat)
    requires from <= |outcomes|
    ensures var d := Shown(outcomes, from);
      |d.items| <= |outcomes| - from &&
      (forall i :: 0 <= i < |d.items| ==> outcomes[from + i] == Ok(d.items[i])) &&
      (d.thrown.None? ==> |d.items| == |outcomes| - from) &&
      (d.thrown.Some? ==>
        from + |d.items| < |outcomes| && outcomes[from + |d.items|].Thrown? &&
        d.thrown == Some(outcomes[from + |d.items|].error))
    decreases |outcomes| - from
  {
    if from < |outcomes| && outcomes[from].Ok? {
      ShownSpec(outcomes, from + 1);
    }
  }

  /** categoryPage's title: the category's title followed by its page in
      parentheses, which throws when either does not convert to a string. */
  function CategoryPageTitle(category: Value): (r: Outcome<Value>)
    ensures r.Thrown? ==> r.error == TypeError
    ensures r.Ok? <==> ToStr(Get(category, "title")).Ok? && ToStr(Get(category, "page")).Ok?
    ensures r.Ok? ==>
      r.value.Str? &&
      StartsWith(r.value.s, ToStr(Get(category, "title")).value) &&
      EndsWith(r.value.s, " (" + ToStr(Get(category, "page")).value + ")")
    ensures r.Ok? ==>
      r.value == Str(ToStr(Get(category, "title")).value + " (" + ToStr(Get(category, "page")).value + ")")
  {
    var title :- ToStr(Get(category, "title"));
    var number :- ToStr(Get(category, "page"));
    var tail := " (" + number + ")";
    var t := title + tail;
    assert t == title + " (" + number + ")";
    assert t[..|title|] == title;
    assert t[|t| - |tail|..] == tail;
    Ok(Str(t))
  }

  /** Every category the start page lists opens a category page titled
      with the category's title and page 1. */
  lemma StartedCategoryTitle(encode: Value -> string, decode: string -> Option<Value>, c: Category)
    requires Lossless(encode, decode)
    ensures var started := c.(page := Num(1));
      var payload := Payload(CategoryURI(encode, started), CategoryLevel);
      payload.Some? && decode(payload.value).Some? &&
      !Nullish(decode(payload.value).value) &&
      CategoryPageTitle(decode(payload.value).value) == Ok(Str(c.title + " (1)"))
  {
    var started := c.(page := Num(1));
    CategoryTravels(encode, decode, started);
    var decoded := decode(Payload(CategoryURI(encode, started), CategoryLevel).value).value;
    assert Get(decoded, "title") == Get(CategoryJs(started), "title") == Str(c.title);
    assert Get(decoded, "page") == Get(CategoryJs(started), "page") == Num(1);
    assert ToStr(Num(1)) == Ok("1");
    assert CategoryPageTitle(decoded) == Ok(Str(c.title + (" (" + "1" + ")")));
    assert " (" + "1" + ")" == " (1)";
  }

  /** The module-wide `CATEGORIES` array as the plugin loads it. */
  method NewCategories() returns (categories: array<Category>)
    ensures fresh(categories) && categories[..] == CATEGORIES
  {
    categories := new Category[] [CATEGORIES[0], CATEGORIES[1], CATEGORIES[2], CATEGORIES[3]];
  }

  /** The categories once startPage has set each one's page to 1. */
  function Started(cs: seq<Category>): (r: seq<Category>)
    ensures |r| == |cs|
  {
    if cs == [] then [] else Started(cs[..|cs| - 1]) + [cs[|cs| - 1].(page := Num(1))]
  }

  /** Starting keeps every category's id and title, in order, and gives
      each page 1. */
  lemma {:induction false} StartedSpec(cs: seq<Category>)
    ensures forall i :: 0 <= i < |cs| ==>
      Started(cs)[i] == Category(cs[i].id, cs[i].title, Num(1))
  {
    if cs != [] {
      var init := cs[..|cs| - 1];
      StartedSpec(init);
      assert forall i :: 0 <= i < |init| ==> init[i] == cs[i];
    }
  }

  /** Starting one more category appends it, with page 1, to the started
      ones. */
  lemma StartedStep(original: seq<Category>, i: nat)
    requires i < |original|
    ensures Started(original[..i + 1]) == Started(original[..i]) + [original[i].(page := Num(1))]
  {
    assert original[..i + 1][..i] == original[..i];
  }

  lemma CategoryItemsSnoc(encode: Value -> string, cs: seq<Category>, c: Category)
    ensures CategoryItems(encode, cs + [c]) == CategoryItems(encode, cs) + [CategoryItem(encode, c)]
  {
    assert (cs + [c])[..|cs|] == cs;
  }

  /** One turn of startPage's loop, with the categories before `i` already
      started (`done`) and the rest (`rest`) still to go: the category at
      `i` gets page 1 and is listed as a directory after the items of the
      ones before it. */
  method StartCategory(encode: Value -> string, categories: array<Category>, page: Page, i: nat,
                       ghost done: seq<Category>, ghost rest: seq<Category>, ghost before: seq<Item>)
    requires i == |done| && rest != [] && categories[..] == done + rest
    requires page.items == before + CategoryItems(encode, done)
    modifies page`items, categories
    ensures categories[..] == (done + [rest[0].(page := Num(1))]) + rest[1..]
    ensures page.items == before + CategoryItems(encode, done + [rest[0].(page := Num(1))])
  {
    assert categories[i] == rest[0];
    var category := categories[i].(page := Num(1));
    categories[i] := category;
    assert categories[..] == (done + [category]) + rest[1..];
    CategoryItemsSnoc(encode, done, category);
    page.AppendItem(CategoryURI(encode, category), DirectoryType, Metadata(Plain(Str(category.title)), None, Undefined));
  }

  /** The loop of startPage: every category gets page 1 and is listed as
      a directory, in order. */
  method ListCategories(encode: Value -> string, categories: array<Category>, page: Page)
    modifies page`items, categories
    ensures categories[..] == Started(old(categories[..]))
    ensures page.items == old(page.items) + CategoryItems(encode, Started(old(categories[..])))
  {
    ghost var original := categories[..];
    ghost var done: seq<Category> := [];
    for i := 0 to categories.Length
      invariant done == Started(original[..i])
      invariant categories[..] == done + original[i..]
      invariant page.items == old(page.items) + CategoryItems(encode, done)
    {
      StartedStep(original, i);
      assert original[i..][0] == original[i] && original[i..][1..] == original[i + 1..];
      StartCategory(encode, categories, page, i, done, original[i..], old(page.items));
      done := done + [original[i].(page := Num(1))];
    }
    assert original[..categories.Length] == original;
  }

  /** startPage, the controller of `START_URI`: the categories with page 1, then the workaround program,
      on an items page titled "mitele" with the site's logo. */
  method StartPage(host: Host, categories: array<Category>, page: Page)
    modifies page, categories
    ensures categories[..] == Started(old(categories[..]))
    ensures page.items == old(page.items) + CategoryItems(host.encode, Started(old(categories[..]))) +
      [Item(ProgramURI(host.encode, WORKAROUND_PROGRAM), DirectoryType, Metadata(Plain(WORKAROUND_PROGRAM.title), None, Undefined))]
    ensures page.state == old(page.state).(pageType := Some(DirectoryType), contents := Some(ItemsArrangement),
                                           logo := Str(MITELE_LOGO), title := Str(TITLE), loading := false)
  {
    ListCategories(host.encode, categories, page);

    var program := WORKAROUND_PROGRAM;
    page.AppendItem(ProgramURI(host.encode, program), DirectoryType, Metadata(Plain(program.title), None, Undefined));

    page.state := page.state.(pageType := Some(DirectoryType), contents := Some(ItemsArrangement),
                              logo := Str(MITELE_LOGO), title := Str(TITLE), loading := false);
  }

  /** displayPrograms. */
  method DisplayPrograms(encode: Value -> string, page: Page, programs: seq<Program>)
    modifies page`items
    ensures page.items == old(page.items) + ProgramItems(encode, programs)
  {
    for i := 0 to |programs|
      invariant page.items == old(page.items) + ProgramItems(encode, programs[..i])
    {
      var program := programs[i];
      assert programs[..i + 1][..i] == programs[..i];
      page.AppendItem(ProgramURI(encode, program), VideoType, ProgramMetadata(program));
    }
    assert programs[..|programs|] == programs;
  }

  /** displaySeasons. */
  method DisplaySeasons(encode: Value -> string, page: Page, seasons: seq<Season>)
    modifies page`items
    ensures page.items == old(page.items) + SeasonItems(encode, seasons)
  {
    for i := 0 to |seasons|
      invariant page.items == old(page.items) + SeasonItems(encode, seasons[..i])
    {
      var season := seasons[i];
      assert seasons[..i + 1][..i] == seasons[..i];
      page.AppendItem(SeasonURI(encode, season), DirectoryType, SeasonMetadata(season));
    }
    assert seasons[..|seasons|] == seasons;
  }

  /** A display loop whose items can throw: appends the items in order
      and stops with the first exception. */
  method DisplayOutcomes(page: Page, outcomes: seq<Outcome<Item>>) returns (thrown: Option<JsError>)
    modifies page`items
    ensures page.items == old(page.items) + Shown(outcomes, 0).items
    ensures thrown == Shown(outcomes, 0).thrown
  {
    ghost var appended: seq<Item> := [];
    var i := 0;
    while i < |outcomes|
      invariant 0 <= i <= |outcomes|
      invariant page.items == old(page.items) + appended
      invariant Shown(outcomes, 0).items == appended + Shown(outcomes, i).items
      invariant Shown(outcomes, 0).thrown == Shown(outcomes, i).thrown
    {
      var item := outcomes[i];
      if item.Thrown? {
        return Some(item.error);
      }
      page.AppendItem(item.value.uri, item.value.itemType, item.value.metadata);
      appended := appended + [item.value];
      i := i + 1;
    }
    return None;
  }

  /** displayVideos: appends the videos' items in order, and stops with
      the TypeError of the first video whose metadata throws. */
  method DisplayVideos(encode: Value -> string, page: Page, videos: seq<Video>) returns (thrown: Option<JsError>)
    modifies page`items
    ensures page.items == old(page.items) + VideoDisplay(encode, videos).items
    ensures thrown == VideoDisplay(encode, videos).thrown
  {
    thrown := DisplayOutcomes(page, VideoOutcomes(encode, videos));
  }

  /** The programs the listing page of a category yields. */
  function CategoryPrograms(host: Host, category: Value): seq<Program>
    requires CategoryRequest(category).Ok?
  {
    ProgramsFrom(ProgramFragments(host.fetch(CategoryRequest(category).value)), host.matcher)
  }

  /** categoryPage once the category's request has been built: the
      programs are listed and the page's type, contents and logo set
      before the title is computed; a title that throws ends it there,
      otherwise the title is set and loading ends. */
  method ListCategory(host: Host, page: Page, category: Value) returns (thrown: Option<JsError>)
    requires CategoryRequest(category).Ok?
    modifies page
    ensures page.items == old(page.items) + ProgramItems(host.encode, CategoryPrograms(host, category))
    ensures var arranged := old(page.state).(pageType := Some(DirectoryType), contents := Some(ItemsArrangement),
                                             logo := Str(MITELE_LOGO));
      var title := CategoryPageTitle(category);
      (title.Thrown? ==> thrown == Some(TypeError) && page.state == arranged) &&
      (title.Ok? ==> thrown == None && page.state == arranged.(title := title.value, loading := false))
  {
    var request := CategoryRequest(category).value;
    var html := host.fetch(request);
    var programs := ParsePrograms(html, host.matcher);

    DisplayPrograms(host.encode, page, programs);

    page.state := page.state.(pageType := Some(DirectoryType), contents := Some(ItemsArrangement),
                              logo := Str(MITELE_LOGO));
    var title := CategoryPageTitle(category);
    if title.Thrown? {
      return Some(title.error);
    }
    page.state := page.state.(title := title.value, loading := false);
    return None;
  }

  /** categoryPage: the programs of the category's listing, as video
      items, under the title "<title> (<page>)". */
  method CategoryPage(host: Host, page: Page, payload: string) returns (thrown: Option<JsError>)
    modifies page
    ensures host.decode(payload).None? ==> thrown == Some(SyntaxError) && unchanged(page)
    ensures host.decode(payload).Some? && CategoryRequest(host.decode(payload).value).Thrown? ==>
      thrown == Some(TypeError) && unchanged(page)
    ensures host.decode(payload).Some? && CategoryRequest(host.decode(payload).value).Ok? ==>
      var category := host.decode(payload).value;
      var arranged := old(page.state).(pageType := Some(DirectoryType), contents := Some(ItemsArrangement),
                                       logo := Str(MITELE_LOGO));
      var title := CategoryPageTitle(category);
      page.items == old(page.items) + ProgramItems(host.encode, CategoryPrograms(host, category)) &&
      (title.Thrown? ==> thrown == Some(TypeError) && page.state == arranged) &&
      (title.Ok? ==> thrown == None && page.state == arranged.(title := title.value, loading := false))
  {
    var decoded := host.decode(payload);
    if decoded.None? {
      return Some(SyntaxError);
    }
    var category := decoded.value;
    if CategoryRequest(category).Thrown? {
      return Some(CategoryRequest(category).error);
    }
    thrown := ListCategory(host, page, category);
  }

  /** programPage: the seasons of the program's page, as directories,
      under the program's title and logo. */
  method ProgramPage(host: Host, page: Page, payload: string) returns (thrown: Option<JsError>)
    modifies page
    ensures host.decode(payload).None? ==> thrown == Some(SyntaxError) && unchanged(page)
    ensures host.decode(payload).Some? && ProgramRequest(host.decode(payload).value).Thrown? ==>
      thrown == Some(TypeError) && unchanged(page)
    ensures host.decode(payload).Some? && ProgramRequest(host.decode(payload).value).Ok? ==>
      var program := host.decode(payload).value;
      var seasons := Seasons(host.fetch(ProgramRequest(program).value), host.decode);
      (seasons.Thrown? ==> thrown == Some(seasons.error) && unchanged(page)) &&
      (seasons.Ok? ==>
        thrown == None &&
        page.items == old(page.items) + SeasonItems(host.encode, seasons.value) &&
        page.state == old(page.state).(pageType := Some(DirectoryType), contents := Some(ContentsArrangement),
                                       logo := Get(program, "logo"), title := Get(program, "title"),
                                       loading := false))
  {
    var decoded := host.decode(payload);
    if decoded.None? {
      return Some(SyntaxError);
    }
    var program := decoded.value;
    var request := ProgramRequest(program);
    if request.Thrown? {
      return Some(request.error);
    }
    var html := host.fetch(request.value);
    var seasons := ParseSeasons(html, host.decode);
    if seasons.Thrown? {
      return Some(seasons.error);
    }

    DisplaySeasons(host.encode, page, seasons.value);

    page.state := page.state.(pageType := Some(DirectoryType), contents := Some(ContentsArrangement),
                              logo := Get(program, "logo"), title := Get(program, "title"), loading := false);
    return None;
  }

  /** seasonPage: the videos of the season's listing page, under the
      season's title; the logo is left as it was. A video whose metadata
      throws ends the page with the videos before it listed. */
  method SeasonPage(host: Host, page: Page, payload: string) returns (thrown: Option<JsError>)
    modifies page
    ensures host.decode(payload).None? ==> thrown == Some(SyntaxError) && unchanged(page)
    ensures host.decode(payload).Some? && SeasonRequest(host.decode(payload).value).Thrown? ==>
      thrown == Some(TypeError) && unchanged(page)
    ensures host.decode(payload).Some? && SeasonRequest(host.decode(payload).value).Ok? ==>
      var season := host.decode(payload).value;
      var videos := Videos(host.fetch(SeasonRequest(season).value), host.decode);
      (videos.Thrown? ==> thrown == Some(videos.error) && unchanged(page)) &&
      (videos.Ok? ==>
        var shown := VideoDisplay(host.encode, videos.value);
        page.items == old(page.items) + shown.items && thrown == shown.thrown &&
        (shown.thrown.Some? ==> page.state == old(page.state)) &&
        (shown.thrown.None? ==>
          page.state == old(page.state).(pageType := Some(DirectoryType), contents := Some(ContentsArrangement),
                                         title := Get(season, "title"), loading := false)))
  {
    var decoded := host.decode(payload);
    if decoded.None? {
      return Some(SyntaxError);
    }
    var season := decoded.value;
    var request := SeasonRequest(season);
    if request.Thrown? {
      return Some(request.error);
    }
    var body := host.fetch(request.value);
    var videos := ParseVideos(body, host.decode);
    if videos.Thrown? {
      return Some(videos.error);
    }

    thrown := DisplayVideos(host.encode, page, videos.value);
    if thrown.Some? {
      return;
    }

    page.state := page.state.(pageType := Some(DirectoryType), contents := Some(ContentsArrangement),
                              title := Get(season, "title"), loading := false);
  }

  /** videoPage: resolves the stream through the download-helper site and
      plays it as music or video by the text after its last ':'. */
  method VideoPage(host: Host, page: Page, payload: string) returns (thrown: Option<JsError>)
    modifies page
    ensures host.decode(payload).None? ==> thrown == Some(SyntaxError) && unchanged(page)
    ensures host.decode(payload).Some? && VideoPageURL(host.decode(payload).value).Thrown? ==>
      thrown == Some(TypeError) && unchanged(page)
    ensures host.decode(payload).Some? && VideoPageURL(host.decode(payload).value).Ok? ==>
      var video := host.decode(payload).value;
      var file := VideoFile(host.fetch(HandlerRequest(VideoPageURL(video).value)));
      thrown == None && page.items == old(page.items) &&
      page.state == old(page.state).(pageType := Some(PlaybackType(file)), source := Some(file), loading := false)
  {
    var decoded := host.decode(payload);
    if decoded.None? {
      return Some(SyntaxError);
    }
    var video := decoded.value;
    var url := VideoPageURL(video);
    if url.Thrown? {
      return Some(url.error);
    }
    var html := host.fetch(HandlerRequest(url.value));
    var file := VideoFile(html);
    var ext := LastSegment(file, ':');
    page.state := page.state.(pageType := Some(if ext == "mp3" then MusicType else VideoType),
                              source := Some(file), loading := false);
    return None;
  }
}
