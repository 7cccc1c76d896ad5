/** The three scrapers: programs out of a category page, seasons out of the
    script call embedded in a program page, and videos out of a season's
    JSON listing. Each is a method with a `for` loop that pushes one record
    per item, proved equal to a specification function; the lemmas state
    what the lists hold.
    The host's JSON decoder and the program regular expression are
    parameters: `decode` answers None where JSONDecode throws, and `matcher`
    gives the three capture groups of REGEX_PROGRAM or None for no match. */
module Parsers {
  import opened Js
  import opened Records

  const PROGRAM_LIST := "<div class=\"programCatList\">"
  const ELEMENT := "<li class=\"Element\">"
  const PAGINATION := "<div class=\"Pagination\">"
  const SEASONS_CALL := ".temporadasBrowser("

  /** Capture groups 1, 2 and 3 of REGEX_PROGRAM: link, title, image. */
  datatype Groups = Groups(url: string, title: string, logo: string)

  /** What the program pattern is known to need: the literal `href`. */
  ghost predicate NeedsHref(matcher: string -> Option<Groups>)
  {
    forall s :: matcher(s).Some? ==> Contains(s, "href")
  }

  // ---------------------------------------------------------------------
  // Projection of decoded items, shared by seasons and videos
  // ---------------------------------------------------------------------

  /** The list a `for` loop over `items` builds by pushing `f(item)`, or the
      exception of the first item for which `f` throws. */
  function Project<T>(items: seq<Value>, f: Value -> Outcome<T>): Outcome<seq<T>>
    decreases |items|
  {
    if items == [] then Ok([])
    else
      var front := Project(items[..|items| - 1], f);
      var last := f(items[|items| - 1]);
      if front.Thrown? then front
      else if last.Thrown? then Thrown(last.error)
      else Ok(front.value + [last.value])
  }

  /** The projection succeeds exactly when every item projects; then it
      holds one entry per item, in the items' order; otherwise it throws
      what some item throws. */
  lemma {:induction false} ProjectSpec<T>(items: seq<Value>, f: Value -> Outcome<T>)
    ensures Project(items, f).Ok? <==> forall i :: 0 <= i < |items| ==> f(items[i]).Ok?
    ensures Project(items, f).Ok? ==>
      |Project(items, f).value| == |items| &&
      forall i :: 0 <= i < |items| ==> Project(items, f).value[i] == f(items[i]).value
    ensures Project(items, f).Thrown? ==>
      exists i :: 0 <= i < |items| && f(items[i]) == Thrown(Project(items, f).error)
    decreases |items|
  {
    if items != [] {
      var front := items[..|items| - 1];
      ProjectSpec(front, f);
      assert forall i :: 0 <= i < |front| ==> front[i] == items[i];
    }
  }

  /** Once a prefix throws, the whole projection throws the same. */
  lemma {:induction false} ProjectThrownPrefix<T>(items: seq<Value>, j: nat, f: Value -> Outcome<T>)
    requires j <= |items|
    requires Project(items[..j], f).Thrown?
    ensures Project(items, f) == Project(items[..j], f)
    decreases |items| - j
  {
    if j < |items| {
      assert items[..j + 1][..j] == items[..j];
      ProjectThrownPrefix(items, j + 1, f);
    } else {
      assert items[..j] == items;
    }
  }

  // ---------------------------------------------------------------------
  // Programs
  // ---------------------------------------------------------------------

  /** The program table of a category page: from the first list element
      after the table's start to the pagination block after it, with line
      breaks turned into spaces. */
  function ProgramText(html: string): (text: string)
    ensures |text| <= |html|
    ensures forall i :: 0 <= i < |text| ==> !IsLineBreak(text[i])
  {
    var init := IndexOf(html, ELEMENT, IndexOf(html, PROGRAM_LIST, 0));
    var end := IndexOf(html, PAGINATION, init);
    ReplaceLineBreaksSpec(Slice(html, init, end));
    ReplaceLineBreaks(Slice(html, init, end))
  }

  function ProgramFragments(html: string): seq<string>
  {
    Split(ProgramText(html), ELEMENT)
  }

  /** The program of a match: a null id and the three groups, all values
      that survive JSON encoding. */
  function ProgramOf(g: Groups): (p: Program)
    ensures p.id == Null && ProgramStorable(p)
  {
    Program(Null, Str(g.url), Str(g.title), Str(g.logo))
  }

  /** The programs the fragments yield, in order; a fragment the pattern
      does not match yields none. */
  function ProgramsFrom(fragments: seq<string>, matcher: string -> Option<Groups>): (r: seq<Program>)
    ensures |r| <= |fragments|
    decreases |fragments|
  {
    if fragments == [] then []
    else
      var init := ProgramsFrom(fragments[..|fragments| - 1], matcher);
      match matcher(fragments[|fragments| - 1])
      case Some(g) => init + [ProgramOf(g)]
      case None => init
  }

  /** Every program comes from a fragment the pattern matched: its id is
      null and its url, title and logo are capture groups 1, 2 and 3. */
  lemma {:induction false} ProgramsFromMatches(fragments: seq<string>, matcher: string -> Option<Groups>)
    ensures forall p :: p in ProgramsFrom(fragments, matcher) ==>
      p.id == Null &&
      exists i :: 0 <= i < |fragments| && matcher(fragments[i]).Some? &&
        p == ProgramOf(matcher(fragments[i]).value)
    decreases |fragments|
  {
    if fragments != [] {
      var init := fragments[..|fragments| - 1];
      ProgramsFromMatches(init, matcher);
      assert forall i :: 0 <= i < |init| ==> init[i] == fragments[i];
    }
  }

  /** The programs of two runs of fragments are those of the first run
      followed by those of the second: extraction keeps fragment order. */
  lemma {:induction false} ProgramsFromAppend(a: seq<string>, b: seq<string>, matcher: string -> Option<Groups>)
    ensures ProgramsFrom(a + b, matcher) == ProgramsFrom(a, matcher) + ProgramsFrom(b, matcher)
    decreases |b|
  {
    if b != [] {
      assert (a + b)[..|a + b| - 1] == a + b[..|b| - 1];
      assert (a + b)[|a + b| - 1] == b[|b| - 1];
      ProgramsFromAppend(a, b[..|b| - 1], matcher);
    } else {
      assert a + b == a;
    }
  }

  /** parsePrograms. */
  method ParsePrograms(html: string, matcher: string -> Option<Groups>) returns (programs: seq<Program>)
    ensures programs == ProgramsFrom(ProgramFragments(html), matcher)
  {
    var init := IndexOf(html, PROGRAM_LIST, 0);
    init := IndexOf(html, ELEMENT, init);
    var end := IndexOf(html, PAGINATION, init);
    var text := Slice(html, init, end);
    text := ReplaceLineBreaks(text);

    programs := [];
    var split := Split(text, ELEMENT);
    for i := 0 to |split|
      invariant programs == ProgramsFrom(split[..i], matcher)
    {
      var item := split[i];
      var match_ := matcher(item);
      if match_.Some? {
        programs := programs + [ProgramOf(match_.value)];
      }
      assert split[..i + 1][..i] == split[..i];
    }
    assert split[..|split|] == split;
  }

  lemma ElementShape()
    ensures ELEMENT[0] == '<' && ELEMENT[1] == 'l'
    ensures forall j :: 1 <= j < |ELEMENT| ==> ELEMENT[j] != '<'
    ensures forall j :: 0 <= j < |ELEMENT| ==> !IsLineBreak(ELEMENT[j])
  {
    assert '<' !in ELEMENT[1..];
    forall j | 1 <= j < |ELEMENT| ensures ELEMENT[j] != '<' {
      assert ELEMENT[j] == ELEMENT[1..][j - 1];
    }
    assert '\n' !in ELEMENT && '\r' !in ELEMENT;
    forall j | 0 <= j < |ELEMENT| ensures !IsLineBreak(ELEMENT[j]) {
      assert ELEMENT[j] in ELEMENT;
    }
  }

  /** A list element and a pagination block found after it do not overlap. */
  lemma MarkersApart(html: string, a: int, b: int)
    requires 0 <= a <= b
    requires OccursAt(html, ELEMENT, a) && OccursAt(html, PAGINATION, b)
    ensures a + |ELEMENT| <= b
  {
    ElementShape();
    assert html[a..a + |ELEMENT|] == ELEMENT;
    assert html[b..b + |PAGINATION|] == PAGINATION;
    assert html[b] == PAGINATION[0] == '<';
    assert html[b + 1] == PAGINATION[1] == 'd';
    assert html[a + 1] == ELEMENT[1] == 'l';
    forall j | a < j < a + |ELEMENT| ensures html[j] != '<' {
      assert html[j] == html[a..a + |ELEMENT|][j - a];
    }
  }

  /** A cut that starts with a separator free of line breaks still starts
      with it once line breaks are replaced, so its split opens with an
      empty part. */
  lemma {:induction false} CutStartsWithSeparator(html: string, sep: string, init: int, end: int)
    requires sep != "" && 0 <= init && init + |sep| <= end <= |html|
    requires OccursAt(html, sep, init)
    requires forall j :: 0 <= j < |sep| ==> !IsLineBreak(sep[j])
    ensures Split(ReplaceLineBreaks(Slice(html, init, end)), sep)[0] == ""
  {
    var cut := Slice(html, init, end);
    assert cut == html[init..end];
    var text := ReplaceLineBreaks(cut);
    ReplaceLineBreaksSpec(cut);
    assert text[..|sep|] == sep by {
      forall j | 0 <= j < |sep| ensures text[j] == sep[j] {
        assert cut[j] == html[init..init + |sep|][j];
      }
    }
    assert OccursAt(text, sep, 0);
    assert IndexOf(text, sep, 0) == 0;
  }

  /** When a list element and a pagination block after it are both found,
      the program text starts with the list-element marker, so the first
      fragment of the split is empty. */
  lemma FirstFragmentEmpty(html: string)
    requires IndexOf(html, ELEMENT, IndexOf(html, PROGRAM_LIST, 0)) >= 0
    requires IndexOf(html, PAGINATION, IndexOf(html, ELEMENT, IndexOf(html, PROGRAM_LIST, 0))) >= 0
    ensures ProgramFragments(html)[0] == ""
  {
    var init := IndexOf(html, ELEMENT, IndexOf(html, PROGRAM_LIST, 0));
    var end := IndexOf(html, PAGINATION, init);
    assert ProgramText(html) == ReplaceLineBreaks(Slice(html, init, end));
    assert ClampFrom(init, |html|) == init;
    MarkersApart(html, init, end);
    ElementShape();
    CutStartsWithSeparator(html, ELEMENT, init, end);
  }

  /** A slice from a position before the last character to -1 drops only
      the last character. */
  lemma SliceToLastCharacter(s: string, from: int)
    requires 0 <= from < |s|
    ensures Slice(s, from, -1) == s[from..|s| - 1]
  {
    assert RelativeIndex(-1, |s|) == |s| - 1;
  }

  /** Without a pagination block after the first list element, the end is
      -1, which `slice` reads as the page's last character: the program text
      runs from the list element to just before the end of the page. */
  lemma ProgramTextWithoutPagination(html: string)
    requires IndexOf(html, ELEMENT, IndexOf(html, PROGRAM_LIST, 0)) >= 0
    requires IndexOf(html, PAGINATION, IndexOf(html, ELEMENT, IndexOf(html, PROGRAM_LIST, 0))) == -1
    ensures var init := IndexOf(html, ELEMENT, IndexOf(html, PROGRAM_LIST, 0));
      init < |html| - 1 && ProgramText(html) == ReplaceLineBreaks(html[init..|html| - 1])
  {
    var init := IndexOf(html, ELEMENT, IndexOf(html, PROGRAM_LIST, 0));
    var end := IndexOf(html, PAGINATION, init);
    assert ProgramText(html) == ReplaceLineBreaks(Slice(html, init, end));
    assert OccursAt(html, ELEMENT, init);
    SliceToLastCharacter(html, init);
  }

  /** A fragment the pattern does not match is dropped; with the pattern's
      need for `href`, so is an empty first fragment. */
  lemma {:induction false} UnmatchedFragmentDropped(fragments: seq<string>, matcher: string -> Option<Groups>)
    requires fragments != []
    requires matcher(fragments[0]).None? || (NeedsHref(matcher) && fragments[0] == "")
    ensures ProgramsFrom(fragments, matcher) == ProgramsFrom(fragments[1..], matcher)
  {
    if fragments[0] == "" && NeedsHref(matcher) {
      assert !Contains("", "href");
    }
    var first := [fragments[0]];
    assert first[..0] == [];
    assert first + fragments[1..] == fragments;
    ProgramsFromAppend(first, fragments[1..], matcher);
  }

  /** On a category page with both markers, the programs are those of the
      fragments after the empty first one. */
  lemma CategoryPagePrograms(html: string, matcher: string -> Option<Groups>)
    requires NeedsHref(matcher)
    requires IndexOf(html, ELEMENT, IndexOf(html, PROGRAM_LIST, 0)) >= 0
    requires IndexOf(html, PAGINATION, IndexOf(html, ELEMENT, IndexOf(html, PROGRAM_LIST, 0))) >= 0
    ensures var fragments := ProgramFragments(html);
      ProgramsFrom(fragments, matcher) == ProgramsFrom(fragments[1..], matcher) &&
      |ProgramsFrom(fragments, matcher)| <= |fragments| - 1
  {
    FirstFragmentEmpty(html);
    UnmatchedFragmentDropped(ProgramFragments(html), matcher);
  }

  // ---------------------------------------------------------------------
  // Seasons
  // ---------------------------------------------------------------------

  /** Where the season array starts: the first `[` after the script call. */
  function SeasonStart(html: string): int
  {
    IndexOf(html, "[", IndexOf(html, SEASONS_CALL, 0))
  }

  /** One past the first `]` at or after the array's start. */
  function SeasonEnd(html: string): int
  {
    IndexOf(html, "]", SeasonStart(html)) + 1
  }

  function SeasonText(html: string): (text: string)
    ensures |text| <= |html|
    ensures forall i :: 0 <= i < |text| ==> !IsLineBreak(text[i])
  {
    ReplaceLineBreaksSpec(Slice(html, SeasonStart(html), SeasonEnd(html)));
    ReplaceLineBreaks(Slice(html, SeasonStart(html), SeasonEnd(html)))
  }

  /** The season an item makes: reading its fields throws on an undefined
      or null item, and every season starts at page 1. */
  function SeasonOf(item: Value): (r: Outcome<Season>)
    ensures r.Thrown? <==> Nullish(item)
    ensures r.Ok? ==> r.value.page == Num(1)
  {
    if Nullish(item) then Thrown(TypeError)
    else Ok(Season(Get(item, "ID"), Get(item, "post_title"), Get(item, "orden"), Num(1)))
  }

  /** The seasons a season text decodes to: decoding throws a SyntaxError
      when the text is not JSON, and the projection of its items throws a
      TypeError when the decoded value or an item is undefined or null. */
  function SeasonsOfText(text: string, decode: string -> Option<Value>): (r: Outcome<seq<Season>>)
    ensures r.Thrown? ==> (r.error == SyntaxError <==> decode(text).None?)
    ensures decode(text).None? ==> r == Thrown(SyntaxError)
    ensures r.Ok? ==> forall i :: 0 <= i < |r.value| ==> r.value[i].page == Num(1)
  {
    match decode(text)
    case None => Thrown(SyntaxError)
    case Some(v) =>
      var items :- Elements(v);
      ProjectSpec(items, SeasonOf);
      Project(items, SeasonOf)
  }

  /** The seasons of a program page: each at page 1; the parse throws a
      SyntaxError exactly when the cut text does not decode. */
  function Seasons(html: string, decode: string -> Option<Value>): (r: Outcome<seq<Season>>)
    ensures r.Thrown? ==> (r.error == SyntaxError <==> decode(SeasonText(html)).None?)
    ensures decode(SeasonText(html)).None? ==> r == Thrown(SyntaxError)
    ensures r.Ok? ==> forall i :: 0 <= i < |r.value| ==> r.value[i].page == Num(1)
  {
    SeasonsOfText(SeasonText(html), decode)
  }

  /** parseSeasons: cutting the season text out of the page. */
  method ParseSeasons(html: string, decode: string -> Option<Value>) returns (r: Outcome<seq<Season>>)
    ensures r == Seasons(html, decode)
  {
    var init := IndexOf(html, SEASONS_CALL, 0);
    init := IndexOf(html, "[", init);
    var end := IndexOf(html, "]", init) + 1;
    var text := Slice(html, init, end);
    text := ReplaceLineBreaks(text);
    r := DecodeSeasons(text, decode);
  }

  /** parseSeasons: decoding the season text and building the list. */
  method DecodeSeasons(text: string, decode: string -> Option<Value>) returns (r: Outcome<seq<Season>>)
    ensures r == SeasonsOfText(text, decode)
  {
    var decoded := decode(text);
    if decoded.None? {
      return Thrown(SyntaxError);
    }
    var elements := Elements(decoded.value);
    if elements.Thrown? {
      return Thrown(elements.error);
    }
    var items := elements.value;
    var seasons := [];
    for i := 0 to |items|
      invariant Project(items[..i], SeasonOf) == Ok(seasons)
    {
      var item := items[i];
      assert items[..i + 1][..i] == items[..i];
      if Nullish(item) {
        ProjectThrownPrefix(items, i + 1, SeasonOf);
        return Thrown(TypeError);
      }
      seasons := seasons + [Season(Get(item, "ID"), Get(item, "post_title"), Get(item, "orden"), Num(1))];
    }
    assert items[..|items|] == items;
    return Ok(seasons);
  }

  /** `t` is the array text cut from `html` at `b`: it runs from a `[` to
      the first `]` after it, holds no other `]` and no line break, and
      keeps every other character of the page at its place. */
  predicate ArrayCut(html: string, b: int, t: string)
  {
    0 <= b && b + |t| <= |html| && |t| >= 2 &&
    t[0] == '[' && t[|t| - 1] == ']' &&
    (forall i :: 0 <= i < |t| - 1 ==> t[i] != ']') &&
    (forall i :: 0 <= i < |t| ==> !IsLineBreak(t[i])) &&
    (forall i :: 0 <= i < |t| && !IsLineBreak(html[b + i]) ==> t[i] == html[b + i])
  }

  /** A cut from an opening `[` at `b` to the first `]` after it, with line
      breaks turned into spaces, is an array cut of its length. */
  lemma {:induction false} BracketCut(html: string, b: int, c: int, t: string)
    requires 0 <= b < |html| && html[b] == '['
    requires c == IndexOf(html, "]", b) && c >= 0
    requires t == ReplaceLineBreaks(Slice(html, b, c + 1))
    ensures |t| == c + 1 - b && ArrayCut(html, b, t)
  {
    assert ClampFrom(b, |html|) == b;
    assert html[c..c + 1] == "]";
    assert html[c] == ']';
    assert c != b;
    var cut := Slice(html, b, c + 1);
    assert cut == html[b..c + 1];
    IndexOfIsFirst(html, "]", b);
    ReplaceLineBreaksSpec(cut);
    forall i | 0 <= i < |cut| - 1 ensures cut[i] != ']' {
      CharOccurs(html, b + i);
    }
  }

  /** The cut from the first `[` at or after `k` to the first `]` after
      that, with line breaks replaced, is an array cut. */
  lemma ArrayCutAfter(html: string, k: int)
    requires IndexOf(html, "[", k) >= 0
    requires IndexOf(html, "]", IndexOf(html, "[", k)) >= 0
    ensures var b := IndexOf(html, "[", k);
      var t := ReplaceLineBreaks(Slice(html, b, IndexOf(html, "]", b) + 1));
      |t| == IndexOf(html, "]", b) + 1 - b && ArrayCut(html, b, t)
  {
    var b := IndexOf(html, "[", k);
    assert OccursAt(html, "[", b);
    assert html[b] == html[b..b + 1][0] == '[';
    var c := IndexOf(html, "]", b);
    var t := ReplaceLineBreaks(Slice(html, b, c + 1));
    BracketCut(html, b, c, t);
  }

  /** The text cut for the season array: when a `[` follows the script
      call and a `]` follows that, it is the array cut from that `[` to the
      first `]`. */
  lemma SeasonTextBounds(html: string)
    requires SeasonStart(html) >= 0
    requires SeasonEnd(html) > 0
    ensures |SeasonText(html)| == SeasonEnd(html) - SeasonStart(html)
    ensures ArrayCut(html, SeasonStart(html), SeasonText(html))
  {
    ArrayCutAfter(html, IndexOf(html, SEASONS_CALL, 0));
  }

  /** Without a `[` after the script call the start is -1, which `slice`
      reads as the page's last character: the cut is empty, or `]` when the
      page ends with one. */
  lemma SeasonTextWithoutArray(html: string)
    requires SeasonStart(html) == -1
    ensures SeasonText(html) == "" || SeasonText(html) == "]"
  {
    var end := SeasonEnd(html);
    if 0 < end < |html| {
      SliceEmpty(html, -1, end);
    } else if end == |html| && end > 0 {
      assert html[end - 1..end] == "]";
      assert Slice(html, -1, end) == "]";
    }
  }

  /** Without a `]` after the array's start the end is 0 and the cut is
      empty. */
  lemma SeasonTextWithoutClosingBracket(html: string)
    requires SeasonStart(html) >= 0
    requires SeasonEnd(html) == 0
    ensures SeasonText(html) == ""
  {
  }

  /** What parseSeasons promises: one season per decoded item, in order,
      with the item's ID, post_title and orden and page 1. It throws a
      SyntaxError when the text does not decode and a TypeError when the
      decoded value is undefined or null; a decoded array fails exactly when
      some item is undefined or null. */
  lemma {:induction false} SeasonsProjection(html: string, decode: string -> Option<Value>)
    ensures decode(SeasonText(html)).None? ==> Seasons(html, decode) == Thrown(SyntaxError)
    ensures decode(SeasonText(html)).Some? ==>
      var v := decode(SeasonText(html)).value;
      (Nullish(v) ==> Seasons(html, decode) == Thrown(TypeError)) &&
      (v.Arr? ==>
        (Seasons(html, decode).Ok? <==> forall i :: 0 <= i < |v.elems| ==> !Nullish(v.elems[i])) &&
        (Seasons(html, decode).Thrown? ==> Seasons(html, decode).error == TypeError) &&
        (Seasons(html, decode).Ok? ==>
          var seasons := Seasons(html, decode).value;
          |seasons| == |v.elems| &&
          forall i :: 0 <= i < |v.elems| ==>
            seasons[i] == Season(Get(v.elems[i], "ID"), Get(v.elems[i], "post_title"),
                                 Get(v.elems[i], "orden"), Num(1))))
  {
    if decode(SeasonText(html)).Some? {
      var v := decode(SeasonText(html)).value;
      if v.Arr? {
        ProjectSpec(v.elems, SeasonOf);
      }
    }
  }

  // ---------------------------------------------------------------------
  // Videos
  // ---------------------------------------------------------------------

  /** The video an item makes: reading its fields throws on an undefined
      or null item, and the url is the item's own, still relative. */
  function VideoOf(item: Value): (r: Outcome<Video>)
    ensures r.Thrown? <==> Nullish(item)
    ensures r.Ok? ==> r.value.url == Get(item, "url")
  {
    if Nullish(item) then Thrown(TypeError)
    else Ok(Video(Get(item, "ID"), Get(item, "post_title"), Get(item, "post_subtitle"),
                  Get(item, "post_content"), Get(item, "post_date"), Get(item, "image"), Get(item, "url")))
  }

  /** The videos of a season listing: the `episodes` of the decoded body. */
  function Videos(body: string, decode: string -> Option<Value>): (r: Outcome<seq<Video>>)
    ensures r.Thrown? ==> (r.error == SyntaxError <==> decode(body).None?)
    ensures r.Ok? ==>
      decode(body).Some? && Elements(Get(decode(body).value, "episodes")).Ok? &&
      var items := Elements(Get(decode(body).value, "episodes")).value;
      |r.value| == |items| && forall i :: 0 <= i < |items| ==> r.value[i].url == Get(items[i], "url")
  {
    match decode(body)
    case None => Thrown(SyntaxError)
    case Some(json) =>
      var episodes :- Member(json, "episodes");
      var items :- Elements(episodes);
      ProjectSpec(items, VideoOf);
      Project(items, VideoOf)
  }

  /** parseVideos. */
  method ParseVideos(body: string, decode: string -> Option<Value>) returns (r: Outcome<seq<Video>>)
    ensures r == Videos(body, decode)
  {
    var decoded := decode(body);
    if decoded.None? {
      return Thrown(SyntaxError);
    }
    var json := decoded.value;
    if Nullish(json) {
      return Thrown(TypeError);
    }
    var episodes := Get(json, "episodes");
    var elements := Elements(episodes);
    if elements.Thrown? {
      return Thrown(elements.error);
    }
    var items := elements.value;
    var videos := [];
    for i := 0 to |items|
      invariant Project(items[..i], VideoOf) == Ok(videos)
    {
      var item := items[i];
      assert items[..i + 1][..i] == items[..i];
      if Nullish(item) {
        ProjectThrownPrefix(items, i + 1, VideoOf);
        return Thrown(TypeError);
      }
      var video := Video(Get(item, "ID"), Get(item, "post_title"), Get(item, "post_subtitle"),
                         Get(item, "post_content"), Get(item, "post_date"), Get(item, "image"), Get(item, "url"));
      videos := videos + [video];
    }
    assert items[..|items|] == items;
    return Ok(videos);
  }

  /** What parseVideos promises: one video per entry of `episodes`, in
      order, each field copied unchanged from the entry (the url still
      relative to the site). It throws a SyntaxError when the body does not
      decode and a TypeError when the body or its `episodes` is undefined or
      null; an `episodes` array fails exactly when some entry is undefined
      or null. */
  lemma {:induction false} VideosProjection(body: string, decode: string -> Option<Value>)
    ensures decode(body).None? ==> Videos(body, decode) == Thrown(SyntaxError)
    ensures (decode(body).Some? &&
             (Nullish(decode(body).value) || Nullish(Get(decode(body).value, "episodes")))) ==>
      Videos(body, decode) == Thrown(TypeError)
    ensures decode(body).Some? && Get(decode(body).value, "episodes").Arr? ==>
      var entries := Get(decode(body).value, "episodes").elems;
      (Videos(body, decode).Ok? <==> forall i :: 0 <= i < |entries| ==> !Nullish(entries[i])) &&
      (Videos(body, decode).Thrown? ==> Videos(body, decode).error == TypeError) &&
      (Videos(body, decode).Ok? ==>
        var videos := Videos(body, decode).value;
        |videos| == |entries| &&
        forall i :: 0 <= i < |entries| ==>
          var e := entries[i];
          videos[i] == Video(Get(e, "ID"), Get(e, "post_title"), Get(e, "post_subtitle"),
                             Get(e, "post_content"), Get(e, "post_date"), Get(e, "image"), Get(e, "url")))
  {
    if decode(body).Some? && Get(decode(body).value, "episodes").Arr? {
      ProjectSpec(Get(decode(body).value, "episodes").elems, VideoOf);
    }
  }
}
