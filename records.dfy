/** The plugin's navigation records and the identifiers that carry them.
    Every level of the browse hierarchy (category, program, season, video)
    is a record; an item's URI is `mitele:<level>:` followed by the JSON
    encoding of its record, and the host hands the controller of that level
    the text after the prefix. JSON encoding and decoding belong to the host
    and are parameters here; `Lossless` is the round-trip law they are
    assumed to satisfy. */
module Records {
  import opened Js

  const PREFIX := "mitele"
  const START_URI := PREFIX + ":start"

  /** A hardcoded site section. `page` is undefined until the start page
      sets it to 1. */
  datatype Category = Category(id: string, title: string, page: Value)

  /** A program scraped from a category page, or the hardcoded workaround
      entry of the start page. */
  datatype Program = Program(id: Value, url: Value, title: Value, logo: Value)

  /** A season scraped from a program page. */
  datatype Season = Season(id: Value, title: Value, order: Value, page: Value)

  /** An episode read from a season's JSON listing. */
  datatype Video = Video(id: Value, title: Value, subtitle: Value, description: Value,
                         date: Value, icon: Value, url: Value)

  const CATEGORIES: seq<Category> := [
    Category("series-online", "Series", Undefined),
    Category("programas-tv", "Programas", Undefined),
    Category("tv-movies", "TV movies", Undefined),
    Category("deportes", "Deportes", Undefined)
  ]

  /** The program the start page always lists after the categories. */
  const WORKAROUND_PROGRAM := Program(Undefined, Str("/programas-tv/mujeres-y-hombres-y-viceversa/"),
                                      Str("Mujeres y Hombres y Viceversa"), Undefined)

  // ---------------------------------------------------------------------
  // Records as JSON objects
  // ---------------------------------------------------------------------

  /** A value JSON can represent: no undefined anywhere inside. */
  predicate IsJson(v: Value)
    decreases v
  {
    match v
    case Undefined => false
    case Arr(es) => forall i :: 0 <= i < |es| ==> IsJson(es[i])
    case Obj(props) => forall k :: k in props ==> IsJson(props[k])
    case _ => true
  }

  /** A property value a record may hold: JSON encoding drops it when it
      is undefined, and keeps it otherwise. */
  predicate Storable(v: Value)
  {
    v == Undefined || IsJson(v)
  }

  /** The properties of an object that JSON encoding keeps: those whose
      value is not undefined. */
  function Defined(props: map<string, Value>): map<string, Value>
  {
    map k | k in props && props[k] != Undefined :: props[k]
  }

  /** Dropping the undefined properties changes no property read. */
  lemma DefinedKeepsReads(props: map<string, Value>)
    ensures forall k :: Get(Obj(Defined(props)), k) == Get(Obj(props), k)
  {
  }

  /** The object literals the plugin encodes into its URIs. */
  function CategoryJs(c: Category): Value
  {
    Obj(map["id" := Str(c.id), "title" := Str(c.title), "page" := c.page])
  }

  function ProgramJs(p: Program): Value
  {
    Obj(map["id" := p.id, "url" := p.url, "title" := p.title, "logo" := p.logo])
  }

  function SeasonJs(s: Season): Value
  {
    Obj(map["id" := s.id, "title" := s.title, "order" := s.order, "page" := s.page])
  }

  function VideoJs(v: Video): Value
  {
    Obj(map["id" := v.id, "title" := v.title, "subtitle" := v.subtitle, "description" := v.description,
            "date" := v.date, "icon" := v.icon, "url" := v.url])
  }

  /** The round-trip law of the host's JSON codec on objects whose
      properties are undefined or JSON: encoding drops the undefined ones,
      and decoding gives back the object of the others. */
  ghost predicate Lossless(encode: Value -> string, decode: string -> Option<Value>)
  {
    forall props: map<string, Value> :: (forall k :: k in props ==> Storable(props[k])) ==>
      decode(encode(Obj(props))) == Some(Obj(Defined(props)))
  }

  // ---------------------------------------------------------------------
  // URIs and routing
  // ---------------------------------------------------------------------

  datatype Level = CategoryLevel | ProgramLevel | SeasonLevel | VideoLevel

  function LevelName(level: Level): string
  {
    match level
    case CategoryLevel => "category"
    case ProgramLevel => "program"
    case SeasonLevel => "season"
    case VideoLevel => "video"
  }

  function RoutePrefix(level: Level): string
  {
    PREFIX + ":" + LevelName(level) + ":"
  }

  /** The identifier of a navigation item of the given level. */
  function URI(level: Level, payload: string): string
  {
    RoutePrefix(level) + payload
  }

  /** What the host's route `mitele:<level>:(.*)` captures from a URI, or
      None when the URI does not belong to that level. */
  function Payload(uri: string, level: Level): (r: Option<string>)
    ensures r.Some? <==> StartsWith(uri, RoutePrefix(level))
    ensures r.Some? ==> URI(level, r.value) == uri
  {
    var p := RoutePrefix(level);
    if StartsWith(uri, p) then Some(uri[|p|..]) else None
  }

  /** The route of a level captures exactly the payload of that level's URI,
      and no other level's route matches it. */
  lemma RouteCapturesPayload(level: Level, other: Level, payload: string)
    ensures Payload(URI(level, payload), level) == Some(payload)
    ensures Payload(URI(level, payload), other).Some? <==> other == level
  {
    var uri := URI(level, payload);
    assert uri[..|RoutePrefix(level)|] == RoutePrefix(level);
    if other != level {
      assert uri[7] == RoutePrefix(level)[7];
      assert RoutePrefix(other)[7] != RoutePrefix(level)[7];
    }
  }

  /** categoryURI: only the category route matches it, and it
      captures the encoded object literal. */
  function CategoryURI(encode: Value -> string, c: Category): (uri: string)
    ensures Payload(uri, CategoryLevel) == Some(encode(CategoryJs(c)))
    ensures forall other :: Payload(uri, other).Some? <==> other == CategoryLevel
  {
    var payload := encode(CategoryJs(c));
    forall other { RouteCapturesPayload(CategoryLevel, other, payload); }
    URI(CategoryLevel, payload)
  }

  /** programURI: only the program route matches it, and it
      captures the encoded object literal. */
  function ProgramURI(encode: Value -> string, p: Program): (uri: string)
    ensures Payload(uri, ProgramLevel) == Some(encode(ProgramJs(p)))
    ensures forall other :: Payload(uri, other).Some? <==> other == ProgramLevel
  {
    var payload := encode(ProgramJs(p));
    forall other { RouteCapturesPayload(ProgramLevel, other, payload); }
    URI(ProgramLevel, payload)
  }

  /** seasonURI: only the season route matches it, and it
      captures the encoded object literal. */
  function SeasonURI(encode: Value -> string, s: Season): (uri: string)
    ensures Payload(uri, SeasonLevel) == Some(encode(SeasonJs(s)))
    ensures forall other :: Payload(uri, other).Some? <==> other == SeasonLevel
  {
    var payload := encode(SeasonJs(s));
    forall other { RouteCapturesPayload(SeasonLevel, other, payload); }
    URI(SeasonLevel, payload)
  }

  /** videoURI: only the video route matches it, and it
      captures the encoded object literal. */
  function VideoURI(encode: Value -> string, v: Video): (uri: string)
    ensures Payload(uri, VideoLevel) == Some(encode(VideoJs(v)))
    ensures forall other :: Payload(uri, other).Some? <==> other == VideoLevel
  {
    var payload := encode(VideoJs(v));
    forall other { RouteCapturesPayload(VideoLevel, other, payload); }
    URI(VideoLevel, payload)
  }

  /** A record travels losslessly through its URI: the route hands the
      controller the encoding, and decoding it gives an object that reads
      like the object literal it came from, property by property. */
  lemma RecordTravels(encode: Value -> string, decode: string -> Option<Value>,
                      level: Level, props: map<string, Value>)
    requires Lossless(encode, decode)
    requires forall k :: k in props ==> Storable(props[k])
    ensures var payload := Payload(URI(level, encode(Obj(props))), level);
      payload == Some(encode(Obj(props))) &&
      decode(payload.value).Some? && decode(payload.value).value.Obj? &&
      forall k :: Get(decode(payload.value).value, k) == Get(Obj(props), k)
  {
    RouteCapturesPayload(level, level, encode(Obj(props)));
    DefinedKeepsReads(props);
  }

  predicate SeasonStorable(s: Season)
  {
    Storable(s.id) && Storable(s.title) && Storable(s.order) && Storable(s.page)
  }

  lemma SeasonTravels(encode: Value -> string, decode: string -> Option<Value>, s: Season)
    requires Lossless(encode, decode)
    requires SeasonStorable(s)
    ensures var payload := Payload(SeasonURI(encode, s), SeasonLevel);
      payload == Some(encode(SeasonJs(s))) &&
      decode(payload.value).Some? && decode(payload.value).value.Obj? &&
      forall k :: Get(decode(payload.value).value, k) == Get(SeasonJs(s), k)
  {
    RecordTravels(encode, decode, SeasonLevel, SeasonJs(s).props);
  }

  lemma CategoryTravels(encode: Value -> string, decode: string -> Option<Value>, c: Category)
    requires Lossless(encode, decode)
    requires Storable(c.page)
    ensures var payload := Payload(CategoryURI(encode, c), CategoryLevel);
      payload == Some(encode(CategoryJs(c))) &&
      decode(payload.value).Some? && decode(payload.value).value.Obj? &&
      forall k :: Get(decode(payload.value).value, k) == Get(CategoryJs(c), k)
  {
    RecordTravels(encode, decode, CategoryLevel, CategoryJs(c).props);
  }

  predicate ProgramStorable(p: Program)
  {
    Storable(p.id) && Storable(p.url) && Storable(p.title) && Storable(p.logo)
  }

  lemma ProgramTravels(encode: Value -> string, decode: string -> Option<Value>, p: Program)
    requires Lossless(encode, decode)
    requires ProgramStorable(p)
    ensures var payload := Payload(ProgramURI(encode, p), ProgramLevel);
      payload == Some(encode(ProgramJs(p))) &&
      decode(payload.value).Some? && decode(payload.value).value.Obj? &&
      forall k :: Get(decode(payload.value).value, k) == Get(ProgramJs(p), k)
  {
    RecordTravels(encode, decode, ProgramLevel, ProgramJs(p).props);
  }

  predicate VideoStorable(v: Video)
  {
    Storable(v.id) && Storable(v.title) && Storable(v.subtitle) && Storable(v.description) &&
    Storable(v.date) && Storable(v.icon) && Storable(v.url)
  }

  lemma VideoTravels(encode: Value -> string, decode: string -> Option<Value>, v: Video)
    requires Lossless(encode, decode)
    requires VideoStorable(v)
    ensures var payload := Payload(VideoURI(encode, v), VideoLevel);
      payload == Some(encode(VideoJs(v))) &&
      decode(payload.value).Some? && decode(payload.value).value.Obj? &&
      forall k :: Get(decode(payload.value).value, k) == Get(VideoJs(v), k)
  {
    RecordTravels(encode, decode, VideoLevel, VideoJs(v).props);
  }

  /** The start page's hardcoded program reaches the program page with its
      url and title intact, and the id and logo it lacks read as undefined. */
  lemma WorkaroundProgramTravels(encode: Value -> string, decode: string -> Option<Value>)
    requires Lossless(encode, decode)
    ensures var payload := Payload(ProgramURI(encode, WORKAROUND_PROGRAM), ProgramLevel);
      payload.Some? && decode(payload.value).Some? &&
      var program := decode(payload.value).value;
      Get(program, "url") == Str("/programas-tv/mujeres-y-hombres-y-viceversa/") &&
      Get(program, "title") == Str("Mujeres y Hombres y Viceversa") &&
      Get(program, "id") == Undefined && Get(program, "logo") == Undefined
  {
    var p := WORKAROUND_PROGRAM;
    ProgramTravels(encode, decode, p);
    var props := ProgramJs(p).props;
    assert props == map["id" := Undefined, "url" := p.url, "title" := p.title, "logo" := Undefined];
    assert "id" in props && "logo" in props && "url" in props && "title" in props;
  }
}
