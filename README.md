# mitele plugin, modelled in Dafny

This project models a media-center plugin for the Spanish video site
mitele.es. The plugin offers a browse hierarchy of four levels: categories,
programs, seasons and videos. Each level is a route of the form
`mitele:<level>:<payload>`, where the payload is the JSON encoding of that
level's record. A controller decodes the record, fetches a page of the site,
and cuts the next level's records out of the page with `indexOf`/`slice`, a
split, a regular expression or a JSON decoder. It then appends one item per
record to the host's page. The last level resolves a stream URL through the
download helper site descargavideos.tv. It plays that URL as music when the
text after its last `:` is `mp3`, and as video otherwise.

The model has six modules. Each cites the code it models.

- `Js` (`js.dfy`) covers the part of the language the plugin relies on:
  - values as JSON decodes them, property reads that throw on null or
    undefined, and truthiness;
  - the conversions `+` applies to strings and `<` applies to numbers. A
    decoded object with its own `toString` property makes either of them
    throw a TypeError, because that property holds data and cannot be
    called;
  - the loops' `for (i = 0; i < v.length; i++)` over arrays, strings and
    array-like objects;
  - `indexOf`, `slice`, `split` and `replace` on strings of characters.
    That includes the clamping of start positions and `slice` reading a
    `-1` position as counting back from the end.
- `Records` (`records.dfy`) holds:
  - the four records and the object literals the code builds for them;
  - the `mitele:<level>:` URIs and the route that captures their payload;
  - the round-trip law assumed of the host's JSON codec (`Lossless`).
- `Models` (`models.dfy`) holds the request URLs and the stream-URL cut of
  `getVideoFile`.
- `Parsers` (`parsers.dfy`) holds `parsePrograms`, `parseSeasons` and
  `parseVideos`. Each is a method with the source's loop, proved equal to a
  specification function, with lemmas stating what the lists hold.
- `Views` (`views.dfy`) holds the item metadata and the music/video choice.
- `Plugin` (`plugin.dfy`) holds the controllers:
  - The host's page is a class whose items and properties the controllers
    change.
  - The shared `CATEGORIES` list is an array that `startPage` updates in
    place.
  - The display loops append to the page item by item.

The host's services are parameters of each controller, grouped in a `Host`:
JSON encoding and decoding, the `REGEX_PROGRAM` matcher and the HTTP GET.
A decoder failure, which is a thrown `SyntaxError`, is a `None` result. A
property read on null or undefined, and a conversion of an object that has
its own `toString` property, are a thrown `TypeError`. A controller that
throws stops where the throw happens and keeps what it had changed before:

- a failing request or listing leaves the page unchanged;
- a video whose metadata throws leaves the videos before it listed;
- a category title that throws leaves the category's programs listed and
  the page's type, contents and logo set.

## Model

| member | source | states |
|---|---|---|
| Js.Member | mitele.js:184 | reading a property throws a TypeError exactly when the object is undefined or null, and otherwise gives the property's value (undefined when absent) |
| Js.Truthy | mitele.js:412 | a value is truthy exactly when it is not undefined, null, `false`, `0` or the empty string |
| Js.ToStr | mitele.js:413-418 | a string converts to itself and a non-negative number to its digits; undefined, null, booleans, numbers and strings always convert; an object throws exactly when it has its own `toString` property; every throw is a TypeError |
| Js.Decimal | mitele.js:210 | a number is written as a non-empty run of decimal digits with no leading zero |
| Js.DecimalRoundTrip | mitele.js:210 | reading the written digits back gives the number, so the page number in the season URL is exactly the season's page |
| Js.ToNumber | mitele.js:280 | converting a loop bound to a number throws only for arrays and objects, whose conversion goes through a string, and only a TypeError |
| Js.NumberStringRoundTrip | mitele.js:280 | a number written as `+` writes it reads back as the same number, so a `length` held as that string bounds the loop as the number would |
| Js.Elements | mitele.js:280-281 | the loop visits an array's elements, and a string's characters as one-character strings; booleans and numbers give no iterations; for any other object it visits the properties `"0"`, `"1"`, ... up to `length` converted to a number, and none when that is NaN or not positive; it throws a TypeError exactly when the value is undefined or null or converting its `length` throws |
| Js.ClampFrom | mitele.js:272 | `indexOf` starts looking at `from` clamped into the string's bounds |
| Js.IndexOf | mitele.js:271-273 | `indexOf` gives -1 or a position at or after the clamped start where the pattern occurs |
| Js.IndexOfIsFirst | mitele.js:271-273 | no occurrence lies between the clamped start and the result, and -1 means there is no occurrence at all |
| Js.RelativeIndex | mitele.js:224 | `slice` reads a position into the string's bounds, counting a negative one back from the end |
| Js.Slice | mitele.js:274 | the cut is as long as the distance from the resolved start to the resolved end (0 when the end does not come after the start), and holds the string's characters from the resolved start on |
| Js.SliceWithin | mitele.js:274 | within the string, `slice` is the ordinary substring |
| Js.SliceNegativeEnd | mitele.js:223-224 | a negative end such as the -1 `Math.min` can pick counts back from the string's length |
| Js.SliceEmpty | mitele.js:273-274 | an end at or before the start gives the empty string |
| Js.ReplaceLineBreaks | mitele.js:275 | replacing line breaks keeps the length |
| Js.ReplaceLineBreaksSpec | mitele.js:243 | every `\n` and `\r` becomes a space, every other character stays where it was, and no line break remains |
| Js.Split | mitele.js:247 | a split gives at least one part |
| Js.SplitSpec | mitele.js:247 | joining the parts with the separator gives the string back, and no part contains the separator |
| Js.CharAfterPattern | mitele.js:222-223 | the first occurrence of a character after a pattern free of it lies past the pattern, is that character, and has none of it before it |
| Js.LastPartFollowsLastSeparator | mitele.js:161 | the last of some parts that join with `c` into a string, none of them holding `c`, is a suffix free of `c` that is the whole string or follows a `c` |
| Js.LastSegment | mitele.js:161 | `split(':').pop()` is a suffix of the string with no `:` in it, and is either the whole string or preceded by a `:` |
| Records.DefinedKeepsReads | mitele.js:45 | dropping the undefined properties, as JSON encoding does, changes no property read |
| Records.Payload | mitele.js:38-41 | a URI is routed to a level exactly when it starts with `mitele:<level>:`, and that level's URI built from the captured payload is the URI itself |
| Records.CategoryURI | mitele.js:44-46 | a category's URI is routed to the category level only, with the category's JSON encoding as payload |
| Records.ProgramURI | mitele.js:47-49 | a program's URI is routed to the program level only, with the program's JSON encoding as payload |
| Records.SeasonURI | mitele.js:50-52 | a season's URI is routed to the season level only, with the season's JSON encoding as payload |
| Records.VideoURI | mitele.js:53-55 | a video's URI is routed to the video level only, with the video's JSON encoding as payload |
| Records.RouteCapturesPayload | mitele.js:38-55 | the route of a level captures exactly the encoded record from that level's URI, and no other level's route matches the URI |
| Records.RecordTravels | mitele.js:44-55 | a record sent through a URI is decoded by the controller into an object that reads like the literal it was encoded from, property by property |
| Records.CategoryTravels | mitele.js:44-46 | a category reaches categoryPage with its id, title and page intact |
| Records.ProgramTravels | mitele.js:47-49 | a program reaches programPage with its id, url, title and logo intact |
| Records.SeasonTravels | mitele.js:50-52 | a season reaches seasonPage with its id, title, order and page intact |
| Records.VideoTravels | mitele.js:53-55 | a video reaches videoPage with its seven fields intact |
| Records.WorkaroundProgramTravels | mitele.js:75-79 | the start page's hardcoded program reaches programPage with its url and title, while id and logo read undefined |
| Models.CategoryRequest | mitele.js:182-186 | the request throws a TypeError exactly when the category is undefined or null or its id does not convert to a string; otherwise its URL is the site base, a slash and the id's text, with no arguments |
| Models.ProgramRequest | mitele.js:195-199 | the request throws a TypeError exactly when the program is undefined or null or its url does not convert to a string; otherwise its URL is the site base, a slash and the url's text, with no arguments |
| Models.SeasonRequest | mitele.js:208-212 | the request throws a TypeError exactly when the season is undefined or null or its id or page does not convert to a string; otherwise its URL is the listing path, the id's text, a slash and the page's text, with no arguments |
| Models.VideoPageURL | mitele.js:216 | the video's page throws a TypeError exactly when the video is undefined or null or its url does not convert to a string; otherwise it is the site base followed by the url's text |
| Models.HandlerRequest | mitele.js:220-221 | the helper site is asked with `modo` 1 and the video's page as `web` |
| Models.HandlerPath | mitele.js:222-224 | the cut taken out of the helper's answer is a substring of that answer |
| Models.VideoFile | mitele.js:225 | the stream URL always starts with the helper site's base |
| Models.QuoteAfter | mitele.js:222-223 | the first quote of either kind after the handler path lies past the path, and no quote of that kind comes before it |
| Models.QuotedCut | mitele.js:222-224 | the cut from the handler path to the nearer quote starts with the handler path and holds neither quote |
| Models.HandlerURLWhenQuoted | mitele.js:222-225 | with the handler path and both quote kinds after it, the stream URL is the helper base plus a part that starts with the handler path and holds no quote |
| Models.HandlerURLWhenAQuoteIsMissing | mitele.js:223-224 | with one quote kind missing, `Math.min` gives -1 and the cut runs from the handler path to just before the page's last character |
| Models.HandlerURLWithoutHandler | mitele.js:222-225 | without the handler path, the stream URL is the bare helper base |
| Models.CategoryFetchedThroughURI | mitele.js:182-186 | a category sent through its URI is fetched from the site base, a slash and its id |
| Models.ProgramFetchedThroughURI | mitele.js:195-199 | a program sent through its URI is fetched from the site base, a slash and its url's text, or throws a TypeError when the url does not convert to a string |
| Models.SeasonFetchedThroughURI | mitele.js:208-212 | a season sent through its URI is fetched from `/temporadasbrowser/getCapitulos/<id>/<page>` on the site, or throws a TypeError when its id or page does not convert to a string |
| Models.FreshSeasonFetchesFirstPage | mitele.js:210 | a season with page 1, as parseSeasons makes them, has a request exactly when its id converts to a string; then the URL is the listing path, the id's text and `/1` |
| Models.VideoResolvedThroughURI | mitele.js:215-221 | a video sent through its URI makes the helper site be asked with `modo` 1 for the site's page of the video's url, or throws a TypeError when the url does not convert to a string |
| Parsers.ProjectSpec | mitele.js:280-288 | building a list item by item succeeds exactly when every item converts, giving one entry per item in order; otherwise it throws what some item throws |
| Parsers.ProjectThrownPrefix | mitele.js:280-288 | once an item throws, the rest of the loop does not run and the whole parse throws the same |
| Parsers.ProgramText | mitele.js:239-243 | the program table cut is no longer than the page and holds no line break |
| Parsers.ProgramOf | mitele.js:252-258 | a matched program has a null id, and all its fields survive JSON encoding |
| Parsers.ProgramsFrom | mitele.js:248-260 | there are never more programs than fragments |
| Parsers.ProgramsFromMatches | mitele.js:251-258 | every program comes from a fragment the pattern matched: its id is null and its url, title and logo are capture groups 1, 2 and 3 |
| Parsers.ProgramsFromAppend | mitele.js:248-260 | the programs of two runs of fragments are those of the first followed by those of the second, so fragment order is kept |
| Parsers.ParsePrograms | mitele.js:238-262 | the loop's result is the programs of the split of the cut program table |
| Parsers.MarkersApart | mitele.js:240-241 | a list-element marker and a pagination block found after it do not overlap |
| Parsers.CutStartsWithSeparator | mitele.js:242-247 | a cut that starts with a separator free of line breaks splits into an empty first part |
| Parsers.FirstFragmentEmpty | mitele.js:239-247 | when both markers are found, the first fragment of the split is empty |
| Parsers.SliceToLastCharacter | mitele.js:242 | a slice ending at -1 stops just before the string's last character |
| Parsers.ProgramTextWithoutPagination | mitele.js:239-243 | with a list element and no pagination block after it, the end is -1 and the cut runs from the first element to just before the page's last character |
| Parsers.UnmatchedFragmentDropped | mitele.js:251-252 | a fragment the pattern does not match, such as an empty one when the pattern needs `href`, yields no program |
| Parsers.CategoryPagePrograms | mitele.js:238-261 | on a page with both markers, the programs are those of the fragments after the empty first one, so there is at most one fewer program than fragments |
| Parsers.SeasonText | mitele.js:271-275 | the season text is no longer than the page and holds no line break |
| Parsers.SeasonOf | mitele.js:281-287 | a season is made exactly when the item is neither undefined nor null, and it starts at page 1 |
| Parsers.SeasonsOfText | mitele.js:279-288 | decoding the season text throws a SyntaxError exactly when the decoder fails (a failed decode always gives that throw), and every season made has page 1 |
| Parsers.Seasons | mitele.js:270-290 | parseSeasons throws a SyntaxError exactly when the cut text does not decode (a failed decode always gives that throw), and every season it returns has page 1 |
| Parsers.ParseSeasons | mitele.js:270-290 | the parse's result is the seasons of the cut season text |
| Parsers.DecodeSeasons | mitele.js:279-289 | the loop builds the projection of the decoded items, or throws what the decode or the first failing item throws |
| Parsers.BracketCut | mitele.js:272-275 | the cut from `[` to the first `]` after it starts with `[`, ends with `]`, holds no other `]` and no line break, and keeps the page's other characters in place |
| Parsers.ArrayCutAfter | mitele.js:272-275 | the same holds for the first `[` at or after any position |
| Parsers.SeasonTextBounds | mitele.js:271-275 | when the script call, a `[` after it and a `]` after that are found, the season text is that bracketed cut with its length unchanged |
| Parsers.SeasonTextWithoutArray | mitele.js:272-274 | without a `[`, the start is -1, so the text is empty or `]` |
| Parsers.SeasonTextWithoutClosingBracket | mitele.js:273-274 | without a `]`, the end is 0, so the text is empty |
| Parsers.SeasonsProjection | mitele.js:279-288 | one season per decoded item, in order, with the item's ID, post_title and orden and page 1; a SyntaxError when the text does not decode, a TypeError when the value is null or undefined, and for a decoded array success exactly when no item is null or undefined |
| Parsers.VideoOf | mitele.js:302-311 | a video is made exactly when the entry is neither undefined nor null, and its url is the entry's own |
| Parsers.Videos | mitele.js:298-315 | parseVideos throws a SyntaxError exactly when the body does not decode; otherwise its videos are one per entry of `episodes`, each with that entry's url |
| Parsers.ParseVideos | mitele.js:298-315 | the loop's result is the projection of the decoded `episodes`, or what the decode or the first failing entry throws |
| Parsers.VideosProjection | mitele.js:299-314 | one video per entry of `episodes`, in order, with its seven fields copied unchanged (the url still relative); a SyntaxError on an undecodable body, a TypeError when the body or its `episodes` is null or undefined, and for an `episodes` array success exactly when no entry is null or undefined |
| Views.ProgramMetadata | mitele.js:384-390 | a program's metadata has its title as RichText, its logo as the icon, and no description |
| Views.SeasonMetadata | mitele.js:397-402 | a season's metadata has its title as RichText and neither icon nor description |
| Views.VideoTitle | mitele.js:411-414 | the title is the video's own when the subtitle is falsy; otherwise it converts exactly when title and subtitle do, and is exactly the title's text, ` - ` and the subtitle's text; any throw is a TypeError |
| Views.VideoDescription | mitele.js:416-418 | the description converts exactly when date and description do; it is exactly the `Fecha:` label, the gold font tag, the date's text, `</font>\n` and the description's text, so it ends with the raw description |
| Views.VideoMetadata | mitele.js:410-425 | the metadata exists exactly when title and description convert, and then holds both as RichText and the video's icon; any throw is a TypeError |
| Views.PlaybackType | mitele.js:161-167 | the stream plays as music exactly when its URL is `mp3` or ends with `:mp3`, and as video otherwise |
| Views.Mp3AfterLastColon | mitele.js:161-167 | a suffix after the last `:` is `mp3` exactly when the string is `mp3` or ends with `:mp3` |
| Plugin.Page.AppendItem | mitele.js:71 | appending adds exactly one item at the end of the page |
| Plugin.CategoryItem | mitele.js:71 | a category's item is routed to the category level with the category's encoding, is a directory, and is titled with the plain title |
| Plugin.ProgramItem | mitele.js:341-343 | a program's item is routed to the program level with the program's encoding, is a video item, and carries the program's metadata |
| Plugin.SeasonItem | mitele.js:355-357 | a season's item is routed to the season level with the season's encoding, is a directory, and carries the season's metadata |
| Plugin.VideoItem | mitele.js:369-370 | a video's item throws exactly when its metadata does, with a TypeError; otherwise it is routed to the video level with the video's encoding, is a video item, and carries the metadata |
| Plugin.CategoryItems | mitele.js:68-72 | the category list has one item per category |
| Plugin.CategoryItemsSpec | mitele.js:71 | item `i` opens category `i` as a directory titled with its plain title |
| Plugin.ProgramItems | mitele.js:339-345 | the program list has one item per program |
| Plugin.ProgramItemsSpec | mitele.js:340-344 | item `i` opens program `i` as a video item with the program's RichText title and logo |
| Plugin.SeasonItems | mitele.js:353-359 | the season list has one item per season |
| Plugin.SeasonItemsSpec | mitele.js:354-358 | item `i` opens season `i` as a directory with the season's RichText title |
| Plugin.ShownSpec | mitele.js:367-372 | a loop whose items can throw shows item `i` of the list as its `i`-th item, runs to the end when nothing throws, and otherwise stops with the exception of the first item that throws |
| Plugin.VideoDisplaySpec | mitele.js:367-372 | the video loop's item `i` is video `i`'s item; it is complete when nothing throws, and otherwise stops at the first video whose metadata throws a TypeError |
| Plugin.CategoryPageTitle | mitele.js:106 | the category page title converts exactly when title and page do, and is exactly the title's text, ` (`, the page's text and `)`; any throw is a TypeError |
| Plugin.NewCategories | mitele.js:25-30 | the category list starts as the four hardcoded sections, each with an undefined page |
| Plugin.Started | mitele.js:68-70 | starting keeps the number of categories |
| Plugin.StartedSpec | mitele.js:68-70 | starting keeps each category's id and title, in order, and sets its page to 1 |
| Plugin.StartedStep | mitele.js:68-70 | starting one more category appends it, with page 1, to the started ones |
| Plugin.StartCategory | mitele.js:69-71 | one turn of the loop sets the category's page to 1 in place and lists it after the earlier ones |
| Plugin.ListCategories | mitele.js:68-72 | after the loop every category in the shared array has page 1, and the page lists them in order |
| Plugin.StartedCategoryTitle | mitele.js:68-106 | every category the start page lists opens a category page whose title converts without throwing to `<title> (1)` |
| Plugin.StartPage | mitele.js:65-86 | the controller of `mitele:start`: the page lists the started categories and then the workaround program, as directories, and becomes an items page titled `mitele` with the site's logo |
| Plugin.DisplayPrograms | mitele.js:339-345 | the page gains the program list after its earlier items |
| Plugin.DisplaySeasons | mitele.js:353-359 | the page gains the season list after its earlier items |
| Plugin.DisplayOutcomes | mitele.js:367-372 | the page gains the items in order up to the first that throws, and the loop returns that exception |
| Plugin.DisplayVideos | mitele.js:367-372 | the page gains the videos' items in order after its earlier items, up to the first video whose metadata throws, and the loop returns that exception |
| Plugin.ListCategory | mitele.js:96-107 | the page lists the programs of the category's fetched listing and becomes an items page with the site's logo; then a title that throws ends it with a TypeError, and otherwise the title is `<title> (<page>)` and loading ends |
| Plugin.CategoryPage | mitele.js:94-108 | an undecodable payload, or a category whose id cannot be read or converted, throws and leaves the page unchanged; otherwise the programs are listed, and a title that throws leaves the page with those items and its type, contents and logo set |
| Plugin.ProgramPage | mitele.js:116-128 | a failing decode, request or season parse throws and leaves the page unchanged; otherwise the page lists the seasons under the program's title and logo |
| Plugin.SeasonPage | mitele.js:136-149 | a failing decode, request or video parse throws and leaves the page unchanged; a video whose metadata throws leaves the videos before it listed and the page's properties unchanged; otherwise the page lists the videos under the season's title and keeps its logo |
| Plugin.VideoPage | mitele.js:158-170 | a failing decode or a video url that cannot be read or converted throws and leaves the page unchanged; otherwise the page's source is the resolved stream, its type is that stream's playback type, and its items are unchanged |

## Left out

- The HTTP requests (`showtime.httpReq`) are network I/O. Each is the
  host's `fetch` parameter, applied to the request the model builds.
  `fetch` is total: a request that throws (a network failure, an HTTP
  error) is not modelled. A controller is therefore never stopped by its
  fetch, and the page effects of such a throw are not described.
- The first fetch of `getVideoFile` (mitele.js:218) is not modelled,
  because its answer is discarded at line 221. A throw from that
  discarded request is not modelled either.
- `showtime.print` is not modelled: it is logging with no effect on the
  result.
- `showtime.JSONEncode` and `showtime.JSONDecode` are abstract functions.
  The decoder answers None where it would throw. The encoder is only
  assumed to satisfy `Lossless`: decoding an encoded object gives back its
  properties that are not undefined.
- The `REGEX_PROGRAM` engine (mitele.js:31) is an abstract matcher
  returning the three capture groups or None. The only property assumed of
  it is that a match needs the literal `href` (`NeedsHref`), which the
  pattern contains.
- `showtime.RichText` is only a wrapper (`Views.Text.Rich`) around the
  value it is given. How the host converts a value that is not a string
  into rich text is not modelled.
- Plugin and route registration (mitele.js:34-41) is host glue. Only the
  route patterns are modelled, as `Records.Payload`.
- The commented-out separator and pagination code (mitele.js:67, 99, 101,
  141-143, 321-331) is not live and is not modelled.
- Numbers are integers. Floating-point values in decoded JSON and their
  string forms are not modelled, and neither is the order of an object's
  properties.
- Strings are sequences of characters, while JavaScript strings are
  sequences of UTF-16 code units. Positions, lengths and `slice` therefore
  differ on text outside the Basic Multilingual Plane. For example,
  `slice(ini, -1)` on a page ending in such a character drops a whole
  character, where JavaScript drops only its second code unit.
- The conversion of a string to a number (`Js.StringToNumber`) reads
  white space and an optionally signed run of decimal digits. Fractions,
  exponents, `0x`/`0o`/`0b` prefixes and `Infinity` read as NaN. A
  `length` written that way makes the model's loop run zero times.
- Besides the `length` the loops read (`Js.Elements`), the built-in
  properties of strings and arrays are not modelled, because the plugin
  reads none of them.
- The line terminators a regular expression treats specially play no part
  in the model, because the program pattern is abstract.
- The page's properties (`page.type`, `page.contents`,
  `page.metadata.logo`, `page.metadata.title`, `page.source`,
  `page.loading`) are one `PageState` record. Each controller sets the
  properties it touches in one assignment, and the model does not track
  the order of those assignments within a controller. The exception is
  categoryPage, whose title can throw after the type, contents and logo
  are set: there the model splits the assignment at that point.
- `videoParams` in `videoPage` (mitele.js:163-166) is not modelled,
  because it is built and never used.
- parseVideos produces each video's url as copied from the listing,
  without the site base. The site base is added later, in `getVideoFile`
  (mitele.js:216).
- `getVideoFile` returns the bare helper base when the handler path is
  missing, instead of failing the resolution. The model keeps that
  behaviour from the code (`Models.HandlerURLWithoutHandler`).
- Plugin.CategoryItems: its own contract states only the length; `Plugin.CategoryItemsSpec` states the contents.
- Plugin.ProgramItems: its own contract states only the length; `Plugin.ProgramItemsSpec` states the contents.
- Plugin.SeasonItems: its own contract states only the length; `Plugin.SeasonItemsSpec` states the contents.
- Plugin.DisplayVideos: it computes every video's item before appending
  any, where the source computes each item just before appending it.
  The item computations are pure, so the page gains the same items and
  the loop stops with the same exception.
- Plugin.Started: its own contract states only the length; `Plugin.StartedSpec` states the contents.
