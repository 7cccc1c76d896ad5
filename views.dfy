/** What each record looks like as an item of the host's list: its
    metadata (title, optional description, icon), and the playback type of
    a resolved stream. RichText is the host's marked-up text; here it only
    wraps the value it is given. */
module Views {
  import opened Js
  import opened Records

  /** The item and page types the plugin declares: 'directory', 'video', 'music'. */
  datatype ItemType = DirectoryType | VideoType | MusicType

  /** A title or description: a plain value, or one wrapped in RichText. */
  datatype Text = Plain(v: Value) | Rich(v: Value)

  /** An item's metadata object; an undefined icon stands for no icon. */
  datatype Metadata = Metadata(title: Text, description: Option<Text>, icon: Value)

  const DATE_LABEL := "<font size=\"4\">" + "Fecha: " + "</font>"
  const DATE_OPEN := "<font size=\"4\" color=\"#daa520\">"
  const DATE_CLOSE := "</font>\n"

  /** getProgramMetadata: the program's title as RichText, its logo as the
      icon, and no description. */
  function ProgramMetadata(p: Program): (m: Metadata)
    ensures m.title == Rich(p.title) && m.description.None? && m.icon == p.logo
  {
    Metadata(Rich(p.title), None, p.logo)
  }

  /** getSeasonMetadata: the season's title as RichText, and neither icon
      nor description. */
  function SeasonMetadata(s: Season): (m: Metadata)
    ensures m.title == Rich(s.title) && m.description.None? && m.icon == Undefined
  {
    Metadata(Rich(s.title), None, Undefined)
  }

  /** The title getVideoMetadata computes: the video's own title when the
      subtitle is falsy; otherwise the title, " - " and the subtitle, which
      throws when either does not
      convert to a string. */
  function VideoTitle(v: Video): (r: Outcome<Value>)
    ensures r.Thrown? ==> r.error == TypeError
    ensures !Truthy(v.subtitle) ==> r == Ok(v.title)
    ensures Truthy(v.subtitle) ==> (r.Ok? <==> ToStr(v.title).Ok? && ToStr(v.subtitle).Ok?)
    ensures Truthy(v.subtitle) && r.Ok? ==>
      r.value.Str? &&
      StartsWith(r.value.s, ToStr(v.title).value) &&
      EndsWith(r.value.s, " - " + ToStr(v.subtitle).value)
    ensures Truthy(v.subtitle) && r.Ok? ==>
      r.value == Str(ToStr(v.title).value + " - " + ToStr(v.subtitle).value)
  {
    if Truthy(v.subtitle) then
      var subtitle :- ToStr(v.subtitle);
      var title :- ToStr(v.title);
      var t := title + " - " + subtitle;
      assert t[..|title|] == title;
      assert t[|t| - |" - " + subtitle|..] == " - " + subtitle;
      Ok(Str(t))
    else
      Ok(v.title)
  }

  /** The description getVideoMetadata computes: the fixed "Fecha:" label
      and gold font tag, the date, the closing tag with a line break, and
      the raw description at the end. Converting the date or the
      description to a string can throw. */
  function VideoDescription(v: Video): (r: Outcome<string>)
    ensures r.Thrown? ==> r.error == TypeError
    ensures r.Ok? <==> ToStr(v.date).Ok? && ToStr(v.description).Ok?
    ensures r.Ok? ==>
      var head := DATE_LABEL + DATE_OPEN;
      var date := ToStr(v.date).value;
      StartsWith(r.value, head) &&
      |head| + |date| <= |r.value| &&
      r.value[|head|..|head| + |date|] == date &&
      EndsWith(r.value, DATE_CLOSE + ToStr(v.description).value)
    ensures r.Ok? ==>
      r.value == DATE_LABEL + DATE_OPEN + ToStr(v.date).value + DATE_CLOSE + ToStr(v.description).value
  {
    var date :- ToStr(v.date);
    var description :- ToStr(v.description);
    var head := DATE_LABEL + DATE_OPEN;
    var tail := DATE_CLOSE + description;
    var d := head + date + tail;
    assert d == DATE_LABEL + DATE_OPEN + date + DATE_CLOSE + description;
    assert d[..|head|] == head;
    assert d[|head|..|head| + |date|] == date;
    assert d[|d| - |tail|..] == tail;
    Ok(d)
  }

  /** getVideoMetadata: the computed title and description, both as
      RichText, and the video's icon; it throws when either computation
      does. */
  function VideoMetadata(v: Video): (r: Outcome<Metadata>)
    ensures r.Thrown? ==> r.error == TypeError
    ensures r.Ok? <==> VideoTitle(v).Ok? && VideoDescription(v).Ok?
    ensures r.Ok? ==>
      r.value.icon == v.icon &&
      r.value.title == Rich(VideoTitle(v).value) &&
      r.value.description == Some(Rich(Str(VideoDescription(v).value)))
  {
    var title :- VideoTitle(v);
    var description :- VideoDescription(v);
    Ok(Metadata(Rich(title), Some(Rich(Str(description))), v.icon))
  }

  /** videoPage's choice: music exactly when the stream URL is "mp3" or
      ends with ":mp3", that is when the text after its last ':' is "mp3";
      video otherwise. */
  function PlaybackType(file: string): (t: ItemType)
    ensures t == MusicType <==> file == "mp3" || EndsWith(file, ":mp3")
    ensures t != MusicType ==> t == VideoType
  {
    Mp3AfterLastColon(file, LastSegment(file, ':'));
    if LastSegment(file, ':') == "mp3" then MusicType else VideoType
  }

  /** The text after the last ':' of a string: a suffix that holds no ':'
      and is either the whole string or preceded by ':'. */
  predicate AfterLastColon(file: string, t: string)
  {
    EndsWith(file, t) &&
    (forall i :: 0 <= i < |t| ==> t[i] != ':') &&
    (t == file || (|t| < |file| && file[|file| - |t| - 1] == ':'))
  }

  lemma Mp3AfterColon(file: string, t: string)
    requires AfterLastColon(file, t) && t == "mp3"
    ensures file == "mp3" || EndsWith(file, ":mp3")
  {
    var n := |file|;
    if t != file {
      assert file[n - 3..] == t;
      assert file[n - 4..] == [file[n - 4]] + file[n - 3..];
    }
  }

  lemma AfterColonOfMp3(t: string)
    requires AfterLastColon("mp3", t)
    ensures t == "mp3"
  {
    var m := "mp3";
    assert m[0] == 'm' && m[1] == 'p' && m[2] == '3';
    assert |t| <= 3;
  }

  lemma AfterColonOfColonMp3(file: string, t: string)
    requires AfterLastColon(file, t) && EndsWith(file, ":mp3")
    ensures t == "mp3"
  {
    var n := |file|;
    assert file[n - 4..] == ":mp3";
    assert file[n - 4] == ':' && file[n - 3] == 'm' && file[n - 2] == 'p' && file[n - 1] == '3';
    assert forall i :: 0 <= i < |t| ==> t[i] == file[n - |t| + i];
    assert |t| <= 3;
    assert |t| == 3;
    assert t == file[n - 3..];
  }

  /** The text after the last ':' is "mp3" exactly when the string is
      "mp3" or ends with ":mp3". */
  lemma Mp3AfterLastColon(file: string, t: string)
    requires AfterLastColon(file, t)
    ensures t == "mp3" <==> file == "mp3" || EndsWith(file, ":mp3")
  {
    if t == "mp3" {
      Mp3AfterColon(file, t);
    }
    if file == "mp3" {
      AfterColonOfMp3(t);
    }
    if EndsWith(file, ":mp3") {
      AfterColonOfColonMp3(file, t);
    }
  }
}
