/*
 * The archive export (scripts/export_archive.py): the archived rows are
 * grouped by chat, each group is rendered as a header, date separators and
 * message blocks, and every piece of user text is HTML-escaped on the way.
 * The page is modelled as the sequence of blocks it lays out; the fixed
 * template around them is not.
 */
module ExportArchive {
  import opened Common
  import A = Archive
  import U = UiUtils

  // ---------------------------------------------------------------------
  // escape_html
  // ---------------------------------------------------------------------

  /** html.escape with quote=True, then "\n" replaced by "<br>", for one character. */
  function EscapeChar(c: char): string {
    match c
    case '&' => "&amp;"
    case '<' => "&lt;"
    case '>' => "&gt;"
    case '"' => "&quot;"
    case '\'' => "&#x27;"
    case '\n' => "<br>"
    case _ => [c]
  }

  /** The escaped text, character by character. */
  function Escaped(t: string): string {
    if t == [] then [] else EscapeChar(t[0]) + Escaped(t[1..])
  }

  /** escape_html: a missing or empty text gives "", any other text its escaped form. */
  function EscapeHtml(text: Option<string>): string {
    if text.None? || text.value == "" then "" else Escaped(text.value)
  }

  /** Escaping leaves no quote and no line break, and never shortens the text. */
  lemma {:induction false} EscapedShape(t: string)
    ensures var e := Escaped(t); '"' !in e && '\'' !in e && '\n' !in e && |e| >= |t|
  {
    if t != [] {
      EscapedShape(t[1..]);
      EscapeCharShape(t[0]);
    }
  }

  lemma EscapeCharShape(c: char)
    ensures var e := EscapeChar(c); '"' !in e && '\'' !in e && '\n' !in e && |e| >= 1
  {
    match c
    case '&' =>
    case '<' =>
    case '>' =>
    case '"' => assert EscapeChar(c) == "&quot;";
    case '\'' => assert EscapeChar(c) == "&#x27;";
    case '\n' => assert EscapeChar(c) == "<br>";
    case _ =>
  }

  /** escape_html gives "" only for a missing or empty text, and reads back as the text. */
  lemma EscapeHtmlReadsBack(text: Option<string>)
    ensures var e := EscapeHtml(text);
      && (e == "" <==> text.None? || text.value == "")
      && Unescape(e) == (if text.Some? then text.value else "")
      && '"' !in e && '\'' !in e && '\n' !in e
  {
    if text.Some? && text.value != "" {
      EscapeRoundTrip(text.value);
      EscapedShape(text.value);
    }
  }

  /** What a browser shows for escaped text: the entities and "<br>" read back as characters. */
  function Unescape(s: string): string
    decreases |s|
  {
    if s == [] then []
    else if s[0] != '&' && s[0] != '<' then [s[0]] + Unescape(s[1..])
    else if StartsWith(s, "&amp;") then "&" + Unescape(s[5..])
    else if StartsWith(s, "&lt;") then "<" + Unescape(s[4..])
    else if StartsWith(s, "&gt;") then ">" + Unescape(s[4..])
    else if StartsWith(s, "&quot;") then "\"" + Unescape(s[6..])
    else if StartsWith(s, "&#x27;") then "'" + Unescape(s[6..])
    else if StartsWith(s, "<br>") then "\n" + Unescape(s[4..])
    else [s[0]] + Unescape(s[1..])
  }

  lemma UnescapeStep(c: char, rest: string)
    ensures Unescape(EscapeChar(c) + rest) == [c] + Unescape(rest)
  {
    match c
    case '&' => UnescapeAmp(rest);
    case '<' => UnescapeLt(rest);
    case '>' => UnescapeGt(rest);
    case '"' => UnescapeQuot(rest);
    case '\'' => UnescapeApos(rest);
    case '\n' => UnescapeBr(rest);
    case _ =>
      var s := [c] + rest;
      assert s[0] == c && s[1..] == rest;
  }

  lemma UnescapeAmp(rest: string)
    ensures Unescape("&amp;" + rest) == "&" + Unescape(rest)
  {
    var s := "&amp;" + rest;
    assert s[0] == '&' && s[1] == 'a';
    assert s[..5] == "&amp;" && s[5..] == rest;
  }

  lemma UnescapeLt(rest: string)
    ensures Unescape("&lt;" + rest) == "<" + Unescape(rest)
  {
    var s := "&lt;" + rest;
    assert s[0] == '&' && s[1] == 'l';
    assert !StartsWith(s, "&amp;") by { if |s| >= 5 { assert s[..5][1] == s[1]; } }
    assert s[..4] == "&lt;" && s[4..] == rest;
  }

  lemma UnescapeGt(rest: string)
    ensures Unescape("&gt;" + rest) == ">" + Unescape(rest)
  {
    var s := "&gt;" + rest;
    assert s[0] == '&' && s[1] == 'g';
    assert !StartsWith(s, "&amp;") by { if |s| >= 5 { assert s[..5][1] == s[1]; } }
    assert !StartsWith(s, "&lt;") by { assert s[..4][1] == s[1]; }
    assert s[..4] == "&gt;" && s[4..] == rest;
  }

  lemma UnescapeQuot(rest: string)
    ensures Unescape("&quot;" + rest) == "\"" + Unescape(rest)
  {
    var s := "&quot;" + rest;
    assert s[0] == '&' && s[1] == 'q';
    assert !StartsWith(s, "&amp;") by { if |s| >= 5 { assert s[..5][1] == s[1]; } }
    assert !StartsWith(s, "&lt;") by { assert s[..4][1] == s[1]; }
    assert !StartsWith(s, "&gt;") by { assert s[..4][1] == s[1]; }
    assert s[..6] == "&quot;" && s[6..] == rest;
  }

  lemma UnescapeApos(rest: string)
    ensures Unescape("&#x27;" + rest) == "'" + Unescape(rest)
  {
    var s := "&#x27;" + rest;
    assert s[0] == '&' && s[1] == '#';
    assert !StartsWith(s, "&amp;") by { if |s| >= 5 { assert s[..5][1] == s[1]; } }
    assert !StartsWith(s, "&lt;") by { assert s[..4][1] == s[1]; }
    assert !StartsWith(s, "&gt;") by { assert s[..4][1] == s[1]; }
    assert !StartsWith(s, "&quot;") by { assert s[..6][1] == s[1]; }
    assert s[..6] == "&#x27;" && s[6..] == rest;
  }

  lemma UnescapeBr(rest: string)
    ensures Unescape("<br>" + rest) == "\n" + Unescape(rest)
  {
    var s := "<br>" + rest;
    assert s[0] == '<' && s[1] == 'b';
    assert s[..4] == "<br>" && s[4..] == rest;
  }

  /** Escaping loses nothing: reading the escaped text back gives the original. */
  lemma {:induction false} EscapeRoundTrip(t: string)
    ensures Unescape(Escaped(t)) == t
  {
    if t != [] {
      UnescapeStep(t[0], Escaped(t[1..]));
      EscapeRoundTrip(t[1..]);
    }
  }

  // ---------------------------------------------------------------------
  // Rows, groups and days as the export reads them
  // ---------------------------------------------------------------------

  /** A row of archived_messages as read back: its columns and message_date as a datetime. */
  datatype Exported = Exported(row: A.Row, messageDate: Option<DateTime>)

  /** A row of the group list: the LEFT JOIN leaves id and title empty for a chat missing from groups. */
  datatype Group = Group(id: Option<int>, title: Option<string>, messageCount: nat)

  /** message_date.date(). */
  datatype Day = Day(year: int, month: int, day: int)

  function DayOf(m: Exported): Option<Day> {
    if m.messageDate.Some? then
      var d := m.messageDate.value;
      Some(Day(d.year, d.month, d.day))
    else None
  }

  const MonthNames: seq<string> := ["January", "February", "March", "April", "May", "June", "July",
                                    "August", "September", "October", "November", "December"]

  /** The separator's label: strftime("%B %d, %Y"), or "Unknown date". */
  function DayLabel(d: Option<Day>): (shown: string)
    ensures d.None? <==> shown == "Unknown date"
  {
    if d.None? then "Unknown date"
    else
      var month := MonthNames[U.InRange(d.value.month - 1, 12)];
      var shown := month + " " + U.Pad2(U.InRange(d.value.day, 100)) + ", " + U.Pad4(U.InRange(d.value.year, 10000));
      assert shown[|shown| - 6] == ',';
      shown
  }

  /** strftime("%H:%M"), or "" without a date. */
  function TimeText(d: Option<DateTime>): (t: string)
    ensures t == "" <==> d.None?
  {
    if d.None? then "" else U.Pad2(U.InRange(d.value.hour, 100)) + ":" + U.Pad2(U.InRange(d.value.minute, 100))
  }

  // ---------------------------------------------------------------------
  // get_user_display_name
  // ---------------------------------------------------------------------

  predicate Given(s: Option<string>) {
    s.Some? && s.value != ""
  }

  /** The given names among first and last, in that order. */
  function NameParts(first: Option<string>, last: Option<string>): seq<string> {
    (if Given(first) then [first.value] else []) + (if Given(last) then [last.value] else [])
  }

  /** The given names joined by a space, or "Unknown"; then " (@username)" when there is a username. */
  function DisplayName(first: Option<string>, last: Option<string>, username: Option<string>): string {
    var parts := NameParts(first, last);
    var base := if parts == [] then "Unknown" else Join(parts, ' ');
    if Given(username) then base + (" (@" + username.value + ")") else base
  }

  /** The shown name leads with the first given name, or "Unknown", and ends with the username when there is one. */
  lemma DisplayNameShows(first: Option<string>, last: Option<string>, username: Option<string>)
    ensures var name := DisplayName(first, last, username);
      (Given(first) ==> StartsWith(name, first.value))
      && (!Given(first) && Given(last) ==> StartsWith(name, last.value))
      && (!Given(first) && !Given(last) ==> StartsWith(name, "Unknown"))
      && (Given(first) && Given(last) && !Given(username) ==> name == first.value + " " + last.value)
      && (Given(username) ==> EndsWith(name, " (@" + username.value + ")"))
      && (name != "")
  {
    var parts := NameParts(first, last);
    var base := if parts == [] then "Unknown" else Join(parts, ' ');
    assert Given(first) && Given(last) ==> base == first.value + " " + last.value by {
      if Given(first) && Given(last) {
        assert parts == [first.value, last.value];
        assert parts[1..] == [last.value];
        assert Join(parts[1..], ' ') == last.value;
      }
    }
    assert Given(first) ==> StartsWith(base, first.value) by {
      if Given(first) && Given(last) {
        assert base[..|first.value|] == first.value;
      }
    }
    if Given(username) {
      var tag := " (@" + username.value + ")";
      var name := base + tag;
      assert name[..|base|] == base;
      assert name[|base|..] == tag;
    }
  }

  // ---------------------------------------------------------------------
  // render_media
  // ---------------------------------------------------------------------

  /** What render_media shows for a row. */
  datatype MediaView =
    | NoView                                  // no media_type
    | Placeholder(mediaType: string)          // a medium whose file was not downloaded
    | Image(src: string)                      // a photo
    | Video(src: string)                      // a video or an animation
    | Audio(src: string)                      // an audio or a voice message
    | StickerImage(src: string)
    | FileLink(src: string, name: string)    // anything else: a link named by the escaped file name

  /** render_media: the kind of view follows media_type; the link is the media folder and the stored file's name. */
  function MediaViewOf(r: A.Row, folder: string): (v: MediaView)
    ensures !Given(r.media.mediaType) <==> v == NoView
    ensures Given(r.media.mediaType) && !Given(r.mediaFilePath) ==> v == Placeholder(r.media.mediaType.value)
    ensures Given(r.media.mediaType) && Given(r.mediaFilePath) ==>
              !v.NoView? && !v.Placeholder? && v.src == folder + "/" + A.BaseName(r.mediaFilePath.value)
  {
    if !Given(r.media.mediaType) then NoView
    else
      var mediaType := r.media.mediaType.value;
      var fileName := if Given(r.media.fileName) then r.media.fileName.value else mediaType + " file";
      if !Given(r.mediaFilePath) then Placeholder(mediaType)
      else
        var relPath := folder + "/" + A.BaseName(r.mediaFilePath.value);
        if mediaType == "photo" then Image(relPath)
        else if mediaType == "video" || mediaType == "animation" then Video(relPath)
        else if mediaType == "audio" || mediaType == "voice" then Audio(relPath)
        else if mediaType == "sticker" then StickerImage(relPath)
        else FileLink(relPath, EscapeHtml(Some(fileName)))
  }

  /** The markup of each view. */
  function MediaHtml(v: MediaView): string {
    match v
    case NoView => ""
    case Placeholder(t) => "<div class=\"media-placeholder\">[" + t + ": file not downloaded]</div>"
    case Image(src) =>
      "<div class=\"media\"><img src=\"" + src + "\" alt=\"Photo\" loading=\"lazy\" onclick=\"openModal(this.src)\"></div>"
    case Video(src) => "<div class=\"media\"><video src=\"" + src + "\" controls preload=\"metadata\"></video></div>"
    case Audio(src) => "<div class=\"media\"><audio src=\"" + src + "\" controls></audio></div>"
    case StickerImage(src) => "<div class=\"media sticker\"><img src=\"" + src + "\" alt=\"Sticker\" loading=\"lazy\"></div>"
    case FileLink(src, name) => "<div class=\"media\"><a href=\"" + src + "\" target=\"_blank\">📎 " + name + "</a></div>"
  }

  /**
   * A medium the archive downloaded is linked by the name the archive gave
   * it, inside the export's media folder, and shown as its kind: the export
   * finds the file the archive wrote.
   */
  lemma ArchivedMediaLinked(mediaPath: string, m: A.Message, bot: Option<A.Fetch>, folder: string)
    requires A.RowOf(mediaPath, m, bot).mediaFilePath.Some?
    ensures var r := A.RowOf(mediaPath, m, bot);
      var t := r.media.mediaType.value;
      var v := MediaViewOf(r, folder);
      && !v.NoView? && !v.Placeholder?
      && v.src == folder + "/" + A.FileName(m.messageId, t, A.Extension(t, r.media.fileName, bot.value.serverPath))
      && (t == "photo" <==> v.Image?)
      && (t in {"video", "animation"} <==> v.Video?)
      && (t in {"audio", "voice"} <==> v.Audio?)
      && (t == "sticker" <==> v.StickerImage?)
  {
    var r := A.RowOf(mediaPath, m, bot);
    var media := A.FirstAttached(m, A.MediaKinds);
    assert r.media == media;
    var path := r.mediaFilePath.value;
    var t := media.mediaType.value;
    var ext := A.Extension(t, media.fileName, bot.value.serverPath);
    assert path == A.StoredPath(mediaPath, m.chatId, m.messageId, t, ext);
    KindOfFirstAttached(m, A.MediaKinds);
    KindNamePlain(t);
    A.StoredFileKeepsExtension(mediaPath, m.chatId, m.messageId, t, ext);
    assert path != "";
    MediaViewKinds(r, folder);
  }

  /** The view's kind for a row whose medium was downloaded. */
  lemma MediaViewKinds(r: A.Row, folder: string)
    requires Given(r.media.mediaType) && Given(r.mediaFilePath)
    ensures var t := r.media.mediaType.value;
      var v := MediaViewOf(r, folder);
      && (t == "photo" <==> v.Image?)
      && (t in {"video", "animation"} <==> v.Video?)
      && (t in {"audio", "voice"} <==> v.Audio?)
      && (t == "sticker" <==> v.StickerImage?)
  {
  }

  /** A media kind is a plain word: no folder separator, no dot. */
  lemma KindNamePlain(t: string)
    requires t in A.MediaKinds
    ensures t != "" && '/' !in t && '.' !in t
  {
    var k :| 0 <= k < |A.MediaKinds| && A.MediaKinds[k] == t;
    if k == 0 { assert t == "photo"; }
    else if k == 1 { assert t == "video"; }
    else if k == 2 { assert t == "document"; }
    else if k == 3 { assert t == "audio"; }
    else if k == 4 { assert t == "voice"; }
    else if k == 5 { assert t == "video_note"; }
    else if k == 6 { assert t == "sticker"; }
    else { assert t == "animation"; }
  }

  /** The kind the archive records is one of the kinds it tries. */
  lemma {:induction false} KindOfFirstAttached(m: A.Message, kinds: seq<string>)
    ensures A.FirstAttached(m, kinds).mediaType.None? || A.FirstAttached(m, kinds).mediaType.value in kinds
  {
    if kinds != [] && A.Attached(m, kinds[0]).None? {
      KindOfFirstAttached(m, kinds[1..]);
    }
  }

  /** A medium archived without a bot to download it shows as a placeholder naming its kind. */
  lemma NotDownloadedShowsPlaceholder(mediaPath: string, m: A.Message, folder: string)
    requires A.FirstAttached(m, A.MediaKinds).mediaType.Some?
    ensures var r := A.RowOf(mediaPath, m, None);
      MediaViewOf(r, folder) == Placeholder(r.media.mediaType.value)
  {
    var t := A.FirstAttached(m, A.MediaKinds).mediaType.value;
    KindOfFirstAttached(m, A.MediaKinds);
    KindNamePlain(t);
  }

  // ---------------------------------------------------------------------
  // Grouping the rows by chat
  // ---------------------------------------------------------------------

  /** The chats of the rows, each once, in the order they first appear. */
  function FirstAppearances(ms: seq<Exported>): seq<int> {
    if ms == [] then []
    else
      var before := FirstAppearances(ms[..|ms| - 1]);
      var g := ms[|ms| - 1].row.groupId;
      if g in before then before else before + [g]
  }

  /** The rows of one chat, in their original order. */
  function OfGroup(ms: seq<Exported>, g: int): seq<Exported> {
    if ms == [] then []
    else OfGroup(ms[..|ms| - 1], g) + (if ms[|ms| - 1].row.groupId == g then [ms[|ms| - 1]] else [])
  }

  /** messages_by_group as a map: each listed chat to its rows. */
  function Grouped(ms: seq<Exported>): (byGroup: map<int, seq<Exported>>)
    ensures forall g :: g in FirstAppearances(ms) ==> g in byGroup
  {
    map g | g in FirstAppearances(ms) :: OfGroup(ms, g)
  }

  /**
   * The messages_by_group loop: the dict's keys in insertion order, and for
   * each chat the list of its rows.
   */
  method GroupMessages(messages: seq<Exported>) returns (order: seq<int>, byGroup: map<int, seq<Exported>>)
    ensures order == FirstAppearances(messages)
    ensures forall g :: g in byGroup <==> g in order
    ensures forall g :: g in byGroup ==> byGroup[g] == OfGroup(messages, g)
  {
    order := [];
    byGroup := map[];
    for i := 0 to |messages|
      invariant order == FirstAppearances(messages[..i])
      invariant forall g :: g in byGroup <==> g in order
      invariant forall g :: g in byGroup ==> byGroup[g] == OfGroup(messages[..i], g)
    {
      var gid := messages[i].row.groupId;
      assert messages[..i + 1][..i] == messages[..i] && messages[..i + 1][i] == messages[i];
      assert forall g :: OfGroup(messages[..i + 1], g) == OfGroup(messages[..i], g) + (if gid == g then [messages[i]] else []);
      if gid !in byGroup {
        OfGroupUnlisted(messages[..i], gid);
        byGroup := byGroup[gid := []];
        order := order + [gid];
      }
      byGroup := byGroup[gid := byGroup[gid] + [messages[i]]];
    }
    assert messages[..|messages|] == messages;
  }

  /** A chat not yet listed has no rows. */
  lemma {:induction false} OfGroupUnlisted(ms: seq<Exported>, g: int)
    requires g !in FirstAppearances(ms)
    ensures OfGroup(ms, g) == []
  {
    if ms != [] {
      var before := FirstAppearances(ms[..|ms| - 1]);
      assert g !in before;
      OfGroupUnlisted(ms[..|ms| - 1], g);
    }
  }

  predicate NoRepeats(s: seq<int>) {
    forall i, j :: 0 <= i < j < |s| ==> s[i] != s[j]
  }

  /** No chat is listed twice. */
  lemma {:induction false} FirstAppearancesDistinct(ms: seq<Exported>)
    ensures NoRepeats(FirstAppearances(ms))
  {
    if ms != [] {
      var before := FirstAppearances(ms[..|ms| - 1]);
      FirstAppearancesDistinct(ms[..|ms| - 1]);
      assert NoRepeats(before);
      var g := ms[|ms| - 1].row.groupId;
      if g !in before {
        var order := before + [g];
        forall i, j | 0 <= i < j < |order| ensures order[i] != order[j] {
          assert order[i] == before[i];
          if j < |before| {
            assert order[j] == before[j];
          }
        }
        assert NoRepeats(order);
      }
    }
  }

  /** A chat is listed exactly when one of the rows belongs to it. */
  lemma {:induction false} FirstAppearancesCover(ms: seq<Exported>, g: int)
    ensures g in FirstAppearances(ms) <==> exists k :: 0 <= k < |ms| && ms[k].row.groupId == g
  {
    if ms != [] {
      var init := ms[..|ms| - 1];
      FirstAppearancesCover(init, g);
      if exists k :: 0 <= k < |init| && init[k].row.groupId == g {
        var k :| 0 <= k < |init| && init[k].row.groupId == g;
        assert ms[k] == init[k];
      }
      if exists k :: 0 <= k < |ms| && ms[k].row.groupId == g {
        var k :| 0 <= k < |ms| && ms[k].row.groupId == g;
        if k < |init| {
          assert init[k] == ms[k];
        }
      }
    }
  }

  /** A chat's list holds only its own rows, and every row is in its chat's list. */
  lemma {:induction false} OfGroupExact(ms: seq<Exported>, g: int)
    ensures forall m :: m in OfGroup(ms, g) ==> m.row.groupId == g
    ensures forall k :: 0 <= k < |ms| && ms[k].row.groupId == g ==> ms[k] in OfGroup(ms, g)
  {
    if ms != [] {
      var init := ms[..|ms| - 1];
      OfGroupExact(init, g);
      forall k | 0 <= k < |ms| && ms[k].row.groupId == g
        ensures ms[k] in OfGroup(ms, g)
      {
        if k < |init| {
          assert init[k] == ms[k];
        }
      }
    }
  }

  // ---------------------------------------------------------------------
  // The group list
  // ---------------------------------------------------------------------

  /** An entry of the sidebar. */
  datatype SidebarItem = SidebarItem(id: Option<int>, title: string, messageCount: nat)

  /** f"{gid}" of a possibly missing id. */
  function IdText(id: Option<int>): string {
    if id.Some? then IntToString(id.value) else "None"
  }

  /** A sidebar entry: the escaped title, or "Group {gid}" when there is none; never empty. */
  function SidebarItemOf(g: Group): (item: SidebarItem)
    ensures item.id == g.id && item.messageCount == g.messageCount
    ensures item.title != ""
    ensures Unescape(item.title) == if Given(g.title) then g.title.value else "Group " + IdText(g.id)
  {
    EscapeHtmlReadsBack(Some(if Given(g.title) then g.title.value else "Group " + IdText(g.id)));
    SidebarItem(g.id, EscapeHtml(Some(if Given(g.title) then g.title.value else "Group " + IdText(g.id))), g.messageCount)
  }

  /** The groups_html loop: one entry per group row, in order. */
  method Sidebar(groups: seq<Group>) returns (items: seq<SidebarItem>)
    ensures |items| == |groups|
    ensures forall k :: 0 <= k < |groups| ==> items[k] == SidebarItemOf(groups[k])
  {
    items := [];
    for k := 0 to |groups|
      invariant |items| == k
      invariant forall j :: 0 <= j < k ==> items[j] == SidebarItemOf(groups[j])
    {
      items := items + [SidebarItemOf(groups[k])];
    }
  }

  /** The title of the first group row whose id is the chat's, if there is one. */
  function ListedTitle(groups: seq<Group>, gid: int): Option<Option<string>> {
    if groups == [] then None
    else if groups[0].id == Some(gid) then Some(groups[0].title)
    else ListedTitle(groups[1..], gid)
  }

  /**
   * The chat's header: next(...) finds the first listed title, even a
   * missing one, which escapes to ""; "Group {gid}" only for a chat the
   * list does not hold.
   */
  function HeaderTitle(groups: seq<Group>, gid: int): Option<string> {
    var listed := ListedTitle(groups, gid);
    if listed.Some? then listed.value else Some("Group " + IntToString(gid))
  }

  /** The first matching row decides the header, whatever rows follow it. */
  lemma {:induction false} ListedTitleFirst(groups: seq<Group>, gid: int, k: nat)
    requires k < |groups| && groups[k].id == Some(gid)
    requires forall j :: 0 <= j < k ==> groups[j].id != Some(gid)
    ensures ListedTitle(groups, gid) == Some(groups[k].title)
  {
    if k > 0 {
      assert groups[0].id != Some(gid);
      ListedTitleFirst(groups[1..], gid, k - 1);
    }
  }

  /** A chat is missing from the list exactly when no row has its id. */
  lemma {:induction false} ListedTitleAbsent(groups: seq<Group>, gid: int)
    ensures ListedTitle(groups, gid).None? <==> forall j :: 0 <= j < |groups| ==> groups[j].id != Some(gid)
  {
    if groups != [] {
      ListedTitleAbsent(groups[1..], gid);
      assert forall j :: 1 <= j < |groups| ==> groups[1..][j - 1] == groups[j];
    }
  }

  // ---------------------------------------------------------------------
  // The messages
  // ---------------------------------------------------------------------

  /** The pieces of the page, in order; BlockHtml writes each one out. */
  datatype Block =
    | GroupOpen(groupId: int, header: Option<string>)
    | DateSeparator(date: string)
    | MessageBlock(message: Exported)
    | GroupClose

  /** Whether an optional id is truthy: present and not 0. */
  predicate NonZero(id: Option<int>) {
    id.Some? && id.value != 0
  }

  /** What a message block shows, before escaping. */
  datatype Shown = Shown(messageId: int, userId: Option<int>, userName: string, time: string,
                         replyTo: Option<int>, forwarded: bool, media: string, text: string)

  /**
   * One message: the sender's display name, the time, a reply marker for a
   * truthy reply id, a forward marker for a truthy forward id, the media, and
   * the text, or the caption when the text is missing or empty.
   */
  function ShownOf(m: Exported, folder: string): Shown {
    var r := m.row;
    Shown(r.messageId, r.userId, DisplayName(r.firstName, r.lastName, r.username),
          TimeText(m.messageDate),
          if NonZero(r.replyTo) then r.replyTo else None,
          NonZero(r.forwardFromUserId) || NonZero(r.forwardFromChatId),
          MediaHtml(MediaViewOf(r, folder)),
          if Given(r.text) then r.text.value else if Given(r.caption) then r.caption.value else "")
  }

  /**
   * A message shows the text, else the caption; marks a reply only for a
   * truthy reply id, and then with that id; marks a forward exactly when a
   * forward id is truthy.
   */
  lemma MessageShows(m: Exported, folder: string)
    ensures var b := ShownOf(m, folder);
      && b.messageId == m.row.messageId && b.userId == m.row.userId
      && (Given(m.row.text) ==> b.text == m.row.text.value)
      && (!Given(m.row.text) && Given(m.row.caption) ==> b.text == m.row.caption.value)
      && (b.text == "" <==> !Given(m.row.text) && !Given(m.row.caption))
      && (b.replyTo.Some? <==> NonZero(m.row.replyTo))
      && (b.replyTo.Some? ==> b.replyTo == m.row.replyTo)
      && (b.forwarded <==> NonZero(m.row.forwardFromUserId) || NonZero(m.row.forwardFromChatId))
  {
  }

  /** The markup of a block (the template's indentation aside); user text goes through escape_html. */
  function BlockHtml(b: Block, folder: string): string {
    match b
    case GroupOpen(gid, header) =>
      "<div class=\"message-group\" data-group-id=\"" + IntToString(gid) + "\">"
      + "<h2 class=\"group-header\">" + EscapeHtml(header) + "</h2>"
    case DateSeparator(date) => "<div class=\"date-separator\">" + date + "</div>"
    case MessageBlock(m) =>
      var v := ShownOf(m, folder);
      "<div class=\"message\" data-message-id=\"" + IntToString(v.messageId) + "\" data-user-id=\"" + IdText(v.userId) + "\">"
      + "<div class=\"message-header\"><span class=\"user-name\">" + EscapeHtml(Some(v.userName)) + "</span>"
      + "<span class=\"message-time\">" + v.time + "</span></div>"
      + (if v.replyTo.Some? then "<div class=\"reply-indicator\">↩ Reply to message #" + IntToString(v.replyTo.value) + "</div>" else "")
      + (if v.forwarded then "<div class=\"forward-indicator\">↪ Forwarded message</div>" else "")
      + v.media
      + "<div class=\"message-text\">" + EscapeHtml(Some(v.text)) + "</div></div>"
    case GroupClose => "</div>"
  }

  /** messages_html: the blocks' markup, one after the other. */
  function MessagesHtml(blocks: seq<Block>, folder: string): string {
    if blocks == [] then "" else BlockHtml(blocks[0], folder) + MessagesHtml(blocks[1..], folder)
  }

  /** The separator a message opens when its day differs from the day before it. */
  function SeparatorFor(m: Exported, prev: Option<Day>): seq<Block> {
    if DayOf(m) != prev then [DateSeparator(DayLabel(DayOf(m)))] else []
  }

  /** A chat's messages, with `prev` the day of the message before them. */
  function Body(ms: seq<Exported>, prev: Option<Day>): seq<Block>
    decreases |ms|
  {
    if ms == [] then []
    else SeparatorFor(ms[0], prev) + [MessageBlock(ms[0])] + Body(ms[1..], DayOf(ms[0]))
  }

  /** A chat's section: header, messages (the day tracking starts afresh), closing tag. */
  function Section(gid: int, ms: seq<Exported>, groups: seq<Group>): seq<Block> {
    [GroupOpen(gid, HeaderTitle(groups, gid))] + Body(ms, None) + [GroupClose]
  }

  /** The sections of the chats, in the given order. */
  function Sections(order: seq<int>, byGroup: map<int, seq<Exported>>, groups: seq<Group>): seq<Block>
    requires forall g :: g in order ==> g in byGroup
  {
    if order == [] then []
    else Section(order[0], byGroup[order[0]], groups) + Sections(order[1..], byGroup, groups)
  }

  /**
   * The messages_html loop: for each chat a header, then each message,
   * preceded by a separator whenever its day differs from current_date;
   * current_date is reset after every chat.
   */
  method RenderGroups(order: seq<int>, byGroup: map<int, seq<Exported>>, groups: seq<Group>)
    returns (blocks: seq<Block>)
    requires forall g :: g in order ==> g in byGroup
    ensures blocks == Sections(order, byGroup, groups)
  {
    blocks := [];
    var currentDate: Option<Day> := None;
    assert order[0..] == order;
    for k := 0 to |order|
      invariant currentDate == None
      invariant blocks + Sections(order[k..], byGroup, groups) == Sections(order, byGroup, groups)
    {
      var gid := order[k];
      var groupMessages := byGroup[gid];
      var head := [GroupOpen(gid, HeaderTitle(groups, gid))];
      var section := head;
      assert groupMessages[0..] == groupMessages;
      for i := 0 to |groupMessages|
        invariant section + Body(groupMessages[i..], currentDate) == head + Body(groupMessages, None)
      {
        var msg := groupMessages[i];
        var msgDate := DayOf(msg);
        BodyAdvance(section, groupMessages, i, currentDate, head + Body(groupMessages, None));
        ghost var next := section + SeparatorFor(msg, currentDate) + [MessageBlock(msg)];
        if msgDate != currentDate {
          currentDate := msgDate;
          section := section + [DateSeparator(DayLabel(msgDate))];
        }
        section := section + [MessageBlock(msg)];
        assert section == next;
      }
      SectionsAdvance(blocks, order, k, byGroup, groups, section, currentDate);
      blocks := blocks + (section + [GroupClose]);
      currentDate := None;
    }
  }

  /** One message of the inner loop: the separator it needs and its block, then the rest from its day on. */
  lemma BodyAdvance(done: seq<Block>, ms: seq<Exported>, i: nat, prev: Option<Day>, all: seq<Block>)
    requires i < |ms| && done + Body(ms[i..], prev) == all
    ensures done + SeparatorFor(ms[i], prev) + [MessageBlock(ms[i])] + Body(ms[i + 1..], DayOf(ms[i])) == all
  {
    assert ms[i..][0] == ms[i] && ms[i..][1..] == ms[i + 1..];
  }

  /** One chat of the outer loop: its finished section, then the later chats. */
  lemma SectionsAdvance(done: seq<Block>, order: seq<int>, k: nat, byGroup: map<int, seq<Exported>>,
                        groups: seq<Group>, section: seq<Block>, last: Option<Day>)
    requires k < |order| && forall g :: g in order ==> g in byGroup
    requires done + Sections(order[k..], byGroup, groups) == Sections(order, byGroup, groups)
    requires var ms := byGroup[order[k]];
      section + Body(ms[|ms|..], last) == [GroupOpen(order[k], HeaderTitle(groups, order[k]))] + Body(ms, None)
    ensures done + (section + [GroupClose]) + Sections(order[k + 1..], byGroup, groups) == Sections(order, byGroup, groups)
  {
    var ms := byGroup[order[k]];
    var rest := Sections(order[k + 1..], byGroup, groups);
    assert ms[|ms|..] == [];
    assert section == [GroupOpen(order[k], HeaderTitle(groups, order[k]))] + Body(ms, None);
    assert Section(order[k], ms, groups) == section + [GroupClose];
    SectionsStep(order, k, byGroup, groups);
    ConcatAssoc(done, section + [GroupClose], rest);
  }

  lemma SectionsStep(order: seq<int>, k: nat, byGroup: map<int, seq<Exported>>, groups: seq<Group>)
    requires k < |order| && forall g :: g in order ==> g in byGroup
    ensures Sections(order[k..], byGroup, groups)
            == Section(order[k], byGroup[order[k]], groups) + Sections(order[k + 1..], byGroup, groups)
  {
    assert order[k..][0] == order[k] && order[k..][1..] == order[k + 1..];
  }

  /** The day before message k of a chat: none for the first. */
  function DayBefore(ms: seq<Exported>, k: nat): Option<Day>
    requires k < |ms|
  {
    if k == 0 then None else DayOf(ms[k - 1])
  }

  /** The blocks of messages k.. of a chat, each decided by itself and its predecessor alone. */
  function EntriesFrom(ms: seq<Exported>, k: nat): seq<Block>
    requires k <= |ms|
    decreases |ms| - k
  {
    if k == |ms| then []
    else SeparatorFor(ms[k], DayBefore(ms, k)) + [MessageBlock(ms[k])] + EntriesFrom(ms, k + 1)
  }

  /**
   * current_date always holds the previous message's day: a separator comes
   * before a chat's message exactly when its day differs from that of the
   * message before it in the same chat, and before the chat's first message
   * exactly when that one has a date.
   */
  lemma SeparatorsFollowDays(ms: seq<Exported>)
    ensures Body(ms, None) == EntriesFrom(ms, 0)
  {
    BodyFrom(ms, 0);
    assert ms[0..] == ms;
  }

  lemma {:induction false} BodyFrom(ms: seq<Exported>, k: nat)
    requires k <= |ms|
    ensures Body(ms[k..], if k == 0 then None else DayOf(ms[k - 1])) == EntriesFrom(ms, k)
    decreases |ms| - k
  {
    if k < |ms| {
      BodyFrom(ms, k + 1);
      assert ms[k..][0] == ms[k] && ms[k..][1..] == ms[k + 1..];
    }
  }

  /** generate_html's two loops over the grouped rows: the sidebar and the message blocks. */
  method GenerateHtml(groups: seq<Group>, messages: seq<Exported>, folder: string)
    returns (sidebar: seq<SidebarItem>, order: seq<int>, blocks: seq<Block>, html: string)
    ensures order == FirstAppearances(messages)
    ensures |sidebar| == |groups| && forall k :: 0 <= k < |groups| ==> sidebar[k] == SidebarItemOf(groups[k])
    ensures blocks == Sections(order, Grouped(messages), groups)
    ensures html == MessagesHtml(blocks, folder)
  {
    var byGroup;
    order, byGroup := GroupMessages(messages);
    sidebar := Sidebar(groups);
    assert forall g :: g in Grouped(messages) <==> g in order;
    assert forall g :: g in byGroup ==> byGroup[g] == Grouped(messages)[g];
    assert byGroup == Grouped(messages);
    blocks := RenderGroups(order, byGroup, groups);
    html := MessagesHtml(blocks, folder);
  }
}
