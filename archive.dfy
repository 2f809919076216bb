/*
 * The archive middleware (src/bot/middlewares/archive.py): every message
 * of a group or supergroup is stored once per (group id, message id), with
 * the first attached medium in a fixed precedence and, when the medium
 * could be fetched, the local file it was saved to.
 */
module Archive {
  import opened Common

  // ---------------------------------------------------------------------
  // pathlib's name and suffix
  // ---------------------------------------------------------------------

  /** str.rfind: the position of the last `c` in `s`, or -1. */
  function LastIndexOf(s: string, c: char): (i: int)
    ensures -1 <= i < |s|
    ensures i >= 0 ==> s[i] == c && c !in s[i + 1..]
    ensures i == -1 ==> c !in s
  {
    if s == [] then -1
    else if s[|s| - 1] == c then |s| - 1
    else
      var i := LastIndexOf(s[..|s| - 1], c);
      assert s == s[..|s| - 1] + [s[|s| - 1]];
      i
  }

  /** The last `c` of `a + [c] + b` is the one between them when `b` has none. */
  lemma {:induction false} LastIndexOfConcat(a: string, c: char, b: string)
    requires c !in b
    ensures LastIndexOf(a + [c] + b, c) == |a|
  {
    if b != [] {
      var s := a + [c] + b;
      assert s[..|s| - 1] == a + [c] + b[..|b| - 1];
      LastIndexOfConcat(a, c, b[..|b| - 1]);
    }
  }

  /** The last path component that is neither empty nor ".", as pathlib drops those. */
  function LastComponent(parts: seq<string>): (name: string)
    ensures name == "" || name in parts
    ensures name != "."
  {
    if parts == [] then ""
    else
      var p := parts[|parts| - 1];
      if p != "" && p != "." then p else LastComponent(parts[..|parts| - 1])
  }

  /** Path(path).name. */
  function BaseName(path: string): (name: string)
    ensures '/' !in name && name != "."
  {
    LastComponent(Split(path, '/'))
  }

  /** Path(path).suffix: from the last dot of the name, unless that dot starts or ends the name. */
  function Suffix(path: string): (ext: string)
    ensures ext == "" || (|ext| >= 2 && ext[0] == '.' && '.' !in ext[1..] && '/' !in ext && EndsWith(BaseName(path), ext))
  {
    var name := BaseName(path);
    var i := LastIndexOf(name, '.');
    if 0 < i < |name| - 1 then
      assert name[i..][1..] == name[i + 1..];
      name[i..]
    else ""
  }

  /** A suffix as pathlib reports one: a dot and at least one character, no other dot, no slash. */
  predicate SuffixShaped(ext: string) {
    |ext| >= 2 && ext[0] == '.' && '.' !in ext[1..] && '/' !in ext
  }

  /** The last piece of a split is what follows the last separator. */
  lemma {:induction false} SplitLast(a: string, sep: char, b: string)
    requires sep !in b
    ensures var parts := Split(a + [sep] + b, sep); |parts| >= 2 && parts[|parts| - 1] == b
    decreases |a|
  {
    var s := a + [sep] + b;
    var i := IndexOf(s, sep);
    IndexOfAtMost(s, sep, |a|);
    if i == |a| {
      assert s[i + 1..] == b;
      IndexOfAbsent(b, sep);
    } else {
      assert s[i + 1..] == a[i + 1..] + [sep] + b;
      SplitLast(a[i + 1..], sep, b);
    }
  }

  lemma {:induction false} IndexOfAtMost(s: string, c: char, j: nat)
    requires j < |s| && s[j] == c
    ensures IndexOf(s, c) <= j
  {
    if j > 0 && s[0] != c {
      IndexOfAtMost(s[1..], c, j - 1);
    }
  }

  /** A name appended to a folder is the path's final component. */
  lemma NameAfterFolder(folder: string, name: string)
    requires name != "" && name != "." && '/' !in name
    ensures BaseName(folder + "/" + name) == name
  {
    SplitLast(folder, '/', name);
  }

  // ---------------------------------------------------------------------
  // The extension rule and the stored file name
  // ---------------------------------------------------------------------

  /** _get_extension's defaults per media type. */
  const DefaultExtensions: map<string, string> := map[
    "photo" := ".jpg", "video" := ".mp4", "audio" := ".mp3", "voice" := ".ogg",
    "video_note" := ".mp4", "sticker" := ".webp", "animation" := ".mp4", "document" := ""]

  /** _get_extension: the server path's suffix, else the type's default, else "". */
  function GetExtension(mediaType: string, filePath: Option<string>): (ext: string)
    ensures filePath.Some? && Suffix(filePath.value) != "" ==> ext == Suffix(filePath.value)
    ensures (filePath.None? || Suffix(filePath.value) == "") && mediaType !in DefaultExtensions ==> ext == ""
  {
    if filePath.Some? && filePath.value != "" && Suffix(filePath.value) != "" then Suffix(filePath.value)
    else if mediaType in DefaultExtensions then DefaultExtensions[mediaType]
    else ""
  }

  /** _download_media's extension: the original name's suffix, else _get_extension. */
  function Extension(mediaType: string, originalName: Option<string>, serverPath: Option<string>): (ext: string)
    ensures originalName.Some? && Suffix(originalName.value) != "" ==> ext == Suffix(originalName.value)
    ensures ext == "" || SuffixShaped(ext)
    ensures (mediaType == "document" && (originalName.None? || Suffix(originalName.value) == "")
             && (serverPath.None? || Suffix(serverPath.value) == "")) ==> ext == ""
  {
    DefaultsShaped(mediaType);
    if originalName.Some? && originalName.value != "" && Suffix(originalName.value) != "" then Suffix(originalName.value)
    else GetExtension(mediaType, serverPath)
  }

  /** Every default extension is empty or shaped like a suffix. */
  lemma DefaultsShaped(mediaType: string)
    ensures mediaType in DefaultExtensions ==>
              DefaultExtensions[mediaType] == "" || SuffixShaped(DefaultExtensions[mediaType])
  {
    var ext := if mediaType in DefaultExtensions then DefaultExtensions[mediaType] else "";
    assert ext in {"", ".jpg", ".mp4", ".mp3", ".ogg", ".webp"};
  }

  /** "{message_id}_{media_type}{ext}". */
  function FileName(messageId: int, mediaType: string, ext: string): string {
    IntToString(messageId) + "_" + mediaType + ext
  }

  /** media_path / str(group_id) / filename. */
  function StoredPath(mediaPath: string, groupId: int, messageId: int, mediaType: string, ext: string): string {
    mediaPath + "/" + IntToString(groupId) + "/" + FileName(messageId, mediaType, ext)
  }

  lemma NoSeparatorInNumber(i: int, c: char)
    requires c == '_' || c == '.' || c == '/'
    ensures c !in IntToString(i)
  {
    var s := NatToString(if i < 0 then -i else i);
    assert forall k :: 0 <= k < |s| ==> IsDigit(s[k]);
    if i < 0 {
      assert IntToString(i) == "-" + s;
    }
  }

  /** The file name leads with the message id: the text before the first "_" parses back to it. */
  lemma FileNameNamesMessage(messageId: int, mediaType: string, ext: string)
    ensures var pieces := Split(FileName(messageId, mediaType, ext), '_');
      ParseInt(pieces[0]) == Some(messageId)
  {
    NoSeparatorInNumber(messageId, '_');
    assert FileName(messageId, mediaType, ext) == IntToString(messageId) + ['_'] + (mediaType + ext);
    SplitHead(IntToString(messageId), '_', mediaType + ext);
    IntToStringParses(messageId);
  }

  /** The stored file sits in the group's folder and keeps the chosen extension as its own suffix. */
  lemma StoredFileKeepsExtension(mediaPath: string, groupId: int, messageId: int, mediaType: string, ext: string)
    requires '/' !in mediaType && '.' !in mediaType
    requires ext == "" || SuffixShaped(ext)
    ensures var path := StoredPath(mediaPath, groupId, messageId, mediaType, ext);
      BaseName(path) == FileName(messageId, mediaType, ext) && Suffix(path) == ext
  {
    var name := FileName(messageId, mediaType, ext);
    var stem := IntToString(messageId) + "_" + mediaType;
    NoSeparatorInNumber(messageId, '/');
    NoSeparatorInNumber(messageId, '.');
    assert name == stem + ext;
    assert '/' !in name by {
      assert forall k :: 0 <= k < |name| ==> (k < |IntToString(messageId)| ==> name[k] == IntToString(messageId)[k]);
    }
    assert name[0] == IntToString(messageId)[0] && |name| >= 2;
    NameAfterFolder(mediaPath + "/" + IntToString(groupId), name);
    assert '.' !in stem;
    if ext == "" {
      assert name == stem;
    } else {
      assert name == stem + ['.'] + ext[1..];
      LastIndexOfConcat(stem, '.', ext[1..]);
      assert name[|stem|..] == ext;
    }
  }

  // ---------------------------------------------------------------------
  // Media classification
  // ---------------------------------------------------------------------

  /** One size of a photo. */
  datatype PhotoSize = PhotoSize(fileId: string, fileSize: Option<int>)

  /** A video, document, audio, voice, video note, sticker or animation attachment. */
  datatype Attachment = Attachment(fileId: string, fileName: Option<string>, mimeType: Option<string>, fileSize: Option<int>)

  datatype Sender = Sender(id: int, username: Option<string>, firstName: string, lastName: Option<string>)

  /** The parts of message.forward_origin the archive reads; an absent attribute is None. */
  datatype ForwardOrigin = ForwardOrigin(senderUser: Option<int>, chat: Option<int>, date: Option<int>)

  datatype Message = Message(
    messageId: int, chatId: int, chatType: string, from: Option<Sender>,
    text: Option<string>, caption: Option<string>,
    photo: seq<PhotoSize>, video: Option<Attachment>, document: Option<Attachment>, audio: Option<Attachment>,
    voice: Option<Attachment>, videoNote: Option<Attachment>, sticker: Option<Attachment>, animation: Option<Attachment>,
    replyTo: Option<int>, forwardOrigin: Option<ForwardOrigin>, date: int)

  /** The media columns of an archived row. */
  datatype Media = Media(mediaType: Option<string>, fileId: Option<string>, fileName: Option<string>,
                         mimeType: Option<string>, fileSize: Option<int>)

  const NoMedia := Media(None, None, None, None, None)

  /** The media kinds in the order the archive tries them. */
  const MediaKinds: seq<string> := ["photo", "video", "document", "audio", "voice", "video_note", "sticker", "animation"]

  /** The attachment of a kind, if the message has one; for a photo, its last (largest) size. */
  function Attached(m: Message, kind: string): Option<Attachment> {
    match kind
    case "photo" =>
      if m.photo == [] then None
      else Some(Attachment(m.photo[|m.photo| - 1].fileId, None, None, m.photo[|m.photo| - 1].fileSize))
    case "video" => m.video
    case "document" => m.document
    case "audio" => m.audio
    case "voice" => m.voice
    case "video_note" => m.videoNote
    case "sticker" => m.sticker
    case "animation" => m.animation
    case _ => None
  }

  /** The columns the archive fills for a kind: voices have no name, video notes and stickers neither name nor type. */
  function Recorded(kind: string, a: Attachment): (media: Media)
    ensures media.mediaType == Some(kind) && media.fileId == Some(a.fileId) && media.fileSize == a.fileSize
  {
    match kind
    case "voice" => Media(Some(kind), Some(a.fileId), None, a.mimeType, a.fileSize)
    case "video_note" => Media(Some(kind), Some(a.fileId), None, None, a.fileSize)
    case "sticker" => Media(Some(kind), Some(a.fileId), None, None, a.fileSize)
    case _ => Media(Some(kind), Some(a.fileId), a.fileName, a.mimeType, a.fileSize)
  }

  /** The first kind, in the given order, that the message carries. */
  function FirstAttached(m: Message, kinds: seq<string>): Media {
    if kinds == [] then NoMedia
    else if Attached(m, kinds[0]).Some? then Recorded(kinds[0], Attached(m, kinds[0]).value)
    else FirstAttached(m, kinds[1..])
  }

  /** The archive records the kind that comes first in the precedence, and no medium exactly when there is none. */
  lemma {:induction false} MediaPrecedence(m: Message, kinds: seq<string>, i: nat)
    requires i < |kinds| && Attached(m, kinds[i]).Some?
    requires forall j :: 0 <= j < i ==> Attached(m, kinds[j]).None?
    ensures FirstAttached(m, kinds) == Recorded(kinds[i], Attached(m, kinds[i]).value)
  {
    if i > 0 {
      assert Attached(m, kinds[0]).None?;
      MediaPrecedence(m, kinds[1..], i - 1);
    }
  }

  lemma {:induction false} NoMediaWhenNoneAttached(m: Message, kinds: seq<string>)
    ensures FirstAttached(m, kinds).mediaType.None? <==> forall j :: 0 <= j < |kinds| ==> Attached(m, kinds[j]).None?
    ensures FirstAttached(m, kinds).mediaType.None? ==> FirstAttached(m, kinds) == NoMedia
  {
    if kinds != [] {
      NoMediaWhenNoneAttached(m, kinds[1..]);
      if Attached(m, kinds[0]).None? {
        assert forall j :: 1 <= j < |kinds| ==> kinds[1..][j - 1] == kinds[j];
      }
    }
  }

  /** A photo is recorded by its last size, whatever else is attached. */
  lemma PhotoUsesLastSize(m: Message)
    requires m.photo != []
    ensures var media := FirstAttached(m, MediaKinds);
      media.mediaType == Some("photo") && media.fileId == Some(m.photo[|m.photo| - 1].fileId)
      && media.fileSize == m.photo[|m.photo| - 1].fileSize
  {
  }

  /** Each kind of the precedence reads its own attribute. */
  lemma AttachedKinds(m: Message)
    ensures Attached(m, MediaKinds[0]).None? <==> m.photo == []
    ensures Attached(m, MediaKinds[1]) == m.video && Attached(m, MediaKinds[2]) == m.document
    ensures Attached(m, MediaKinds[3]) == m.audio && Attached(m, MediaKinds[4]) == m.voice
    ensures Attached(m, MediaKinds[5]) == m.videoNote && Attached(m, MediaKinds[6]) == m.sticker
    ensures Attached(m, MediaKinds[7]) == m.animation
  {
  }

  /** _archive_message's if/elif chain over the media attributes. */
  method ClassifyMedia(m: Message) returns (media: Media)
    ensures media == FirstAttached(m, MediaKinds)
  {
    AttachedKinds(m);
    media := NoMedia;
    if m.photo != [] {
      var photo := m.photo[|m.photo| - 1];
      media := Media(Some("photo"), Some(photo.fileId), None, None, photo.fileSize);
      MediaPrecedence(m, MediaKinds, 0);
    } else if m.video.Some? {
      var v := m.video.value;
      media := Media(Some("video"), Some(v.fileId), v.fileName, v.mimeType, v.fileSize);
      MediaPrecedence(m, MediaKinds, 1);
    } else if m.document.Some? {
      var d := m.document.value;
      media := Media(Some("document"), Some(d.fileId), d.fileName, d.mimeType, d.fileSize);
      MediaPrecedence(m, MediaKinds, 2);
    } else if m.audio.Some? {
      var a := m.audio.value;
      media := Media(Some("audio"), Some(a.fileId), a.fileName, a.mimeType, a.fileSize);
      MediaPrecedence(m, MediaKinds, 3);
    } else if m.voice.Some? {
      var v := m.voice.value;
      media := Media(Some("voice"), Some(v.fileId), None, v.mimeType, v.fileSize);
      MediaPrecedence(m, MediaKinds, 4);
    } else if m.videoNote.Some? {
      var v := m.videoNote.value;
      media := Media(Some("video_note"), Some(v.fileId), None, None, v.fileSize);
      MediaPrecedence(m, MediaKinds, 5);
    } else if m.sticker.Some? {
      var s := m.sticker.value;
      media := Media(Some("sticker"), Some(s.fileId), None, None, s.fileSize);
      MediaPrecedence(m, MediaKinds, 6);
    } else if m.animation.Some? {
      var a := m.animation.value;
      media := Media(Some("animation"), Some(a.fileId), a.fileName, a.mimeType, a.fileSize);
      MediaPrecedence(m, MediaKinds, 7);
    } else {
      NoMediaWhenNoneAttached(m, MediaKinds);
    }
  }

  // ---------------------------------------------------------------------
  // The archived row and the middleware
  // ---------------------------------------------------------------------

  /** What bot.get_file and bot.download_file did for the medium: the server's file path, or an exception. */
  datatype Fetch = Fetched(serverPath: Option<string>) | FetchFailed

  datatype Row = Row(
    messageId: int, groupId: int, userId: Option<int>, username: Option<string>,
    firstName: Option<string>, lastName: Option<string>, text: Option<string>, caption: Option<string>,
    media: Media, mediaFilePath: Option<string>, replyTo: Option<int>,
    forwardFromUserId: Option<int>, forwardFromChatId: Option<int>, forwardDate: Option<int>, date: int)

  /** media_file_path: set only when there is a non-empty file id, a bot, and the fetch succeeded. */
  function DownloadedPath(mediaPath: string, m: Message, media: Media, bot: Option<Fetch>): (path: Option<string>)
    ensures path.Some? ==> bot.Some? && bot.value.Fetched?
    ensures path.Some? ==>
              && media.mediaType.Some?
              && path.value == StoredPath(mediaPath, m.chatId, m.messageId, media.mediaType.value,
                                          Extension(media.mediaType.value, media.fileName, bot.value.serverPath))
  {
    if media.fileId.Some? && media.fileId.value != "" && media.mediaType.Some? && bot.Some? && bot.value.Fetched? then
      Some(StoredPath(mediaPath, m.chatId, m.messageId, media.mediaType.value,
                      Extension(media.mediaType.value, media.fileName, bot.value.serverPath)))
    else None
  }

  /** The row _archive_message inserts. */
  function RowOf(mediaPath: string, m: Message, bot: Option<Fetch>): Row {
    var media := FirstAttached(m, MediaKinds);
    RowWith(m, media, DownloadedPath(mediaPath, m, media, bot))
  }

  /** The inserted columns: the message's own fields, its sender's, its forward origin's, the medium and its path. */
  function RowWith(m: Message, media: Media, path: Option<string>): Row {
    var origin := m.forwardOrigin;
    Row(m.messageId, m.chatId,
        if m.from.Some? then Some(m.from.value.id) else None,
        if m.from.Some? then m.from.value.username else None,
        if m.from.Some? then Some(m.from.value.firstName) else None,
        if m.from.Some? then m.from.value.lastName else None,
        m.text, m.caption, media, path, m.replyTo,
        if origin.Some? then origin.value.senderUser else None,
        if origin.Some? then origin.value.chat else None,
        if origin.Some? then origin.value.date else None,
        m.date)
  }

  /** INSERT ... ON CONFLICT (group_id, message_id) DO NOTHING. */
  function Inserted(rows: map<(int, int), Row>, row: Row): (r: map<(int, int), Row>)
    ensures (row.groupId, row.messageId) in r
    ensures (row.groupId, row.messageId) in rows ==> r == rows
    ensures r.Keys == rows.Keys + {(row.groupId, row.messageId)}
  {
    var key := (row.groupId, row.messageId);
    if key in rows then rows else rows[key := row]
  }

  /** Archiving the same message again changes nothing: the first row stays. */
  lemma InsertIdempotent(rows: map<(int, int), Row>, first: Row, again: Row)
    requires (first.groupId, first.messageId) == (again.groupId, again.messageId)
    ensures Inserted(Inserted(rows, first), again) == Inserted(rows, first)
  {
  }

  /** A failed download still archives the message, without a local file. */
  lemma FailedDownloadStillArchived(rows: map<(int, int), Row>, mediaPath: string, m: Message)
    requires (m.chatId, m.messageId) !in rows
    ensures var r := Inserted(rows, RowOf(mediaPath, m, Some(FetchFailed)));
      (m.chatId, m.messageId) in r && r[(m.chatId, m.messageId)].mediaFilePath.None?
      && r[(m.chatId, m.messageId)].media == FirstAttached(m, MediaKinds)
  {
  }

  /** The update the middleware sees. */
  datatype Update = OtherEvent | NewMessage(message: Message)

  /** The archive middleware: the stored rows and how often the wrapped handler ran. */
  class ArchiveMiddleware {
    const enabled: bool
    const mediaPath: string
    var rows: map<(int, int), Row>
    var handlerCalls: nat

    constructor (enabled: bool, mediaPath: string)
      ensures this.enabled == enabled && this.mediaPath == mediaPath && rows == map[] && handlerCalls == 0
    {
      this.enabled := enabled;
      this.mediaPath := mediaPath;
      rows := map[];
      handlerCalls := 0;
    }

    /** Whether an update is archived: enabled, a message, and from a group or supergroup. */
    predicate Archives(u: Update) {
      enabled && u.NewMessage? && (u.message.chatType == "group" || u.message.chatType == "supergroup")
    }

    /** _archive_message: classify the medium, fetch it, insert the row. */
    method ArchiveMessage(m: Message, bot: Option<Fetch>)
      modifies this`rows
      ensures rows == Inserted(old(rows), RowOf(mediaPath, m, bot))
    {
      var media := ClassifyMedia(m);
      var path: Option<string> := None;
      if media.fileId.Some? && media.fileId.value != "" && media.mediaType.Some? && bot.Some? {
        match bot.value
        case Fetched(serverPath) =>
          var ext := Extension(media.mediaType.value, media.fileName, serverPath);
          path := Some(StoredPath(mediaPath, m.chatId, m.messageId, media.mediaType.value, ext));
        case FetchFailed =>
      }
      assert path == DownloadedPath(mediaPath, m, media, bot);
      rows := Inserted(rows, RowWith(m, media, path));
    }

    /**
     * __call__: archive when enabled and the update is a group message;
     * `dbUp` false stands for the insert raising, which is logged and
     * swallowed. The handler runs exactly once either way.
     */
    method Call(u: Update, bot: Option<Fetch>, dbUp: bool)
      modifies this`rows, this`handlerCalls
      ensures handlerCalls == old(handlerCalls) + 1
      ensures Archives(u) && dbUp ==> rows == Inserted(old(rows), RowOf(mediaPath, u.message, bot))
      ensures !(Archives(u) && dbUp) ==> rows == old(rows)
    {
      if Archives(u) && dbUp {
        ArchiveMessage(u.message, bot);
      }
      handlerCalls := handlerCalls + 1;
    }
  }
}
