/*
 * The broadcast UI's inline keyboards: localized navigation buttons, the
 * parser that turns "text | url" lines into URL buttons, and the paginator
 * that lays out the scheduled-broadcast list with page buttons.
 */
module UiKeyboards {
  import opened Common

  /** An inline keyboard button: a callback button or a URL button. */
  datatype Button = Button(text: string, callbackData: Option<string>, url: Option<string>)

  /** inline_keyboard: rows of buttons. */
  type Markup = seq<seq<Button>>

  function CallbackButton(text: string, data: string): Button {
    Button(text, Some(data), None)
  }

  function UrlButton(text: string, url: string): Button {
    Button(text, None, Some(url))
  }

  // ---------------------------------------------------------------------
  // Localized buttons
  // ---------------------------------------------------------------------

  const ButtonTexts: map<string, map<string, string>> := map[
    "en" := map["add" := "Add", "delete" := "Delete", "back" := "Back", "skip" := "Skip",
                "next" := "Next", "later" := "Later", "now" := "Now", "confirm" := "Confirm",
                "cancel" := "Cancel"],
    "ru" := map["add" := "Добавить", "delete" := "Удалить", "back" := "Назад", "skip" := "Пропустить",
                "next" := "Далее", "later" := "Позже", "now" := "Сейчас", "confirm" := "Подтвердить",
                "cancel" := "Отмена"]]

  /** A BroadcastUIKeyboards instance: only its language matters. */
  datatype Keyboards = Keyboards(languageCode: string)

  /** __init__: a supported code is kept; None, "" or anything else gives "en". */
  function NewKeyboards(code: Option<string>): (k: Keyboards)
    ensures k.languageCode in ButtonTexts
    ensures k.languageCode == (if code.Some? && code.value in ButtonTexts then code.value else "en")
  {
    if code.Some? && code.value != "" && code.value in ButtonTexts then Keyboards(code.value) else Keyboards("en")
  }

  /** _get_button_text: the language's text, else the English one, else the key itself. */
  function ButtonText(k: Keyboards, key: string): (t: string)
    ensures k.languageCode in ButtonTexts && key in ButtonTexts[k.languageCode] ==> t == ButtonTexts[k.languageCode][key]
    ensures (k.languageCode !in ButtonTexts || key !in ButtonTexts[k.languageCode]) && key in ButtonTexts["en"]
            ==> t == ButtonTexts["en"][key]
    ensures (k.languageCode !in ButtonTexts || key !in ButtonTexts[k.languageCode]) && key !in ButtonTexts["en"]
            ==> t == key
  {
    var table := if k.languageCode in ButtonTexts then ButtonTexts[k.languageCode] else map[];
    if key in table then table[key]
    else if key in ButtonTexts["en"] then ButtonTexts["en"][key]
    else key
  }

  /** Both languages label the same nine buttons, so a supported language never falls back. */
  lemma ButtonTablesAgree()
    ensures ButtonTexts["ru"].Keys == ButtonTexts["en"].Keys
    ensures ButtonTexts["en"].Keys == {"add", "delete", "back", "skip", "next", "later", "now", "confirm", "cancel"}
  {
  }

  /** _button: the localized text, the key as callback data unless one is given. */
  function KeyButton(k: Keyboards, key: string, data: Option<string>): Button {
    CallbackButton(ButtonText(k, key), if data.Some? && data.value != "" then data.value else key)
  }

  function Back(k: Keyboards): Markup { [[KeyButton(k, "back", None)]] }
  function BackAdd(k: Keyboards): Markup { [[KeyButton(k, "back", None), KeyButton(k, "add", None)]] }
  function BackNext(k: Keyboards): Markup { [[KeyButton(k, "back", None), KeyButton(k, "next", None)]] }
  function BackDelete(k: Keyboards): Markup { [[KeyButton(k, "back", None), KeyButton(k, "delete", None)]] }
  function BackConfirm(k: Keyboards): Markup { [[KeyButton(k, "back", None), KeyButton(k, "confirm", None)]] }
  function BackSkip(k: Keyboards): Markup { [[KeyButton(k, "back", None), KeyButton(k, "skip", None)]] }
  function SendOptions(k: Keyboards): Markup {
    [[KeyButton(k, "now", None), KeyButton(k, "later", None)], [KeyButton(k, "back", None)]]
  }

  // ---------------------------------------------------------------------
  // build_url_buttons
  // ---------------------------------------------------------------------

  /** [p.strip() for p in parts if p.strip()]. */
  function NonBlank(parts: seq<string>): (r: seq<string>)
    ensures |r| <= |parts|
  {
    if parts == [] then []
    else if Strip(parts[0]) == "" then NonBlank(parts[1..])
    else [Strip(parts[0])] + NonBlank(parts[1..])
  }

  /** One "text | url" definition: exactly one bar, both sides non-blank, an http(s) or www. URL. */
  function ParseButton(def: string): Option<Button> {
    var parts := Split(def, '|');
    if |parts| != 2 then None
    else
      var text := Strip(parts[0]);
      var url := Strip(parts[1]);
      if text == "" || url == "" then None
      else if StartsWith(url, "http://") || StartsWith(url, "https://") then Some(UrlButton(text, url))
      else if StartsWith(url, "www.") then Some(UrlButton(text, "https://" + url))
      else None
  }

  /** The buttons of one row's definitions, or None as soon as one is invalid. */
  function ParseRow(defs: seq<string>): Option<seq<Button>> {
    if defs == [] then Some([])
    else
      var init := ParseRow(defs[..|defs| - 1]);
      var last := ParseButton(defs[|defs| - 1]);
      if init.None? || last.None? then None else Some(init.value + [last.value])
  }

  /** The segments of a row: its comma-separated non-blank pieces. */
  function Segments(row: string): seq<string> {
    NonBlank(Split(row, ','))
  }

  /** The keyboard of the given rows; a row without buttons adds no row. */
  function ParseRows(rows: seq<string>): Option<Markup> {
    if rows == [] then Some([])
    else
      var init := ParseRows(rows[..|rows| - 1]);
      var last := ParseRow(Segments(rows[|rows| - 1]));
      if init.None? || last.None? then None
      else Some(if last.value == [] then init.value else init.value + [last.value])
  }

  /** build_url_buttons as a whole. */
  function UrlButtons(text: string): Option<Markup> {
    if text == "" || Strip(text) == "" then None
    else
      var kb := ParseRows(NonBlank(Split(Strip(text), '\n')));
      if kb.None? || kb.value == [] then None else kb
  }

  lemma {:induction false} ParseRowFails(defs: seq<string>, j: nat)
    requires j <= |defs| && ParseRow(defs[..j]) == None
    ensures ParseRow(defs) == None
    decreases |defs|
  {
    if j < |defs| {
      assert defs[..|defs| - 1][..j] == defs[..j];
      ParseRowFails(defs[..|defs| - 1], j);
    } else {
      assert defs[..j] == defs;
    }
  }

  lemma {:induction false} ParseRowsFails(rows: seq<string>, i: nat)
    requires i <= |rows| && ParseRows(rows[..i]) == None
    ensures ParseRows(rows) == None
    decreases |rows|
  {
    if i < |rows| {
      assert rows[..|rows| - 1][..i] == rows[..i];
      ParseRowsFails(rows[..|rows| - 1], i);
    } else {
      assert rows[..i] == rows;
    }
  }

  /** The body of the inner loop: one definition checked and turned into a button. */
  method ParseDefinition(def: string) returns (b: Option<Button>)
    ensures b == ParseButton(def)
  {
    var parts := Split(def, '|');
    if |parts| != 2 {
      return None;
    }
    var text := Strip(parts[0]);
    var url := Strip(parts[1]);
    if text == "" || url == "" {
      return None;
    }
    if !(StartsWith(url, "http://") || StartsWith(url, "https://")) {
      if StartsWith(url, "www.") {
        url := "https://" + url;
      } else {
        return None;
      }
    }
    b := Some(UrlButton(text, url));
  }

  /** The inner loop of build_url_buttons: one row's definitions, None on the first invalid one. */
  method ParseRowDefinitions(defs: seq<string>) returns (row: Option<seq<Button>>)
    ensures row == ParseRow(defs)
  {
    var rowButtons: seq<Button> := [];
    var j := 0;
    while j < |defs|
      invariant 0 <= j <= |defs|
      invariant ParseRow(defs[..j]) == Some(rowButtons)
    {
      assert defs[..j + 1][..j] == defs[..j];
      var b := ParseDefinition(defs[j]);
      if b.None? {
        ParseRowFails(defs, j + 1);
        return None;
      }
      rowButtons := rowButtons + [b.value];
      j := j + 1;
    }
    assert defs[..j] == defs;
    row := Some(rowButtons);
  }

  /**
   * build_url_buttons: the loops over rows and their definitions, giving
   * up with None on the first invalid definition.
   */
  method BuildUrlButtons(buttonsText: string) returns (r: Option<Markup>)
    ensures r == UrlButtons(buttonsText)
  {
    if buttonsText == "" || Strip(buttonsText) == "" {
      return None;
    }
    var rows := NonBlank(Split(Strip(buttonsText), '\n'));
    var keyboard: Markup := [];
    var i := 0;
    while i < |rows|
      invariant 0 <= i <= |rows|
      invariant ParseRows(rows[..i]) == Some(keyboard)
    {
      assert rows[..i + 1][..i] == rows[..i];
      var rowButtons := ParseRowDefinitions(Segments(rows[i]));
      if rowButtons.None? {
        ParseRowsFails(rows, i + 1);
        return None;
      }
      if rowButtons.value != [] {
        keyboard := keyboard + [rowButtons.value];
      }
      i := i + 1;
    }
    assert rows[..i] == rows;
    if keyboard == [] {
      return None;
    }
    r := Some(keyboard);
  }

  /** A button the parser can produce: non-blank text, an http:// or https:// URL. */
  predicate GoodButton(b: Button) {
    b.callbackData.None? && b.url.Some? && b.text != ""
    && (StartsWith(b.url.value, "http://") || StartsWith(b.url.value, "https://"))
  }

  predicate GoodRow(row: seq<Button>) {
    forall j :: 0 <= j < |row| ==> GoodButton(row[j])
  }

  lemma {:induction false} ParseRowGood(defs: seq<string>)
    ensures ParseRow(defs).Some? ==> |ParseRow(defs).value| == |defs| && GoodRow(ParseRow(defs).value)
  {
    if defs != [] {
      ParseRowGood(defs[..|defs| - 1]);
      var last := ParseButton(defs[|defs| - 1]);
      if last.Some? {
        assert StartsWith("https://" + Strip(Split(defs[|defs| - 1], '|')[1]), "https://");
      }
    }
  }

  lemma {:induction false} ParseRowsGood(rows: seq<string>)
    ensures ParseRows(rows).Some? ==>
      var kb := ParseRows(rows).value;
      |kb| <= |rows| && forall i :: 0 <= i < |kb| ==> kb[i] != [] && GoodRow(kb[i])
  {
    if rows != [] {
      ParseRowsGood(rows[..|rows| - 1]);
      ParseRowGood(Segments(rows[|rows| - 1]));
    }
  }

  /**
   * Whatever build_url_buttons returns has at least one row, no empty row,
   * and only URL buttons with non-blank text and an http:// or https:// URL
   * (a "www." URL having been given "https://").
   */
  lemma UrlButtonsGood(text: string)
    ensures UrlButtons(text).Some? ==>
      var kb := UrlButtons(text).value;
      kb != [] && forall i :: 0 <= i < |kb| ==> kb[i] != [] && GoodRow(kb[i])
  {
    if text != "" && Strip(text) != "" {
      ParseRowsGood(NonBlank(Split(Strip(text), '\n')));
    }
  }

  /** Blank input gives None, and so does input with a definition lacking its bar. */
  lemma UrlButtonsRejects(text: string, def: string)
    ensures AllSpace(text) ==> UrlButtons(text) == None
    ensures '|' !in def ==> ParseButton(def) == None && ParseRow([def]) == None
  {
    StripSpec(text);
    if '|' !in def {
      IndexOfAbsent(def, '|');
      assert Split(def, '|') == [def];
      assert [def][..0] == [];
    }
  }

  // ---------------------------------------------------------------------
  // The button text format read back
  // ---------------------------------------------------------------------

  /** A piece of text that survives strip() and contains none of the three separators. */
  predicate Plain(s: string) {
    |s| > 0 && !IsSpace(s[0]) && !IsSpace(s[|s| - 1]) && '|' !in s && ',' !in s && '\n' !in s
  }

  /** A URL button written back in the input format: text and URL plain, URL already absolute. */
  predicate Renderable(b: Button) {
    b.callbackData.None? && b.url.Some? && Plain(b.text) && Plain(b.url.value)
    && (StartsWith(b.url.value, "http://") || StartsWith(b.url.value, "https://"))
  }

  function RenderButton(b: Button): string {
    b.text + "|" + (if b.url.Some? then b.url.value else "")
  }

  function RenderDefs(row: seq<Button>): seq<string> {
    seq(|row|, j requires 0 <= j < |row| => RenderButton(row[j]))
  }

  /** A keyboard written as the text build_url_buttons reads: "text|url" joined by "," and by new lines. */
  function Render(kb: Markup): string {
    Join(seq(|kb|, i requires 0 <= i < |kb| => Join(RenderDefs(kb[i]), ',')), '\n')
  }

  /** Non-empty and not starting or ending with whitespace: strip() leaves it alone. */
  predicate Trimmed(s: string) {
    |s| > 0 && !IsSpace(s[0]) && !IsSpace(s[|s| - 1])
  }

  lemma {:induction false} JoinTrimmed(parts: seq<string>, sep: char)
    requires |parts| >= 1 && forall k :: 0 <= k < |parts| ==> Trimmed(parts[k])
    ensures Trimmed(Join(parts, sep))
  {
    if |parts| > 1 {
      JoinTrimmed(parts[1..], sep);
    }
  }

  lemma {:induction false} JoinAvoids(parts: seq<string>, sep: char, c: char)
    requires c != sep && forall k :: 0 <= k < |parts| ==> c !in parts[k]
    ensures c !in Join(parts, sep)
  {
    if |parts| > 1 {
      JoinAvoids(parts[1..], sep, c);
    }
  }

  lemma {:induction false} NonBlankKeeps(parts: seq<string>)
    requires forall k :: 0 <= k < |parts| ==> Trimmed(parts[k])
    ensures NonBlank(parts) == parts
  {
    if parts != [] {
      StripKeeps(parts[0]);
      NonBlankKeeps(parts[1..]);
    }
  }

  lemma ParseRendered(b: Button)
    requires Renderable(b)
    ensures ParseButton(RenderButton(b)) == Some(b)
  {
    var text, url := b.text, b.url.value;
    assert Join([text, url], '|') == RenderButton(b);
    SplitJoin([text, url], '|');
    StripKeeps(text);
    StripKeeps(url);
  }

  lemma RenderDefsLast(row: seq<Button>)
    requires row != []
    ensures RenderDefs(row)[..|row| - 1] == RenderDefs(row[..|row| - 1])
    ensures RenderDefs(row)[|row| - 1] == RenderButton(row[|row| - 1])
  {
  }

  lemma {:induction false} ParseRowRendered(row: seq<Button>)
    requires forall j :: 0 <= j < |row| ==> Renderable(row[j])
    ensures ParseRow(RenderDefs(row)) == Some(row)
  {
    if row != [] {
      var n := |row| - 1;
      var defs := RenderDefs(row);
      RenderDefsLast(row);
      ParseRowRendered(row[..n]);
      ParseRendered(row[n]);
      ParseRowStep(defs, row[..n], row[n]);
      LastSplit(row);
    }
  }

  lemma ParseRowStep(defs: seq<string>, init: seq<Button>, b: Button)
    requires defs != [] && ParseRow(defs[..|defs| - 1]) == Some(init) && ParseButton(defs[|defs| - 1]) == Some(b)
    ensures ParseRow(defs) == Some(init + [b])
  {
  }

  /** One rendered row reads back as its buttons, and is itself trimmed and free of new lines. */
  lemma RowRendered(row: seq<Button>)
    requires RenderableRow(row)
    ensures Segments(Join(RenderDefs(row), ',')) == RenderDefs(row)
    ensures ParseRow(Segments(Join(RenderDefs(row), ','))) == Some(row)
    ensures Trimmed(Join(RenderDefs(row), ',')) && '\n' !in Join(RenderDefs(row), ',')
  {
    var defs := RenderDefs(row);
    forall k | 0 <= k < |defs|
      ensures ',' !in defs[k] && '\n' !in defs[k] && Trimmed(defs[k])
    {
      assert defs[k] == row[k].text + "|" + row[k].url.value;
    }
    SplitJoin(defs, ',');
    NonBlankKeeps(defs);
    ParseRowRendered(row);
    JoinTrimmed(defs, ',');
    JoinAvoids(defs, ',', '\n');
  }

  lemma LastSplit<T>(s: seq<T>)
    requires s != []
    ensures s[..|s| - 1] + [s[|s| - 1]] == s
  {
  }

  /** A non-empty row of renderable buttons. */
  predicate RenderableRow(row: seq<Button>) {
    row != [] && forall j :: 0 <= j < |row| ==> Renderable(row[j])
  }

  lemma {:induction false} ParseRowsRendered(kb: Markup, rows: seq<string>)
    requires forall i :: 0 <= i < |kb| ==> RenderableRow(kb[i])
    requires |rows| == |kb| && forall i :: 0 <= i < |kb| ==> rows[i] == Join(RenderDefs(kb[i]), ',')
    ensures ParseRows(rows) == Some(kb)
  {
    if kb != [] {
      var n := |kb| - 1;
      ParseRowsRendered(kb[..n], rows[..n]);
      assert RenderableRow(kb[n]);
      RowRendered(kb[n]);
      assert rows[..n] == rows[..|rows| - 1];
      LastSplit(kb);
    }
  }

  /** The rendered text is already stripped and splits on new lines into the rendered rows. */
  lemma RenderedLines(kb: Markup, rows: seq<string>)
    requires kb != [] && forall i :: 0 <= i < |kb| ==> RenderableRow(kb[i])
    requires rows == seq(|kb|, i requires 0 <= i < |kb| => Join(RenderDefs(kb[i]), ','))
    ensures Render(kb) != "" && Strip(Render(kb)) == Render(kb)
    ensures NonBlank(Split(Render(kb), '\n')) == rows
  {
    forall i | 0 <= i < |rows|
      ensures Trimmed(rows[i]) && '\n' !in rows[i]
    {
      RowRendered(kb[i]);
    }
    JoinTrimmed(rows, '\n');
    StripKeeps(Join(rows, '\n'));
    SplitJoin(rows, '\n');
    NonBlankKeeps(rows);
  }

  /**
   * Writing a keyboard of plain, absolute URL buttons in the input format
   * and parsing it again gives back the same keyboard: rows stay rows,
   * buttons keep their order, nothing is added or dropped.
   */
  lemma UrlButtonsRender(kb: Markup)
    requires kb != [] && forall i :: 0 <= i < |kb| ==> RenderableRow(kb[i])
    ensures UrlButtons(Render(kb)) == Some(kb)
  {
    var rows := seq(|kb|, i requires 0 <= i < |kb| => Join(RenderDefs(kb[i]), ','));
    RenderedLines(kb, rows);
    ParseRowsRendered(kb, rows);
  }

  // ---------------------------------------------------------------------
  // InlineKeyboardPaginator
  // ---------------------------------------------------------------------

  function FirstLabel(n: int): string { "« " + IntToString(n) }
  function PreviousLabel(n: int): string { "‹ " + IntToString(n) }
  function CurrentLabel(n: int): string { "· " + IntToString(n) + " ·" }
  function NextLabel(n: int): string { IntToString(n) + " ›" }
  function LastLabel(n: int): string { IntToString(n) + " »" }

  /** data_pattern "page:{}" filled with a page number. */
  function PageData(n: int): string { "page:" + IntToString(n) }

  /** `for page in range(lo, hi + 1): keyboard_dict[page] = str(page)`. */
  function WithPages(m: map<int, string>, lo: int, hi: int): (r: map<int, string>)
    decreases hi - lo
  {
    if hi < lo then m else WithPages(m, lo, hi - 1)[hi := IntToString(hi)]
  }

  /** The labels set before the plain page numbers, and the range of plain page numbers. */
  function NavFrame(c: int, t: int): (map<int, string>, int, int) {
    if t <= 5 then (map[], 1, t)
    else if c <= 3 then (map[4 := NextLabel(4), t := LastLabel(t)], 1, 3)
    else if c > t - 3 then (map[1 := FirstLabel(1), t - 3 := PreviousLabel(t - 3)], t - 2, t)
    else (map[1 := FirstLabel(1), c - 1 := PreviousLabel(c - 1), c + 1 := NextLabel(c + 1), t := LastLabel(t)], c, c)
  }

  /** keyboard_dict once _navigation_builder has filled it. */
  function NavMap(c: int, t: int): map<int, string> {
    if t <= 1 then map[]
    else
      var f := NavFrame(c, t);
      WithPages(f.0, f.1, f.2)[c := CurrentLabel(c)]
  }

  /** The items of a dict whose keys lie in lo..hi, in ascending key order: sorted(d.items()). */
  function SortedItems(m: map<int, string>, lo: int, hi: int): seq<(int, string)>
    decreases hi - lo + 1
  {
    if hi < lo then []
    else SortedItems(m, lo, hi - 1) + (if hi in m then [(hi, m[hi])] else [])
  }

  function KeysOf(items: seq<(int, string)>): seq<int> {
    seq(|items|, i requires 0 <= i < |items| => items[i].0)
  }

  function ButtonsOf(items: seq<(int, string)>): seq<Button> {
    seq(|items|, i requires 0 <= i < |items| => CallbackButton(items[i].1, PageData(items[i].0)))
  }

  function Min(a: int, b: int): int { if a <= b then a else b }
  function Max(a: int, b: int): int { if a <= b then b else a }

  /** The navigation buttons, one per dict entry, by ascending page. */
  function NavButtons(c: int, t: int): seq<Button> {
    ButtonsOf(SortedItems(NavMap(c, t), Min(1, c), Max(t, c)))
  }

  /** `for page in range(lo, hi + 1): keyboard_dict[page] = str(page)` on a given dict. */
  method AddPages(dict0: map<int, string>, lo: int, hi: int) returns (dict: map<int, string>)
    ensures dict == WithPages(dict0, lo, hi)
  {
    dict := dict0;
    var page := lo;
    while page <= hi
      invariant page <= hi + 1 || (hi < lo && page == lo)
      invariant dict == WithPages(dict0, lo, page - 1)
    {
      dict := dict[page := IntToString(page)];
      page := page + 1;
    }
  }

  /** `for key, val in sorted(keyboard_dict.items()): builder.button(...)` over keys lo..hi. */
  method EmitButtons(dict: map<int, string>, lo: int, hi: int) returns (nav: seq<Button>)
    ensures nav == ButtonsOf(SortedItems(dict, lo, hi))
  {
    nav := [];
    var key := lo;
    while key <= hi
      invariant key <= hi + 1 || (hi < lo && key == lo)
      invariant nav == ButtonsOf(SortedItems(dict, lo, key - 1))
    {
      var items := SortedItems(dict, lo, key - 1);
      if key in dict {
        assert ButtonsOf(items + [(key, dict[key])]) == ButtonsOf(items) + [CallbackButton(dict[key], PageData(key))];
        nav := nav + [CallbackButton(dict[key], PageData(key))];
      } else {
        assert items + [] == items;
      }
      key := key + 1;
    }
  }

  /**
   * _navigation_builder: the dict of page labels filled by the branch for
   * the page count and the current page, then one button per entry in
   * ascending page order.
   */
  method NavigationBuilder(c: int, t: int) returns (nav: seq<Button>)
    ensures nav == NavButtons(c, t)
  {
    if t <= 1 {
      SortedItemsGap(map[], Min(1, c), Max(t, c));
      return [];
    }
    var dict: map<int, string>;
    var lo, hi;
    if t <= 5 {
      dict, lo, hi := map[], 1, t;
    } else if c <= 3 {
      dict := map[4 := NextLabel(4)];
      dict := dict[t := LastLabel(t)];
      lo, hi := 1, 3;
    } else if c > t - 3 {
      dict := map[1 := FirstLabel(1)];
      dict := dict[t - 3 := PreviousLabel(t - 3)];
      lo, hi := t - 2, t;
    } else {
      dict := map[1 := FirstLabel(1)];
      dict := dict[c - 1 := PreviousLabel(c - 1)];
      dict := dict[c + 1 := NextLabel(c + 1)];
      dict := dict[t := LastLabel(t)];
      lo, hi := c, c;
    }
    assert (dict, lo, hi) == NavFrame(c, t);
    dict := AddPages(dict, lo, hi);
    dict := dict[c := CurrentLabel(c)];
    nav := EmitButtons(dict, Min(1, c), Max(t, c));
  }

  /** Every page written by the range loop reads as its own number; other keys are untouched. */
  lemma {:induction false} WithPagesAt(m: map<int, string>, lo: int, hi: int, k: int)
    ensures k in WithPages(m, lo, hi) <==> k in m || lo <= k <= hi
    ensures k in WithPages(m, lo, hi) ==>
      WithPages(m, lo, hi)[k] == if lo <= k <= hi then IntToString(k) else m[k]
    decreases hi - lo
  {
    if hi >= lo {
      WithPagesAt(m, lo, hi - 1, k);
    }
  }

  /** Keys strictly ascending. */
  predicate Ascending(r: seq<(int, string)>) {
    forall i, j :: 0 <= i < j < |r| ==> r[i].0 < r[j].0
  }

  /** Each item is a key of m in lo..hi paired with its own value. */
  predicate ItemsOf(r: seq<(int, string)>, m: map<int, string>, lo: int, hi: int) {
    forall i :: 0 <= i < |r| ==> lo <= r[i].0 <= hi && r[i].0 in m && r[i].1 == m[r[i].0]
  }

  /**
   * sorted(d.items()) restricted to lo..hi: strictly ascending keys, each
   * paired with its own value, and every key of the dict in the range listed.
   */
  lemma {:induction false} SortedItemsSpec(m: map<int, string>, lo: int, hi: int)
    ensures Ascending(SortedItems(m, lo, hi)) && ItemsOf(SortedItems(m, lo, hi), m, lo, hi)
    ensures forall k :: lo <= k <= hi && k in m ==> k in KeysOf(SortedItems(m, lo, hi))
    decreases hi - lo + 1
  {
    if hi >= lo {
      SortedItemsSpec(m, lo, hi - 1);
      var r0 := SortedItems(m, lo, hi - 1);
      var r := SortedItems(m, lo, hi);
      assert forall i :: 0 <= i < |r0| ==> r[i] == r0[i];
      assert |r| > |r0| ==> r[|r0|] == (hi, m[hi]);
      forall i, j | 0 <= i < j < |r|
        ensures r[i].0 < r[j].0
      {
        assert r0[i].0 <= hi - 1;
      }
      forall i | 0 <= i < |r|
        ensures lo <= r[i].0 <= hi && r[i].0 in m && r[i].1 == m[r[i].0]
      {
        if i < |r0| {
          assert r[i] == r0[i];
        }
      }
      forall k | lo <= k <= hi && k in m
        ensures k in KeysOf(r)
      {
        if k < hi {
          var i :| 0 <= i < |r0| && KeysOf(r0)[i] == k;
          assert r[i] == r0[i];
          assert KeysOf(r)[i] == k;
        } else {
          assert KeysOf(r)[|r| - 1] == k;
        }
      }
    }
  }

  /** No key of the dict lies in lo..hi: nothing is listed. */
  lemma {:induction false} SortedItemsGap(m: map<int, string>, lo: int, hi: int)
    requires forall k :: lo <= k <= hi ==> k !in m
    ensures SortedItems(m, lo, hi) == []
    decreases hi - lo + 1
  {
    if hi >= lo {
      SortedItemsGap(m, lo, hi - 1);
    }
  }

  /** Listing lo..hi is listing lo..mid and then mid+1..hi. */
  lemma {:induction false} SortedItemsSplit(m: map<int, string>, lo: int, mid: int, hi: int)
    requires lo - 1 <= mid <= hi
    ensures SortedItems(m, lo, hi) == SortedItems(m, lo, mid) + SortedItems(m, mid + 1, hi)
    decreases hi - mid
  {
    if mid < hi {
      SortedItemsSplit(m, lo, mid, hi - 1);
    }
  }

  /** Every number in lo..hi is a key: the keys listed are lo, lo+1, ..., hi. */
  lemma {:induction false} SortedItemsFull(m: map<int, string>, lo: int, hi: int)
    requires lo <= hi + 1
    requires forall k :: lo <= k <= hi ==> k in m
    ensures KeysOf(SortedItems(m, lo, hi)) == seq(hi - lo + 1, i requires 0 <= i <= hi - lo => lo + i)
    decreases hi - lo + 1
  {
    if hi >= lo {
      SortedItemsFull(m, lo, hi - 1);
      KeysOfAppend(SortedItems(m, lo, hi - 1), [(hi, m[hi])]);
    }
  }

  /** The listing of one present key. */
  lemma SortedItemsOne(m: map<int, string>, k: int)
    requires k in m
    ensures KeysOf(SortedItems(m, k, k)) == [k]
  {
    assert SortedItems(m, k, k - 1) == [];
  }

  lemma KeysOfAppend(a: seq<(int, string)>, b: seq<(int, string)>)
    ensures KeysOf(a + b) == KeysOf(a) + KeysOf(b)
  {
  }

  /** Every key of keyboard_dict lies between min(1, current) and max(total, current). */
  lemma NavMapKeys(c: int, t: int, k: int)
    ensures k in NavMap(c, t) ==> Min(1, c) <= k <= Max(t, c)
    ensures t > 1 ==> c in NavMap(c, t) && NavMap(c, t)[c] == CurrentLabel(c)
    ensures t <= 1 ==> NavMap(c, t) == map[]
  {
    if t > 1 {
      var f := NavFrame(c, t);
      WithPagesAt(f.0, f.1, f.2, k);
    }
  }

  /** Which pages keyboard_dict holds, case by case. */
  lemma NavMapHas(c: int, t: int, k: int)
    ensures 1 < t <= 5 ==> (k in NavMap(c, t) <==> k == c || 1 <= k <= t)
    ensures 5 < t && c <= 3 ==> (k in NavMap(c, t) <==> k == c || 1 <= k <= 4 || k == t)
    ensures 5 < t && 3 < c && t - 3 < c ==> (k in NavMap(c, t) <==> k == c || k == 1 || t - 3 <= k <= t)
    ensures 5 < t && 3 < c <= t - 3 ==> (k in NavMap(c, t) <==> k == 1 || c - 1 <= k <= c + 1 || k == t)
  {
    if t > 1 {
      var f := NavFrame(c, t);
      WithPagesAt(f.0, f.1, f.2, k);
    }
  }

  /** The keys listed by the navigation, for a current page within 1..total. */
  function NavKeys(c: int, t: int): seq<int> {
    KeysOf(SortedItems(NavMap(c, t), Min(1, c), Max(t, c)))
  }

  lemma NavWindowSmall(c: int, t: int)
    requires 1 <= c <= t <= 5
    ensures t == 1 ==> NavKeys(c, t) == []
    ensures 1 < t ==> NavKeys(c, t) == seq(t, i requires 0 <= i < t => i + 1)
  {
    var m := NavMap(c, t);
    assert Min(1, c) == 1 && Max(t, c) == t;
    if t == 1 {
      SortedItemsGap(m, 1, 1);
    } else {
      forall k | 1 <= k <= t ensures k in m {
        NavMapHas(c, t, k);
      }
      SortedItemsFull(m, 1, t);
    }
  }

  /** Four consecutive keys, listed. */
  lemma SortedItemsRun(m: map<int, string>, lo: int, hi: int)
    requires lo <= hi <= lo + 3 && forall k :: lo <= k <= hi ==> k in m
    ensures KeysOf(SortedItems(m, lo, hi)) == seq(hi - lo + 1, i requires 0 <= i <= hi - lo => lo + i)
  {
    SortedItemsFull(m, lo, hi);
  }

  /** Keys a..b (a run), then a gap up to hi - 1, then hi. */
  lemma RunGapLast(m: map<int, string>, a: int, b: int, hi: int)
    requires a <= b < hi && hi in m && forall k :: b < k < hi ==> k !in m
    ensures KeysOf(SortedItems(m, a, hi)) == KeysOf(SortedItems(m, a, b)) + [hi]
  {
    SortedItemsSplit(m, a, b, hi);
    SortedItemsSplit(m, b + 1, hi - 1, hi);
    SortedItemsGap(m, b + 1, hi - 1);
    SortedItemsOne(m, hi);
    KeysOfAppend(SortedItems(m, a, b), SortedItems(m, hi, hi));
  }

  /** Key a, then a gap up to b - 1, then keys b..hi. */
  lemma FirstGapRest(m: map<int, string>, a: int, b: int, hi: int)
    requires a < b <= hi && a in m && forall k :: a < k < b ==> k !in m
    ensures KeysOf(SortedItems(m, a, hi)) == [a] + KeysOf(SortedItems(m, b, hi))
  {
    var first := SortedItems(m, a, a);
    var rest := SortedItems(m, b, hi);
    SortedItemsSplit(m, a + 1, b - 1, hi);
    SortedItemsGap(m, a + 1, b - 1);
    assert SortedItems(m, a + 1, hi) == rest;
    SortedItemsSplit(m, a, a, hi);
    assert SortedItems(m, a, hi) == first + rest;
    SortedItemsOne(m, a);
    KeysOfAppend(first, rest);
  }

  lemma NavWindowLow(c: int, t: int)
    requires 1 <= c <= 3 && 5 < t
    ensures NavKeys(c, t) == [1, 2, 3, 4, t]
  {
    var m := NavMap(c, t);
    assert Min(1, c) == 1 && Max(t, c) == t;
    forall k | 1 <= k <= t ensures k in m <==> k <= 4 || k == t {
      NavMapHas(c, t, k);
    }
    RunGapLast(m, 1, 4, t);
    SortedItemsRun(m, 1, 4);
  }

  lemma NavWindowHigh(c: int, t: int)
    requires 5 < t && t - 3 < c <= t
    ensures NavKeys(c, t) == [1, t - 3, t - 2, t - 1, t]
  {
    var m := NavMap(c, t);
    assert Min(1, c) == 1 && Max(t, c) == t;
    NavMapHigh(c, t);
    FirstGapRest(m, 1, t - 3, t);
    SortedItemsRun(m, t - 3, t);
    var run := KeysOf(SortedItems(m, t - 3, t));
    assert run == [t - 3, t - 2, t - 1, t] by {
      assert |run| == 4 && run[0] == t - 3 && run[1] == t - 2 && run[2] == t - 1 && run[3] == t;
    }
  }

  /** The pages a navigation row near the end keeps: the first page and the last four. */
  lemma NavMapHigh(c: int, t: int)
    requires 5 < t && t - 3 < c <= t
    ensures 1 in NavMap(c, t)
    ensures forall k :: 1 < k < t - 3 ==> k !in NavMap(c, t)
    ensures forall k :: t - 3 <= k <= t ==> k in NavMap(c, t)
  {
    forall k | 1 <= k <= t ensures k in NavMap(c, t) <==> k == 1 || t - 3 <= k {
      NavMapHas(c, t, k);
    }
  }

  lemma NavWindowMiddle(c: int, t: int)
    requires 5 < t && 3 < c <= t - 3
    ensures NavKeys(c, t) == [1, c - 1, c, c + 1, t]
  {
    var m := NavMap(c, t);
    assert Min(1, c) == 1 && Max(t, c) == t;
    forall k | 1 <= k <= t ensures k in m <==> k == 1 || c - 1 <= k <= c + 1 || k == t {
      NavMapHas(c, t, k);
    }
    FirstGapRest(m, 1, c - 1, t);
    RunGapLast(m, c - 1, c + 1, t);
    SortedItemsRun(m, c - 1, c + 1);
  }

  /**
   * The page window of the navigation row for 1 <= current <= total: no
   * buttons for a single page, every page up to five pages, and otherwise
   * exactly five buttons: the first three pages with "next" and "last", the
   * "first" and "previous" buttons with the last three pages, or "first",
   * the current page between its neighbours, and "last".
   */
  lemma NavWindow(c: int, t: int)
    requires 1 <= c <= t
    ensures t == 1 ==> NavKeys(c, t) == []
    ensures 1 < t <= 5 ==> NavKeys(c, t) == seq(t, i requires 0 <= i < t => i + 1)
    ensures 5 < t && c <= 3 ==> NavKeys(c, t) == [1, 2, 3, 4, t]
    ensures 5 < t && t - 3 < c ==> NavKeys(c, t) == [1, t - 3, t - 2, t - 1, t]
    ensures 5 < t && 3 < c <= t - 3 ==> NavKeys(c, t) == [1, c - 1, c, c + 1, t]
  {
    if t <= 5 {
      NavWindowSmall(c, t);
    } else if c <= 3 {
      NavWindowLow(c, t);
    } else if t - 3 < c {
      NavWindowHigh(c, t);
    } else {
      NavWindowMiddle(c, t);
    }
  }

  /**
   * Every navigation button carries "page:n" for its page n and the label
   * keyboard_dict holds for n; the buttons run in ascending page order, the
   * current page is among them labelled "· n ·" whenever there is more than
   * one page, and a window beyond five pages always shows the first and the
   * last page.
   */
  lemma NavButtonsShape(c: int, t: int)
    ensures var items := SortedItems(NavMap(c, t), Min(1, c), Max(t, c));
      |NavButtons(c, t)| == |items| && Ascending(items)
      && (forall i :: 0 <= i < |items| ==>
            items[i].0 in NavMap(c, t) && NavButtons(c, t)[i] == CallbackButton(NavMap(c, t)[items[i].0], PageData(items[i].0)))
    ensures t > 1 ==> exists i :: 0 <= i < |NavButtons(c, t)| && NavButtons(c, t)[i] == CallbackButton(CurrentLabel(c), PageData(c))
    ensures 1 <= c <= t && 5 < t ==>
      (|NavButtons(c, t)| == 5
       && NavButtons(c, t)[0].callbackData == Some(PageData(1)) && NavButtons(c, t)[4].callbackData == Some(PageData(t)))
  {
    SortedItemsSpec(NavMap(c, t), Min(1, c), Max(t, c));
    if t > 1 {
      NavShowsCurrent(c, t);
    }
    if 1 <= c <= t && 5 < t {
      NavWindowEnds(c, t);
    }
  }

  lemma NavShowsCurrent(c: int, t: int)
    requires t > 1
    ensures exists i :: 0 <= i < |NavButtons(c, t)| && NavButtons(c, t)[i] == CallbackButton(CurrentLabel(c), PageData(c))
  {
    var m := NavMap(c, t);
    var items := SortedItems(m, Min(1, c), Max(t, c));
    SortedItemsSpec(m, Min(1, c), Max(t, c));
    NavMapKeys(c, t, c);
    var i :| 0 <= i < |items| && KeysOf(items)[i] == c;
    assert NavButtons(c, t)[i] == CallbackButton(CurrentLabel(c), PageData(c));
  }

  lemma NavWindowEnds(c: int, t: int)
    requires 1 <= c <= t && 5 < t
    ensures |NavButtons(c, t)| == 5
    ensures NavButtons(c, t)[0].callbackData == Some(PageData(1)) && NavButtons(c, t)[4].callbackData == Some(PageData(t))
  {
    var m := NavMap(c, t);
    var items := SortedItems(m, Min(1, c), Max(t, c));
    SortedItemsSpec(m, Min(1, c), Max(t, c));
    NavWindow(c, t);
    assert KeysOf(items)[0] == 1 && KeysOf(items)[4] == t;
  }

  // ---------------------------------------------------------------------
  // as_markup
  // ---------------------------------------------------------------------

  /** InlineKeyboardBuilder.adjust(w): the buttons cut into rows of w, the last row possibly shorter. */
  function Rows(buttons: seq<Button>, w: nat): Markup
    requires w > 0
    decreases |buttons|
  {
    if |buttons| <= w then (if buttons == [] then [] else [buttons])
    else [buttons[..w]] + Rows(buttons[w..], w)
  }

  /** All buttons of a keyboard, row after row. */
  function Flatten(kb: Markup): seq<Button> {
    if kb == [] then [] else kb[0] + Flatten(kb[1..])
  }

  lemma {:induction false} FlattenAppend(a: Markup, b: Markup)
    ensures Flatten(a + b) == Flatten(a) + Flatten(b)
  {
    if a == [] {
      assert a + b == b;
    } else {
      assert (a + b)[0] == a[0];
      assert (a + b)[1..] == a[1..] + b;
      FlattenAppend(a[1..], b);
    }
  }

  /** adjust(w) keeps the buttons and their order and makes no row empty or wider than w. */
  lemma {:induction false} RowsSpec(buttons: seq<Button>, w: nat)
    requires w > 0
    ensures Flatten(Rows(buttons, w)) == buttons
    ensures forall i :: 0 <= i < |Rows(buttons, w)| ==> 0 < |Rows(buttons, w)[i]| <= w
    decreases |buttons|
  {
    if |buttons| > w {
      RowsSpec(buttons[w..], w);
      assert buttons == buttons[..w] + buttons[w..];
    }
  }

  /** An item of the list: (display_text, callback_data). */
  function ItemButtons(items: seq<(string, string)>): seq<Button> {
    seq(|items|, i requires 0 <= i < |items| => CallbackButton(items[i].0, items[i].1))
  }

  /** as_markup: the "before" rows, the item rows, the navigation rows, the "after" rows. */
  function AsMarkup(before: Option<Markup>, items: seq<(string, string)>, rowWidth: nat,
                    c: int, t: int, after: Option<Markup>): Markup
    requires rowWidth > 0
  {
    (if before.Some? then before.value else [])
    + Rows(ItemButtons(items), rowWidth)
    + Rows(NavButtons(c, t), 5)
    + (if after.Some? then after.value else [])
  }

  /**
   * The final keyboard holds exactly the "before" buttons, one button per
   * item in order, the navigation buttons and the "after" buttons, in that
   * order, and the item rows, placed right after the "before" rows, are
   * at most rowWidth wide.
   */
  lemma MarkupLayout(before: Option<Markup>, items: seq<(string, string)>, rowWidth: nat,
                     c: int, t: int, after: Option<Markup>)
    requires rowWidth > 0
    ensures Flatten(AsMarkup(before, items, rowWidth, c, t, after))
         == Flatten(if before.Some? then before.value else []) + ItemButtons(items)
            + NavButtons(c, t) + Flatten(if after.Some? then after.value else [])
    ensures var b := if before.Some? then before.value else [];
      var r := Rows(ItemButtons(items), rowWidth);
      (forall i :: 0 <= i < |r| ==> AsMarkup(before, items, rowWidth, c, t, after)[|b| + i] == r[i] && |r[i]| <= rowWidth)
  {
    var b := if before.Some? then before.value else [];
    var a := if after.Some? then after.value else [];
    var r := Rows(ItemButtons(items), rowWidth);
    var n := Rows(NavButtons(c, t), 5);
    RowsSpec(ItemButtons(items), rowWidth);
    RowsSpec(NavButtons(c, t), 5);
    FlattenAppend(b + r + n, a);
    FlattenAppend(b + r, n);
    FlattenAppend(b, r);
  }

  /** broadcasts_list: one button per item per row, page navigation, then Back and Add. */
  function BroadcastsList(k: Keyboards, items: seq<(string, string)>, c: int, t: int): Markup {
    AsMarkup(None, items, 1, c, t, Some(BackAdd(k)))
  }
}
