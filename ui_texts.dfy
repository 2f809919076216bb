/*
 * The broadcast UI's localized messages: two tables, English and Russian,
 * a language chosen at construction with English as the fallback, and a
 * lookup that falls back to English and then to "[key]" before filling in
 * the named fields.
 */
module UiTexts {
  import opened Common

  /** The sixteen message keys; both tables define every one of them. */
  datatype TextKey =
    | OutdatedText
    | BroadcastsList
    | BroadcastView
    | BroadcastDelete
    | SendMessage
    | SendButtons
    | SendButtonsError
    | MessagePreview
    | ChooseOptions
    | ConfirmationNow
    | SendDatetime
    | SendDatetimeError
    | ConfirmationLater
    | BroadcastStarted
    | BroadcastCompleted
    | NoScheduledBroadcasts

  function KeyName(k: TextKey): string {
    match k
    case OutdatedText => "outdated_text"
    case BroadcastsList => "broadcasts_list"
    case BroadcastView => "broadcast_view"
    case BroadcastDelete => "broadcast_delete"
    case SendMessage => "send_message"
    case SendButtons => "send_buttons"
    case SendButtonsError => "send_buttons_error"
    case MessagePreview => "message_preview"
    case ChooseOptions => "choose_options"
    case ConfirmationNow => "confirmation_now"
    case SendDatetime => "send_datetime"
    case SendDatetimeError => "send_datetime_error"
    case ConfirmationLater => "confirmation_later"
    case BroadcastStarted => "broadcast_started"
    case BroadcastCompleted => "broadcast_completed"
    case NoScheduledBroadcasts => "no_scheduled_broadcasts"
  }

  /** The key a name denotes, if any. */
  function KeyOf(name: string): Option<TextKey> {
    if name == "outdated_text" then Some(OutdatedText)
    else if name == "broadcasts_list" then Some(BroadcastsList)
    else if name == "broadcast_view" then Some(BroadcastView)
    else if name == "broadcast_delete" then Some(BroadcastDelete)
    else if name == "send_message" then Some(SendMessage)
    else if name == "send_buttons" then Some(SendButtons)
    else if name == "send_buttons_error" then Some(SendButtonsError)
    else if name == "message_preview" then Some(MessagePreview)
    else if name == "choose_options" then Some(ChooseOptions)
    else if name == "confirmation_now" then Some(ConfirmationNow)
    else if name == "send_datetime" then Some(SendDatetime)
    else if name == "send_datetime_error" then Some(SendDatetimeError)
    else if name == "confirmation_later" then Some(ConfirmationLater)
    else if name == "broadcast_started" then Some(BroadcastStarted)
    else if name == "broadcast_completed" then Some(BroadcastCompleted)
    else if name == "no_scheduled_broadcasts" then Some(NoScheduledBroadcasts)
    else None
  }

  /** The "en" table. */
  function English(k: TextKey): string {
    match k
    case OutdatedText => "This message is outdated..."
    case BroadcastsList => "<b>Broadcast Menu</b>\n\n<b>Add</b> - create a new broadcast\n\nTotal subscribers: <b>{total}</b>\n\nScheduled broadcasts:"
    case BroadcastView => "The message above is an example of a scheduled broadcast.\n\n<b>Delete</b> - cancel this scheduled broadcast\n\nChoose an action:"
    case BroadcastDelete => "Are you sure you want to delete this scheduled broadcast?"
    case SendMessage => "<b>Send your broadcast message</b>\n\nYou can send:\n- Text message\n- Photo with caption\n- Video with caption\n- Document with caption\n- Or forward any message"
    case SendButtons => "<b>Add inline buttons</b>\n\nSend button text and link(s) in the format:\n<code>Button text | link</code>\n\nExample:\n<code>Visit Website | https://example.com</code>\n\nMultiple buttons in a row (comma-separated):\n<code>First | https://url1.com, Second | https://url2.com</code>\n\nMultiple rows (new lines):\n<code>Row 1 Button | https://url1.com\nRow 2 Button | https://url2.com</code>\n\nPress <b>Skip</b> to send without buttons."
    case SendButtonsError => "<b>Error parsing buttons</b>\n\nPlease check the format:\n<code>Button text | link</code>\n\nMake sure all links are valid URLs."
    case MessagePreview => "The message above is how your broadcast will look.\n\n<b>Next</b> - continue to send options\n\nChoose an action:"
    case ChooseOptions => "<b>When to send?</b>\n\n<b>Now</b> - send immediately\n<b>Later</b> - schedule for later"
    case ConfirmationNow => "<b>Confirm broadcast</b>\n\nAre you sure you want to send this broadcast to all subscribers now?"
    case SendDatetime => "<b>Schedule broadcast</b>\n\nSend the date and time in format:\n<code>YYYY-MM-DD HH:MM</code>\n\nExample:\n<code>{datetime_string}</code>"
    case SendDatetimeError => "<b>Invalid date format</b>\n\nPlease use format:\n<code>YYYY-MM-DD HH:MM</code>\n\nExample:\n<code>{datetime_string}</code>"
    case ConfirmationLater => "<b>Confirm scheduled broadcast</b>\n\nAre you sure you want to schedule this broadcast?"
    case BroadcastStarted => "Broadcast started. You will be notified when it completes."
    case BroadcastCompleted => "<b>Broadcast completed</b>\n\nTotal: <b>{total}</b>\nSuccessful: <b>{successful}</b>\nFailed: <b>{failed}</b>"
    case NoScheduledBroadcasts => "No scheduled broadcasts."
  }

  /** The "ru" table. */
  function Russian(k: TextKey): string {
    match k
    case OutdatedText => "Это сообщение устарело..."
    case BroadcastsList => "<b>Меню рассылки</b>\n\n<b>Добавить</b> - создать новую рассылку\n\nВсего подписчиков: <b>{total}</b>\n\nЗапланированные рассылки:"
    case BroadcastView => "Сообщение выше - пример запланированной рассылки.\n\n<b>Удалить</b> - отменить эту рассылку\n\nВыберите действие:"
    case BroadcastDelete => "Вы уверены, что хотите удалить эту запланированную рассылку?"
    case SendMessage => "<b>Отправьте сообщение для рассылки</b>\n\nВы можете отправить:\n- Текстовое сообщение\n- Фото с подписью\n- Видео с подписью\n- Документ с подписью\n- Или переслать любое сообщение"
    case SendButtons => "<b>Добавить инлайн кнопки</b>\n\nОтправьте текст кнопок и ссылки в формате:\n<code>Текст кнопки | ссылка</code>\n\nПример:\n<code>Перейти на сайт | https://example.com</code>\n\nНесколько кнопок в ряд (через запятую):\n<code>Первая | https://url1.com, Вторая | https://url2.com</code>\n\nНесколько рядов (новые строки):\n<code>Кнопка ряд 1 | https://url1.com\nКнопка ряд 2 | https://url2.com</code>\n\nНажмите <b>Пропустить</b> чтобы отправить без кнопок."
    case SendButtonsError => "<b>Ошибка парсинга кнопок</b>\n\nПроверьте формат:\n<code>Текст кнопки | ссылка</code>\n\nУбедитесь, что все ссылки корректные."
    case MessagePreview => "Сообщение выше - так будет выглядеть ваша рассылка.\n\n<b>Далее</b> - перейти к выбору времени\n\nВыберите действие:"
    case ChooseOptions => "<b>Когда отправить?</b>\n\n<b>Сейчас</b> - отправить немедленно\n<b>Позже</b> - запланировать на потом"
    case ConfirmationNow => "<b>Подтверждение рассылки</b>\n\nВы уверены, что хотите отправить рассылку всем подписчикам сейчас?"
    case SendDatetime => "<b>Запланировать рассылку</b>\n\nОтправьте дату и время в формате:\n<code>YYYY-MM-DD HH:MM</code>\n\nПример:\n<code>{datetime_string}</code>"
    case SendDatetimeError => "<b>Неверный формат даты</b>\n\nИспользуйте формат:\n<code>YYYY-MM-DD HH:MM</code>\n\nПример:\n<code>{datetime_string}</code>"
    case ConfirmationLater => "<b>Подтверждение отложенной рассылки</b>\n\nВы уверены, что хотите запланировать эту рассылку?"
    case BroadcastStarted => "Рассылка запущена. Вы получите уведомление о завершении."
    case BroadcastCompleted => "<b>Рассылка завершена</b>\n\nВсего: <b>{total}</b>\nУспешно: <b>{successful}</b>\nОшибок: <b>{failed}</b>"
    case NoScheduledBroadcasts => "Нет запланированных рассылок."
  }
  const Languages: set<string> := {"en", "ru"}

  /** text_messages[lang][key] for a supported language. */
  function TableText(lang: string, k: TextKey): string
    requires lang in Languages
  {
    if lang == "en" then English(k) else Russian(k)
  }

  /** A BroadcastUITexts instance: only its language matters. */
  datatype Texts = Texts(languageCode: string)

  /** __init__: a supported, non-empty code is kept; anything else gives "en". */
  function NewTexts(code: Option<string>): (t: Texts)
    ensures t.languageCode in Languages
    ensures code.Some? && code.value in Languages ==> t.languageCode == code.value
    ensures code.None? || code.value !in Languages ==> t.languageCode == "en"
  {
    if code.Some? && code.value != "" && code.value in Languages then Texts(code.value) else Texts("en")
  }

  /** The text before formatting: the language's entry, else the English one, else "[key]". */
  function Lookup(t: Texts, key: string): string {
    var k := KeyOf(key);
    var text := if k.Some? && t.languageCode in Languages then TableText(t.languageCode, k.value) else "";
    if text != "" then text
    else if k.Some? then English(k.value)
    else "[" + key + "]"
  }

  /**
   * get(key, **kwargs): formatting only when keyword arguments are given;
   * a KeyError keeps the unformatted text, any other formatting error
   * propagates (None).
   */
  function Get(t: Texts, key: string, kwargs: map<string, string>): (r: Option<string>)
    ensures kwargs == map[] ==> r == Some(Lookup(t, key))
    ensures kwargs != map[] && Format(Lookup(t, key), kwargs).Formatted? ==> r == Some(Format(Lookup(t, key), kwargs).text)
    ensures kwargs != map[] && Format(Lookup(t, key), kwargs).MissingKey? ==> r == Some(Lookup(t, key))
    ensures r.None? <==> kwargs != map[] && Format(Lookup(t, key), kwargs).Malformed?
  {
    var text := Lookup(t, key);
    if kwargs == map[] then Some(text)
    else
      match Format(text, kwargs)
      case Formatted(s) => Some(s)
      case MissingKey(_) => Some(text)
      case Malformed => None
  }

  /** Every key reads back from its name, so no two keys share a name. */
  lemma KeyNamesRead(k: TextKey)
    ensures KeyOf(KeyName(k)) == Some(k)
  {
  }

  /**
   * The lookup chain: a known key with a non-empty text in a supported
   * language reads from that language's table, with an empty one from the
   * English table; an unknown name reads as "[name]" in every language.
   */
  lemma LookupFallback(t: Texts, key: string)
    requires t.languageCode in Languages
    ensures KeyOf(key).Some? && TableText(t.languageCode, KeyOf(key).value) != ""
            ==> Lookup(t, key) == TableText(t.languageCode, KeyOf(key).value)
    ensures KeyOf(key).Some? && TableText(t.languageCode, KeyOf(key).value) == ""
            ==> Lookup(t, key) == English(KeyOf(key).value)
    ensures KeyOf(key).None? ==> Lookup(t, key) == "[" + key + "]"
  {
  }

  /** An unsupported language reads the English table. */
  lemma LookupUnsupported(t: Texts, k: TextKey)
    requires t.languageCode !in Languages
    ensures Lookup(t, KeyName(k)) == English(k)
  {
    KeyNamesRead(k);
  }

  /** A text without replacement fields comes back as it is, whatever the keyword arguments. */
  lemma GetPlain(t: Texts, key: string, kwargs: map<string, string>)
    requires forall i :: 0 <= i < |Lookup(t, key)| ==> Lookup(t, key)[i] != '{' && Lookup(t, key)[i] != '}'
    ensures Get(t, key, kwargs) == Some(Lookup(t, key))
  {
  }
}
