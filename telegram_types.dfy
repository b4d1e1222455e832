/**
 * The Telegram Bot API objects the webhook accepts (`Update`, `Message`,
 * `Chat`, `User`, `Location`): the structural type guards the worker applies
 * to the decoded request body, and the typed records a value passing them
 * denotes.
 */
module TelegramTypes {
  import opened Wrappers
  import opened JsonModel

  // ---------------------------------------------------------------------------
  // Type guards over decoded JSON (None stands for `undefined`)

  predicate IsValidTelegramLocation(location: Option<Json>) {
    && IsObjectLike(location)
    && TypeofNumber(Get(location, "latitude"))
    && TypeofNumber(Get(location, "longitude"))
    && OptionalNumber(Get(location, "horizontal_accuracy"))
    && OptionalNumber(Get(location, "live_period"))
    && OptionalNumber(Get(location, "heading"))
  }

  predicate IsValidTelegramUser(user: Option<Json>) {
    && IsObjectLike(user)
    && TypeofNumber(Get(user, "id"))
    && TypeofBoolean(Get(user, "is_bot"))
    && TypeofString(Get(user, "first_name"))
    && OptionalString(Get(user, "last_name"))
    && OptionalString(Get(user, "username"))
  }

  predicate IsValidTelegramChat(chat: Option<Json>) {
    && IsObjectLike(chat)
    && TypeofNumber(Get(chat, "id"))
    && Get(chat, "type") in {Some(JString("private")), Some(JString("group")), Some(JString("supergroup")), Some(JString("channel"))}
  }

  predicate IsValidTelegramMessage(message: Option<Json>) {
    && IsObjectLike(message)
    && TypeofNumber(Get(message, "message_id"))
    && TypeofNumber(Get(message, "date"))
    && IsValidTelegramChat(Get(message, "chat"))
    && (Get(message, "from").None? || IsValidTelegramUser(Get(message, "from")))
    && OptionalString(Get(message, "text"))
    && (Get(message, "location").None? || IsValidTelegramLocation(Get(message, "location")))
  }

  predicate IsValidTelegramUpdate(update: Option<Json>) {
    && IsObjectLike(update)
    && TypeofNumber(Get(update, "update_id"))
    && (IsValidTelegramMessage(Get(update, "message")) || IsValidTelegramMessage(Get(update, "edited_message")))
  }

  // ---------------------------------------------------------------------------
  // The typed records

  datatype User = User(id: real, isBot: bool, firstName: string, lastName: Option<string>, username: Option<string>)

  datatype ChatType = Private | Group | Supergroup | Channel

  datatype Chat = Chat(id: real, chatType: ChatType)

  datatype Location = Location(
    longitude: real,
    latitude: real,
    horizontalAccuracy: Option<real>,
    livePeriod: Option<real>,
    heading: Option<real>)

  datatype Message = Message(
    messageId: real,
    from: Option<User>,
    chat: Chat,
    date: real,
    text: Option<string>,
    location: Option<Location>)

  // ---------------------------------------------------------------------------
  // Decoding a JSON object field by field, independently of the guards

  function NumberAt(f: map<string, Json>, key: string): Option<real> {
    if key in f && f[key].JNumber? then Some(f[key].n) else None
  }

  function StringAt(f: map<string, Json>, key: string): Option<string> {
    if key in f && f[key].JString? then Some(f[key].s) else None
  }

  /** Some(None) when the field is absent, Some(Some(x)) when it is a number, None otherwise. */
  function OptionalNumberAt(f: map<string, Json>, key: string): Option<Option<real>> {
    if key !in f then Some(None) else if f[key].JNumber? then Some(Some(f[key].n)) else None
  }

  function OptionalStringAt(f: map<string, Json>, key: string): Option<Option<string>> {
    if key !in f then Some(None) else if f[key].JString? then Some(Some(f[key].s)) else None
  }

  function DecodeLocation(v: Option<Json>): Option<Location> {
    match v
    case Some(JObject(f)) =>
      var lat, lon := NumberAt(f, "latitude"), NumberAt(f, "longitude");
      var acc, live, head := OptionalNumberAt(f, "horizontal_accuracy"), OptionalNumberAt(f, "live_period"), OptionalNumberAt(f, "heading");
      if lat.Some? && lon.Some? && acc.Some? && live.Some? && head.Some?
      then Some(Location(lon.value, lat.value, acc.value, live.value, head.value))
      else None
    case _ => None
  }

  function DecodeUser(v: Option<Json>): Option<User> {
    match v
    case Some(JObject(f)) =>
      var id, first := NumberAt(f, "id"), StringAt(f, "first_name");
      var last, name := OptionalStringAt(f, "last_name"), OptionalStringAt(f, "username");
      if id.Some? && "is_bot" in f && f["is_bot"].JBool? && first.Some? && last.Some? && name.Some?
      then Some(User(id.value, f["is_bot"].b, first.value, last.value, name.value))
      else None
    case _ => None
  }

  function DecodeChatType(v: Json): Option<ChatType> {
    match v
    case JString("private") => Some(Private)
    case JString("group") => Some(Group)
    case JString("supergroup") => Some(Supergroup)
    case JString("channel") => Some(Channel)
    case _ => None
  }

  function DecodeChat(v: Option<Json>): Option<Chat> {
    match v
    case Some(JObject(f)) =>
      var id := NumberAt(f, "id");
      var kind := if "type" in f then DecodeChatType(f["type"]) else None;
      if id.Some? && kind.Some? then Some(Chat(id.value, kind.value)) else None
    case _ => None
  }

  function DecodeMessage(v: Option<Json>): Option<Message> {
    match v
    case Some(JObject(f)) =>
      var id, date := NumberAt(f, "message_id"), NumberAt(f, "date");
      var chat := DecodeChat(if "chat" in f then Some(f["chat"]) else None);
      var from := if "from" !in f then Some(None) else (var u := DecodeUser(Some(f["from"])); if u.Some? then Some(u) else None);
      var text := OptionalStringAt(f, "text");
      var loc := if "location" !in f then Some(None) else (var l := DecodeLocation(Some(f["location"])); if l.Some? then Some(l) else None);
      if id.Some? && date.Some? && chat.Some? && from.Some? && text.Some? && loc.Some?
      then Some(Message(id.value, from.value, chat.value, date.value, text.value, loc.value))
      else None
    case _ => None
  }

  // ---------------------------------------------------------------------------
  // Encoding a typed record as the JSON Telegram sends

  /** Adds `key` to the object when the optional field is present. */
  function WithNumber(f: map<string, Json>, key: string, x: Option<real>): map<string, Json> {
    if x.Some? then f[key := JNumber(x.value)] else f
  }

  function WithString(f: map<string, Json>, key: string, x: Option<string>): map<string, Json> {
    if x.Some? then f[key := JString(x.value)] else f
  }

  function EncodeLocation(l: Location): Json {
    var f := map["latitude" := JNumber(l.latitude), "longitude" := JNumber(l.longitude)];
    JObject(WithNumber(WithNumber(WithNumber(f, "horizontal_accuracy", l.horizontalAccuracy), "live_period", l.livePeriod), "heading", l.heading))
  }

  function EncodeUser(u: User): Json {
    var f := map["id" := JNumber(u.id), "is_bot" := JBool(u.isBot), "first_name" := JString(u.firstName)];
    JObject(WithString(WithString(f, "last_name", u.lastName), "username", u.username))
  }

  function ChatTypeName(t: ChatType): string {
    match t
    case Private => "private"
    case Group => "group"
    case Supergroup => "supergroup"
    case Channel => "channel"
  }

  function EncodeChat(c: Chat): Json {
    JObject(map["id" := JNumber(c.id), "type" := JString(ChatTypeName(c.chatType))])
  }

  function EncodeMessage(m: Message): Json {
    var f := map["message_id" := JNumber(m.messageId), "date" := JNumber(m.date), "chat" := EncodeChat(m.chat)];
    var withFrom := if m.from.Some? then f["from" := EncodeUser(m.from.value)] else f;
    var withText := WithString(withFrom, "text", m.text);
    JObject(if m.location.Some? then withText["location" := EncodeLocation(m.location.value)] else withText)
  }

  // ---------------------------------------------------------------------------
  // Properties

  /** Null and non-object inputs (numbers, strings, booleans, undefined) are rejected by every guard. */
  lemma NonObjectsRejected(v: Option<Json>)
    requires v.None? || !(v.value.JObject? || v.value.JArray?)
    ensures !IsValidTelegramLocation(v) && !IsValidTelegramUser(v) && !IsValidTelegramChat(v)
    ensures !IsValidTelegramMessage(v) && !IsValidTelegramUpdate(v)
  {
  }

  /** The location guard accepts exactly the values the field-by-field decoder accepts. */
  lemma LocationGuardDecodes(v: Option<Json>)
    ensures IsValidTelegramLocation(v) <==> DecodeLocation(v).Some?
  {
  }

  lemma UserGuardDecodes(v: Option<Json>)
    ensures IsValidTelegramUser(v) <==> DecodeUser(v).Some?
  {
  }

  lemma ChatGuardDecodes(v: Option<Json>)
    ensures IsValidTelegramChat(v) <==> DecodeChat(v).Some?
  {
    if v.Some? && v.value.JObject? && "type" in v.value.fields {
      var t := v.value.fields["type"];
      assert DecodeChatType(t).Some? <==> t in {JString("private"), JString("group"), JString("supergroup"), JString("channel")};
    }
  }

  /**
   * The message guard accepts exactly the values that decode to a typed
   * message; so a valid message never carries an invalid sender or location,
   * and the handlers may work on the typed record.
   */
  lemma MessageGuardDecodes(v: Option<Json>)
    ensures IsValidTelegramMessage(v) <==> DecodeMessage(v).Some?
    ensures IsValidTelegramMessage(v) && Get(v, "location").Some? ==>
      IsValidTelegramLocation(Get(v, "location")) && DecodeMessage(v).value.location == DecodeLocation(Get(v, "location"))
    ensures IsValidTelegramMessage(v) && Get(v, "from").Some? ==>
      IsValidTelegramUser(Get(v, "from")) && DecodeMessage(v).value.from == DecodeUser(Get(v, "from"))
  {
    if v.Some? && v.value.JObject? {
      var f := v.value.fields;
      ChatGuardDecodes(if "chat" in f then Some(f["chat"]) else None);
      if "from" in f {
        UserGuardDecodes(Some(f["from"]));
      }
      if "location" in f {
        LocationGuardDecodes(Some(f["location"]));
      }
    }
  }

  /** An update is valid iff its id is a number and one of its two message fields decodes. */
  lemma UpdateGuardDecodes(v: Option<Json>)
    ensures IsValidTelegramUpdate(v) <==>
      IsObjectLike(v) && TypeofNumber(Get(v, "update_id"))
      && (DecodeMessage(Get(v, "message")).Some? || DecodeMessage(Get(v, "edited_message")).Some?)
  {
    MessageGuardDecodes(Get(v, "message"));
    MessageGuardDecodes(Get(v, "edited_message"));
  }

  lemma LocationRoundTrip(l: Location)
    ensures DecodeLocation(Some(EncodeLocation(l))) == Some(l)
  {
  }

  lemma UserRoundTrip(u: User)
    ensures DecodeUser(Some(EncodeUser(u))) == Some(u)
  {
  }

  lemma ChatRoundTrip(c: Chat)
    ensures DecodeChat(Some(EncodeChat(c))) == Some(c)
  {
    match c.chatType
    case Private =>
    case Group =>
    case Supergroup =>
    case Channel =>
  }

  /** The fields of an encoded message, one by one. */
  lemma EncodedMessageFields(m: Message)
    ensures var f := EncodeMessage(m).fields;
      && NumberAt(f, "message_id") == Some(m.messageId)
      && NumberAt(f, "date") == Some(m.date)
      && "chat" in f && f["chat"] == EncodeChat(m.chat)
      && OptionalStringAt(f, "text") == Some(m.text)
      && ("from" in f <==> m.from.Some?) && (m.from.Some? ==> f["from"] == EncodeUser(m.from.value))
      && ("location" in f <==> m.location.Some?) && (m.location.Some? ==> f["location"] == EncodeLocation(m.location.value))
  {
    var f := EncodeMessage(m).fields;
    assert NumberAt(f, "message_id") == Some(m.messageId);
    assert NumberAt(f, "date") == Some(m.date);
    assert OptionalStringAt(f, "text") == Some(m.text);
  }

  /** Decoding inverts encoding, so every typed message encodes to JSON the guard accepts. */
  lemma MessageRoundTrip(m: Message)
    ensures DecodeMessage(Some(EncodeMessage(m))) == Some(m)
    ensures IsValidTelegramMessage(Some(EncodeMessage(m)))
  {
    EncodedMessageFields(m);
    ChatRoundTrip(m.chat);
    if m.from.Some? {
      UserRoundTrip(m.from.value);
    }
    if m.location.Some? {
      LocationRoundTrip(m.location.value);
    }
    MessageGuardDecodes(Some(EncodeMessage(m)));
  }
}
