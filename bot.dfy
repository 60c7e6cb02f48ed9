/**
 * The Telegram handlers of the bot that touch the recipients table: `/start`, the
 * keyword dialogue, the settings keyboard and its `toggle_{service}:{on|off}` callbacks,
 * and the two admin checks. Replies, keyboards' layout beyond their callback data, and
 * the dialogue state machine are not modelled. A handler that raises is reported as
 * `ok == false`; the dispatcher logs it and carries on.
 */
module Bot {
  import opened Wrappers
  import opened Text
  import opened Db
  import opened Notifications

  // ---------------------------------------------------------------- keywords

  /** A stored keyword: non-empty, with no whitespace at either end and no comma. */
  predicate Clean(w: string) {
    w != "" && Stripped(w) && ',' !in w
  }

  /** `kw.strip()`, kept only when it is non-empty. */
  function Item(part: string): (r: Option<string>)
    ensures r.Some? <==> !AllSpace(part)
    ensures r.Some? ==> r.value == Strip(part)
  {
    var kw := Strip(part);
    if kw != "" then Some(kw) else None
  }

  /** `[kw.strip() for kw in raw.strip().split(",") if kw.strip()]`. */
  function Items(raw: string): seq<string> {
    FilterMap(Item, Split(Strip(raw), ','))
  }

  /** What `save_keywords` stores for the text `raw`: the items joined with `", "`, or `None` when there is no item. */
  function NormalizeKeywords(raw: string): Option<string> {
    var items := Items(raw);
    if items == [] then None else Some(Join(items, ", "))
  }

  /** The item of a part without a comma is clean. */
  lemma ItemClean(part: string)
    requires ',' !in part
    ensures Item(part).Some? ==> Clean(Item(part).value)
  {
    StripKeepsOut(part, ',');
  }

  /** Every item is clean. */
  lemma ItemsClean(raw: string)
    ensures forall k :: 0 <= k < |Items(raw)| ==> Clean(Items(raw)[k])
  {
    var parts := Split(Strip(raw), ',');
    forall k | 0 <= k < |Items(raw)|
      ensures Clean(Items(raw)[k])
    {
      var w := Items(raw)[k];
      FilterMapMembers(Item, parts, w);
      var j :| 0 <= j < |parts| && Item(parts[j]) == Some(w);
      assert parts[j] in parts;
      ItemClean(parts[j]);
    }
  }

  /** No part yields an item exactly when every part is blank. */
  lemma NoItems(parts: seq<string>)
    ensures FilterMap(Item, parts) == [] <==> forall j :: 0 <= j < |parts| ==> AllSpace(parts[j])
  {
    FilterMapEmpty(Item, AllSpace, parts);
  }

  /** Input is rejected exactly when every comma-separated part of it is blank. */
  lemma NormalizeRejects(raw: string)
    ensures var parts := Split(Strip(raw), ',');
      NormalizeKeywords(raw).None? <==> forall j :: 0 <= j < |parts| ==> AllSpace(parts[j])
  {
    assert NormalizeKeywords(raw).None? <==> FilterMap(Item, Split(Strip(raw), ',')) == [];
    NoItems(Split(Strip(raw), ','));
  }

  /** `", ".join(items)` starts with the first item's first character and ends with the last item's last character. */
  lemma {:induction false} JoinEnds(items: seq<string>)
    requires items != []
    requires forall k :: 0 <= k < |items| ==> Clean(items[k])
    ensures items[0] != [] && items[|items| - 1] != []
    ensures var s := Join(items, ", "); var last := items[|items| - 1];
      s != [] && s[0] == items[0][0] && s[|s| - 1] == last[|last| - 1]
    decreases |items|
  {
    if |items| > 1 {
      var rest := items[1..];
      assert forall k :: 0 <= k < |rest| ==> rest[k] == items[k + 1];
      JoinEnds(rest);
    }
  }

  /** Splitting the stored string on `,` gives the first item and then each later item behind one blank. */
  lemma {:induction false} SplitJoin(items: seq<string>)
    requires items != []
    requires forall k :: 0 <= k < |items| ==> Clean(items[k])
    ensures var parts := Split(Join(items, ", "), ',');
      && |parts| == |items|
      && parts[0] == items[0]
      && forall k :: 1 <= k < |items| ==> parts[k] == " " + items[k]
    decreases |items|
  {
    if |items| == 1 {
      SplitNoSep(items[0], ',');
    } else {
      var rest := items[1..];
      assert forall k :: 0 <= k < |rest| ==> rest[k] == items[k + 1];
      SplitJoin(rest);
      var tail := Join(rest, ", ");
      var restParts := Split(tail, ',');
      assert Join(items, ", ") == items[0] + [','] + ([' '] + tail);
      SplitAtSep(items[0], [' '] + tail, ',');
      SplitCons(' ', tail, ',');
      var parts := Split(Join(items, ", "), ',');
      assert parts == [items[0]] + ([[' '] + restParts[0]] + restParts[1..]);
      forall k | 1 <= k < |items|
        ensures parts[k] == " " + items[k]
      {
        if k == 1 {
          assert parts[k] == [' '] + restParts[0];
        } else {
          assert parts[k] == restParts[k - 1];
        }
      }
    }
  }

  /** The stored string has no whitespace at either end. */
  lemma JoinStripped(items: seq<string>)
    requires items != []
    requires forall k :: 0 <= k < |items| ==> Clean(items[k])
    ensures Stripped(Join(items, ", "))
  {
    JoinEnds(items);
  }

  /** Normalising a stored string gives back the items it was joined from. */
  lemma ItemsOfJoin(items: seq<string>)
    requires items != []
    requires forall k :: 0 <= k < |items| ==> Clean(items[k])
    ensures Items(Join(items, ", ")) == items
  {
    var s := Join(items, ", ");
    JoinStripped(items);
    StripStripped(s);
    SplitJoin(items);
    var parts := Split(s, ',');
    forall k | 0 <= k < |parts|
      ensures Item(parts[k]) == Some(items[k])
    {
      if k == 0 {
        StripStripped(items[0]);
      } else {
        StripBlankPrefix(items[k]);
      }
    }
    FilterMapExactly(Item, parts, items);
  }

  /** Saving keywords that were already saved stores the same string again. */
  lemma NormalizeIdempotent(raw: string)
    requires NormalizeKeywords(raw).Some?
    ensures NormalizeKeywords(NormalizeKeywords(raw).value) == NormalizeKeywords(raw)
  {
    ItemsClean(raw);
    ItemsOfJoin(Items(raw));
  }

  /** `[w.lower() for w in items]`. */
  function Lowered(items: seq<string>): (ws: seq<string>)
    ensures |ws| == |items|
  {
    seq(|items|, k requires 0 <= k < |items| => Lower(items[k]))
  }

  /**
   * The keyword matcher, reading the stored string back (split on `,`, strip, drop the
   * empty ones, lower-case), sees exactly the saved items, lower-cased, in order.
   */
  lemma StoredKeywordsMatch(raw: string)
    requires NormalizeKeywords(raw).Some?
    ensures KeywordList(Split(NormalizeKeywords(raw).value, ',')) == Lowered(Items(raw))
  {
    var items := Items(raw);
    ItemsClean(raw);
    SplitJoin(items);
    var parts := Split(Join(items, ", "), ',');
    forall k | 0 <= k < |parts|
      ensures Keyword(parts[k]) == Some(Lower(items[k]))
    {
      if k == 0 {
        StripStripped(items[0]);
      } else {
        StripBlankPrefix(items[k]);
      }
    }
    FilterMapExactly(Keyword, parts, Lowered(items));
  }

  /** `current_keywords` in the keyword dialogue: the stored string, or a placeholder when there is none. */
  function CurrentKeywords(user: Option<Row>): (shown: string)
    ensures user.Some? && user.value.keywords.Some? && user.value.keywords.value != "" ==> shown == user.value.keywords.value
    ensures user.None? || user.value.keywords.None? || user.value.keywords.value == "" ==> shown == "Нет установленных ключевых слов"
  {
    if user.Some? && user.value.keywords.Some? && user.value.keywords.value != "" then user.value.keywords.value
    else "Нет установленных ключевых слов"
  }

  /** The patch `update_user(chat_id, keywords=s)`. */
  function KeywordsPatch(s: string): Patch {
    Patch(Some(s), None, None, None)
  }

  /** Once saved, the dialogue shows the saved string as the current keywords. */
  lemma SavedKeywordsShown(raw: string, r: Row)
    requires NormalizeKeywords(raw).Some?
    ensures CurrentKeywords(Some(Apply(r, KeywordsPatch(NormalizeKeywords(raw).value)))) == NormalizeKeywords(raw).value
  {
    ItemsClean(raw);
    JoinEnds(Items(raw));
  }

  /** The result of handling a text sent during the keyword dialogue. */
  datatype SaveOutcome = Rejected | Failed | Saved(keywords: string)

  /**
   * `save_keywords`: text with no item is rejected and nothing is stored; otherwise the
   * normalised string is written to the user's row, or the write fails without a
   * connection.
   */
  method SaveKeywords(db: Database, chatId: string, text: string) returns (outcome: SaveOutcome)
    requires db.Valid()
    modifies db
    ensures db.Valid()
    ensures db.connected == old(db.connected) && db.nextId == old(db.nextId)
    ensures NormalizeKeywords(text).None? ==> outcome == Rejected && db.rows == old(db.rows)
    ensures NormalizeKeywords(text).Some? && !old(db.connected) ==> outcome == Failed && db.rows == old(db.rows)
    ensures NormalizeKeywords(text).Some? && old(db.connected) ==>
      && outcome == Saved(NormalizeKeywords(text).value)
      && db.rows == UpdateRows(old(db.rows), chatId, KeywordsPatch(NormalizeKeywords(text).value))
  {
    var keywordsList := Items(text);
    if keywordsList == [] {
      return Rejected;
    }
    var validatedKeywords := Join(keywordsList, ", ");
    var ok, query, values := db.UpdateUser(chatId, KeywordsPatch(validatedKeywords));
    if !ok {
      return Failed;
    }
    return Saved(validatedKeywords);
  }

  // ---------------------------------------------------------------- settings and toggles

  /** The service part of a toggle callback: `kwork`, `fl` or `freelancer`. */
  function ServiceName(s: Service): string {
    match s
    case KworkService => "kwork"
    case FlService => "fl"
    case FreelancerService => "freelancer"
  }

  /** The service a toggle callback names; any other name is not a service. */
  function ServiceNamed(name: string): (r: Option<Service>)
    ensures r.Some? ==> ServiceName(r.value) == name
    ensures forall s :: ServiceName(s) == name ==> r == Some(s)
  {
    if name == "kwork" then Some(KworkService)
    else if name == "fl" then Some(FlService)
    else if name == "freelancer" then Some(FreelancerService)
    else None
  }

  /** The callback data of a settings button: it asks for the opposite of the current flag. */
  function ToggleCallback(s: Service, flag: bool): string {
    "toggle_" + ServiceName(s) + ":" + (if flag then "off" else "on")
  }

  /** A settings button: its caption and callback data. */
  datatype Button = Button(text: string, data: string)

  function Title(s: Service): string {
    match s
    case KworkService => "Kwork"
    case FlService => "FL"
    case FreelancerService => "Freelancer"
  }

  function ToggleButton(s: Service, flag: bool): Button {
    Button("🔔 " + Title(s) + ": " + (if flag then "Вкл" else "Выкл"), ToggleCallback(s, flag))
  }

  /** The settings keyboard for a row, row by row. */
  function SettingsKeyboard(r: Row): seq<seq<Button>> {
    [[ToggleButton(KworkService, r.mailingKwork), ToggleButton(FlService, r.mailingFl)],
     [ToggleButton(FreelancerService, r.mailingFreelancer)],
     [Button("✏️ Ключевые слова", "set_keywords")],
     [Button("❌ Закрыть настройки", "close_settings")]]
  }

  /** `cmd_settings`: the keyboard for the user's row, or nothing when there is no row (or no connection). */
  method CmdSettings(db: Database, chatId: string) returns (keyboard: Option<seq<seq<Button>>>)
    ensures db.connected && chatId in db.Users() ==> keyboard == Some(SettingsKeyboard(db.Users()[chatId]))
    ensures !db.connected || chatId !in db.Users() ==> keyboard == None
  {
    var user := db.GetUser(chatId);
    if user.None? {
      return None;
    }
    return Some(SettingsKeyboard(user.value));
  }

  /** A parsed callback: the service name with `toggle_` removed, and the action. */
  datatype Toggle = Toggle(service: string, action: string)

  /**
   * `service, action = data.split(":")` then `service.replace("toggle_", "")`; the
   * unpacking raises (`None`) unless there is exactly one colon.
   */
  function ParseToggle(data: string): (r: Option<Toggle>)
    ensures r.Some? <==> |Split(data, ':')| == 2
    ensures r.Some? ==> r.value.action == Split(data, ':')[1] && ':' !in r.value.action
  {
    var parts := Split(data, ':');
    if |parts| != 2 then None
    else Some(Toggle(ReplaceAll(parts[0], "toggle_", ""), parts[1]))
  }

  /** A service name has no `t` (so no `toggle_` inside it) and no colon. */
  lemma ServiceNameShape(s: Service)
    ensures 't' !in ServiceName(s) && ':' !in ServiceName(s)
  {
    match s
    case KworkService => assert ServiceName(s) == "kwork";
    case FlService => assert ServiceName(s) == "fl";
    case FreelancerService => assert ServiceName(s) == "freelancer";
  }

  /** `"toggle_{name}:{action}".split(":")` for a name and an action without a colon. */
  lemma SplitToggle(name: string, action: string)
    requires ':' !in name && ':' !in action
    ensures Split("toggle_" + name + ":" + action, ':') == ["toggle_" + name, action]
  {
    assert ':' !in "toggle_" + name;
    assert "toggle_" + name + ":" + action == ("toggle_" + name) + [':'] + action;
    SplitAtSep("toggle_" + name, action, ':');
    SplitNoSep(action, ':');
  }

  /** `"toggle_{name}".replace("toggle_", "")` is the name when the name holds no `t`. */
  lemma DropTogglePrefix(name: string)
    requires 't' !in name
    ensures ReplaceAll("toggle_" + name, "toggle_", "") == name
  {
    ReplaceAllLeading("toggle_", name, "");
    ReplaceAllAbsent(name, "toggle_", "");
  }

  /** Each settings button's data parses back to its service and the opposite of the flag it shows. */
  lemma ParseToggleCallback(s: Service, flag: bool)
    ensures ParseToggle(ToggleCallback(s, flag)) == Some(Toggle(ServiceName(s), if flag then "off" else "on"))
  {
    var name, action := ServiceName(s), if flag then "off" else "on";
    ServiceNameShape(s);
    assert ':' !in action;
    SplitToggle(name, action);
    DropTogglePrefix(name);
  }

  /** The patch a toggle sends: only the flag of that service, set to `on`. */
  function TogglePatch(s: Service, on: bool): (p: Patch)
    ensures Provided(p) == [match s
                            case KworkService => MailingKworkCol
                            case FlService => MailingFlCol
                            case FreelancerService => MailingFreelancerCol]
  {
    match s
    case KworkService => Patch(None, Some(on), None, None)
    case FlService => Patch(None, None, Some(on), None)
    case FreelancerService => Patch(None, None, None, Some(on))
  }

  /**
   * Pressing a settings button flips exactly that service's flag: the row afterwards has
   * the opposite flag for `s`, and the same keywords and other flags.
   */
  lemma ToggleFlips(r: Row, s: Service)
    ensures ParseToggle(ToggleCallback(s, Flag(r, s))).Some?
    ensures var t := ParseToggle(ToggleCallback(s, Flag(r, s))).value;
      && ServiceNamed(t.service) == Some(s)
      && var r' := Apply(r, TogglePatch(s, t.action == "on"));
      && Flag(r', s) == !Flag(r, s)
      && (forall s' :: s' != s ==> Flag(r', s') == Flag(r, s'))
      && r'.keywords == r.keywords && r'.chatId == r.chatId && r'.id == r.id
  {
    ParseToggleCallback(s, Flag(r, s));
  }

  /**
   * `toggle_service`: the data must unpack into a service and an action; a known service
   * gets its flag set to `action == "on"` in the user's row, and an unknown one changes
   * nothing. The update raises without a connection.
   */
  method ToggleService(db: Database, chatId: string, data: string) returns (ok: bool)
    requires |data| >= 7 && data[..7] == "toggle_"
    requires db.Valid()
    modifies db
    ensures db.Valid()
    ensures db.connected == old(db.connected) && db.nextId == old(db.nextId)
    ensures var t := ParseToggle(data);
      ok <==> t.Some? && (ServiceNamed(t.value.service).None? || old(db.connected))
    ensures var t := ParseToggle(data);
      t.Some? && ServiceNamed(t.value.service).Some? && old(db.connected) ==>
        db.rows == UpdateRows(old(db.rows), chatId, TogglePatch(ServiceNamed(t.value.service).value, t.value.action == "on"))
    ensures var t := ParseToggle(data);
      t.None? || ServiceNamed(t.value.service).None? || !old(db.connected) ==> db.rows == old(db.rows)
  {
    var parts := Split(data, ':');
    if |parts| != 2 {
      return false;
    }
    var service, action := ReplaceAll(parts[0], "toggle_", ""), parts[1];
    var on := action == "on";
    var query: Option<string>, values: seq<SqlValue>;
    if service == "kwork" {
      ok, query, values := db.UpdateUser(chatId, TogglePatch(KworkService, on));
    } else if service == "fl" {
      ok, query, values := db.UpdateUser(chatId, TogglePatch(FlService, on));
    } else if service == "freelancer" {
      ok, query, values := db.UpdateUser(chatId, TogglePatch(FreelancerService, on));
    } else {
      ok := true;
    }
  }

  // ---------------------------------------------------------------- /start

  /** The row `/start` creates: empty keywords and every service on. */
  function DefaultRow(id: int, chatId: string): Row {
    Row(id, chatId, Some(""), true, true, true)
  }

  /**
   * `command_start_handler`: an unknown user gets the default row; a known user is left
   * as is. Without a connection `get_user` answers `None` and the insert then raises.
   */
  method CommandStart(db: Database, chatId: string) returns (ok: bool)
    requires db.Valid()
    modifies db
    ensures db.Valid()
    ensures ok == old(db.connected) && db.connected == old(db.connected)
    ensures !ok || chatId in old(db.Users()) ==> db.rows == old(db.rows)
    ensures ok && chatId !in old(db.Users()) ==> db.Users() == old(db.Users())[chatId := DefaultRow(old(db.nextId), chatId)]
    ensures ok && chatId !in old(db.Users()) ==> db.rows == old(db.rows) + [DefaultRow(old(db.nextId), chatId)]
    ensures db.nextId == old(db.nextId) + (if ok && chatId !in old(db.Users()) then 1 else 0)
  {
    var user := db.GetUser(chatId);
    if user.None? {
      ok := db.AddUser(chatId, Some(""), true, true, true);
    } else {
      ok := true;
    }
  }

  /** After `/start` the user is subscribed to every service and matches every message. */
  lemma DefaultRowGetsEverything(id: int, chatId: string, s: Service, data: string)
    ensures Flag(DefaultRow(id, chatId), s)
    ensures Eligible(DefaultRow(id, chatId).keywords, data)
  {
  }

  // ---------------------------------------------------------------- admin checks

  /**
   * `username and username.lower() == ADMIN_USERNAME.lower()` (force_update, help): no
   * username or an empty one is never admin; otherwise the comparison ignores case, and
   * raises (`None`) when no admin is configured.
   */
  function IsForceUpdateAdmin(username: Option<string>, admin: Option<string>): (r: Option<bool>)
    ensures username.None? || username.value == "" ==> r == Some(false)
    ensures username.Some? && username.value != "" && admin.None? ==> r.None?
    ensures username.Some? && username.value != "" && admin.Some? ==>
      r == Some(Lower(username.value) == Lower(admin.value))
  {
    if username.None? || username.value == "" then Some(false)
    else if admin.None? then None
    else Some(Lower(username.value) == Lower(admin.value))
  }

  /** `username == ADMIN_USERNAME` (shutdown): exact, and satisfied by two absent names. */
  function IsShutdownAdmin(username: Option<string>, admin: Option<string>): (r: bool)
    ensures r <==> (username.None? && admin.None?) || (username.Some? && admin.Some? && username.value == admin.value)
  {
    username == admin
  }

  /** The two checks differ on case: a name in other capitals may force an update but not shut down. */
  lemma AdminChecksDifferOnCase()
    ensures IsForceUpdateAdmin(Some("Admin"), Some("admin")) == Some(true)
    ensures !IsShutdownAdmin(Some("Admin"), Some("admin"))
  {
    assert Lower("Admin") == "admin";
    assert Lower("admin") == "admin";
  }

  /** With no admin configured, a user without a username passes the shutdown check. */
  lemma ShutdownWithoutAdmin()
    ensures IsShutdownAdmin(None, None)
    ensures IsForceUpdateAdmin(None, None) == Some(false)
  {
  }
}
