/**
 * The dispatcher: for each message on the three project channels, pick the subscribers
 * of that channel, keep those whose keywords match the raw message, render the project
 * card and send it to each of them, a failed send affecting nobody else.
 *
 * `json.loads` is a function passed in (`decode`, `None` where it raises) that yields
 * the JSON view below; the Telegram client is outside the model, and the set of chat
 * ids whose send raises comes with each message. `format_value` is modelled on exact
 * reals; how Python prints the resulting `int` or `float` is passed in as `show`.
 */
module Notifications {
  import opened Wrappers
  import opened Text
  import opened Posting
  import opened Db

  // ---------------------------------------------------------------- the JSON view

  /** A key of a decoded JSON object: missing, `null`, or a value. */
  datatype JField<T> = Absent | Null | Val(v: T)

  datatype BudgetJson = BudgetJson(minimum: JField<real>, maximum: JField<real>, currency: JField<string>)

  /** The keys of a decoded payload that the renderer reads. */
  datatype ProjectJson = ProjectJson(title: JField<string>, description: JField<string>,
                                     url: JField<string>, budget: JField<BudgetJson>)

  function JStr(o: Option<string>): JField<string> {
    if o.Some? then Val(o.value) else Null
  }

  function JNum(o: Option<real>): JField<real> {
    if o.Some? then Val(o.value) else Null
  }

  /** How `json.dumps` of a published payload reads back: every key present, `None` as `null`. */
  function AsJson(p: Payload): ProjectJson {
    ProjectJson(JStr(p.title), JStr(p.description), Val(p.url),
                Val(BudgetJson(JNum(p.budget.minimum), JNum(p.budget.maximum), JStr(p.budget.currency))))
  }

  // ---------------------------------------------------------------- description

  const MaxDescLength := 200

  /**
   * The description as shown: unchanged up to 200 characters; otherwise the first 200
   * characters without their trailing whitespace, then `...`.
   */
  function Preview(desc: string): (p: string)
    ensures |desc| <= MaxDescLength ==> p == desc
    ensures |desc| > MaxDescLength ==> exists k :: 0 <= k <= MaxDescLength && p == desc[..k] + "..."
                                                && (k == 0 || !IsSpace(desc[k - 1]))
                                                && AllSpace(desc[k..MaxDescLength])
    ensures |p| <= MaxDescLength + 3
  {
    if |desc| > MaxDescLength then
      var head := RStrip(desc[..MaxDescLength]);
      assert head == desc[..|head|];
      assert desc[|head|..MaxDescLength] == desc[..MaxDescLength][|head|..];
      head + "..."
    else desc
  }

  // ---------------------------------------------------------------- budget line

  /** What `format_value` returns for a number: an `int` when the value is integral, else a `float`. */
  datatype Num = IntNum(i: int) | FloatNum(r: real)

  function NumValue(n: Num): real {
    match n
    case IntNum(i) => i as real
    case FloatNum(r) => r
  }

  datatype BudgetLine = NotSpecified | Single(amount: Num, currency: string) | Span(low: Num, high: Num, currency: string)

  /** `x` in hundredths, rounded to the nearest integer, a tie going to the even one. */
  function Hundredths(x: real): (m: int)
    ensures -0.5 <= m as real - x * 100.0 <= 0.5
    ensures m as real - x * 100.0 == 0.5 || m as real - x * 100.0 == -0.5 ==> m % 2 == 0
  {
    var n := (x * 100.0).Floor;
    var f := x * 100.0 - n as real;
    if f < 0.5 then n else if f > 0.5 then n + 1 else if n % 2 == 0 then n else n + 1
  }

  /** `round(x, 2)`: the multiple of 0.01 nearest to `x`. */
  function Round2(x: real): (r: real)
    ensures -0.005 <= r - x <= 0.005
    ensures r * 100.0 == Hundredths(x) as real
  {
    Hundredths(x) as real / 100.0
  }

  /** `format_value` on a number. */
  function FormatValue(x: real): (n: Num)
    ensures n.IntNum? <==> x == x.Floor as real
    ensures n.IntNum? ==> NumValue(n) == x
    ensures -0.005 <= NumValue(n) - x <= 0.005
  {
    if x == x.Floor as real then IntNum(x.Floor) else FloatNum(Round2(x))
  }

  /** `.get(key)` then `format_value` when the value is not `None`. */
  function Formatted(f: JField<real>): Option<Num> {
    if f.Val? then Some(FormatValue(f.v)) else None
  }

  /** Python truthiness of a formatted amount: present and non-zero. */
  predicate Truthy(a: Option<Num>) {
    a.Some? && NumValue(a.value) != 0.0
  }

  /** `.get('currency', '')` as an f-string prints it. */
  function CurrencyText(f: JField<string>): string {
    match f
    case Absent => ""
    case Null => "None"
    case Val(s) => s
  }

  /** Python truthiness of the budget object: present and not the empty dictionary. */
  predicate BudgetTruthy(b: JField<BudgetJson>) {
    b.Val? && !(b.v.minimum.Absent? && b.v.maximum.Absent? && b.v.currency.Absent?)
  }

  /**
   * The budget line of a card. The bounds are formatted first, so the truthiness and
   * equality tests see the rounded values; an `int` and a `float` compare by value.
   */
  function BudgetLineOf(b: JField<BudgetJson>): (l: BudgetLine)
    ensures !BudgetTruthy(b) ==> l == NotSpecified
    ensures BudgetTruthy(b) ==>
      var lo, hi, cur := Formatted(b.v.minimum), Formatted(b.v.maximum), CurrencyText(b.v.currency);
      && (Truthy(lo) && Truthy(hi) && NumValue(lo.value) == NumValue(hi.value) ==> l == Single(lo.value, cur))
      && (Truthy(lo) && Truthy(hi) && NumValue(lo.value) != NumValue(hi.value) ==> l == Span(lo.value, hi.value, cur))
      && (Truthy(lo) && !Truthy(hi) ==> l == Single(lo.value, cur))
      && (!Truthy(lo) && Truthy(hi) ==> l == Single(hi.value, cur))
      && (!Truthy(lo) && !Truthy(hi) ==> l == NotSpecified)
  {
    if !BudgetTruthy(b) then NotSpecified
    else
      var lo, hi, cur := Formatted(b.v.minimum), Formatted(b.v.maximum), CurrencyText(b.v.currency);
      if Truthy(lo) && Truthy(hi) then
        if NumValue(lo.value) == NumValue(hi.value) then Single(lo.value, cur) else Span(lo.value, hi.value, cur)
      else if Truthy(lo) then Single(lo.value, cur)
      else if Truthy(hi) then Single(hi.value, cur)
      else NotSpecified
  }

  /** A non-negative amount formats to zero when it is below half a hundredth, and to non-zero above. */
  lemma FormattedZero(x: real)
    requires x >= 0.0
    ensures x < 0.005 ==> NumValue(FormatValue(x)) == 0.0
    ensures x > 0.005 ==> NumValue(FormatValue(x)) != 0.0
  {
  }

  /** A minimum of 0.001 rounds to 0, which is falsy, so the card says the budget is not specified. */
  lemma TinyMinimumNotSpecified()
    ensures BudgetLineOf(Val(BudgetJson(Val(0.001), Absent, Val(Rouble)))) == NotSpecified
  {
  }

  /** Bounds of 100.001 and 100.004 are equal once rounded, so the card shows one amount, the float 100.0. */
  lemma CloseBoundsOneAmount()
    ensures BudgetLineOf(Val(BudgetJson(Val(100.001), Val(100.004), Val(Rouble)))) == Single(FloatNum(100.0), Rouble)
  {
  }

  function BudgetText(l: BudgetLine, show: Num -> string): string {
    match l
    case NotSpecified => "Бюджет не указан"
    case Single(v, cur) => "Бюджет: " + show(v) + " " + cur
    case Span(lo, hi, cur) => "Бюджет: " + show(lo) + " - " + show(hi) + " " + cur
  }

  // ---------------------------------------------------------------- channel label

  datatype Label = Label(emoji: string, text: string)

  /** The source badge of a channel; a channel the service does not know gets an empty badge. */
  function SourceLabel(channel: string): (l: Label)
    ensures channel == FlChannel ==> l == Label("🟢", "FL")
    ensures channel == KworkChannel ==> l == Label("🔘", "Kwork")
    ensures channel == FreelancerChannel ==> l == Label("⚪", "Freelancer")
    ensures channel !in {FlChannel, KworkChannel, FreelancerChannel} ==> l == Label("", "")
  {
    if channel == FlChannel then Label("🟢", "FL")
    else if channel == KworkChannel then Label("🔘", "Kwork")
    else if channel == FreelancerChannel then Label("⚪", "Freelancer")
    else Label("", "")
  }

  // ---------------------------------------------------------------- format_project_message

  /** What `format_project_message` returns: the text, the project url and the title; `None` for a `null`. */
  datatype Rendered = Rendered(text: string, url: Option<string>, title: Option<string>)

  /** A value as an f-string prints it, `None` printing as `None`. */
  function Show(o: Option<string>): string {
    if o.Some? then o.value else "None"
  }

  /** `.get(key, default)`: the default for a missing key, `None` for `null`. */
  function GetStr(f: JField<string>, default: string): Option<string> {
    match f
    case Absent => Some(default)
    case Null => None
    case Val(s) => Some(s)
  }

  function CardText(badge: Label, title: Option<string>, desc: string, budget: string): string {
    badge.emoji + " <b>" + Show(title) + "</b> (" + badge.text + ")\n\n" + "📝 " + desc + "\n\n" + budget
  }

  /**
   * `format_project_message(data, channel)`: text that does not decode is returned as it
   * is with empty url and title; a decoded project becomes its card. `None` means the call
   * raises, which happens when the description is `null` (`len(None)`).
   */
  function FormatProjectMessage(data: string, channel: string, decode: string -> Option<ProjectJson>,
                                show: Num -> string): (r: Option<Rendered>)
    ensures decode(data).None? ==> r == Some(Rendered(data, Some(""), Some("")))
    ensures decode(data).Some? ==> (r.None? <==> decode(data).value.description.Null?)
    ensures decode(data).Some? && r.Some? ==>
      var pj := decode(data).value;
      && r.value.url == GetStr(pj.url, "")
      && r.value.title == GetStr(pj.title, "Без названия")
      && r.value.text == CardText(SourceLabel(channel), GetStr(pj.title, "Без названия"),
                                  Preview(GetStr(pj.description, "").value),
                                  BudgetText(BudgetLineOf(pj.budget), show))
  {
    match decode(data)
    case None => Some(Rendered(data, Some(""), Some("")))
    case Some(pj) =>
      match GetStr(pj.description, "")
      case None => None
      case Some(desc) =>
        var title := GetStr(pj.title, "Без названия");
        Some(Rendered(CardText(SourceLabel(channel), title, Preview(desc), BudgetText(BudgetLineOf(pj.budget), show)),
                      GetStr(pj.url, ""), title))
  }

  /**
   * A published payload whose description is `None` cannot be rendered: every payload
   * publishes a `description` key, so the `''` default never applies and `len(None)` raises.
   */
  lemma NullDescriptionNotRendered(p: Payload, data: string, channel: string,
                                   decode: string -> Option<ProjectJson>, show: Num -> string)
    requires decode(data) == Some(AsJson(p))
    requires p.description.None?
    ensures FormatProjectMessage(data, channel, decode, show).None?
  {
  }

  /**
   * An FL payload always carries a budget object, so its card shows `Бюджет не указан`
   * exactly when no amount was parsed or the amount rounds to zero, and otherwise one
   * formatted amount in roubles.
   */
  lemma ParsedBudgetLine(p: Payload)
    requires p.budget.minimum == p.budget.maximum
    requires p.budget.currency == Some(Rouble) || p.budget == Budget(None, None, None)
    ensures var l := BudgetLineOf(AsJson(p).budget);
      && (p.budget.minimum.Some? && NumValue(FormatValue(p.budget.minimum.value)) != 0.0
          ==> l == Single(FormatValue(p.budget.minimum.value), Rouble))
      && (p.budget.minimum.None? || NumValue(FormatValue(p.budget.minimum.value)) == 0.0 ==> l == NotSpecified)
  {
  }

  // ---------------------------------------------------------------- eligibility

  /** `[g for x in xs if (g := f(x)) is not None]`: keeps the defined images, in order. */
  function FilterMap<T, U>(f: T -> Option<U>, xs: seq<T>): (ys: seq<U>)
    ensures |ys| <= |xs|
    decreases |xs|
  {
    if xs == [] then []
    else
      var init := FilterMap(f, xs[..|xs| - 1]);
      match f(xs[|xs| - 1])
      case Some(y) => init + [y]
      case None => init
  }

  /** An element is kept exactly when some input maps to it. */
  lemma {:induction false} FilterMapMembers<T, U>(f: T -> Option<U>, xs: seq<T>, y: U)
    ensures y in FilterMap(f, xs) <==> exists i :: 0 <= i < |xs| && f(xs[i]) == Some(y)
    decreases |xs|
  {
    if xs != [] {
      var init := xs[..|xs| - 1];
      FilterMapMembers(f, init, y);
      if y in FilterMap(f, init) {
        var i :| 0 <= i < |init| && f(init[i]) == Some(y);
        assert xs[i] == init[i];
      }
      if exists i :: 0 <= i < |xs| && f(xs[i]) == Some(y) {
        var i :| 0 <= i < |xs| && f(xs[i]) == Some(y);
        if i < |init| {
          assert init[i] == xs[i];
        }
      }
    }
  }

  /** Nothing is kept exactly when every input maps to `None`, here described by `blank`. */
  lemma {:induction false} FilterMapEmpty<T, U>(f: T -> Option<U>, blank: T -> bool, xs: seq<T>)
    requires forall x :: f(x).None? <==> blank(x)
    ensures FilterMap(f, xs) == [] <==> forall i :: 0 <= i < |xs| ==> blank(xs[i])
    decreases |xs|
  {
    if xs != [] {
      var n := |xs| - 1;
      assert forall i :: 0 <= i < n ==> xs[..n][i] == xs[i];
      FilterMapEmpty(f, blank, xs[..n]);
    }
  }

  /** When every input is kept, the result is its images, one for one. */
  lemma {:induction false} FilterMapExactly<T, U>(f: T -> Option<U>, xs: seq<T>, ys: seq<U>)
    requires |xs| == |ys|
    requires forall i :: 0 <= i < |xs| ==> f(xs[i]) == Some(ys[i])
    ensures FilterMap(f, xs) == ys
    decreases |xs|
  {
    if xs != [] {
      var n := |xs| - 1;
      assert forall i :: 0 <= i < n ==> xs[..n][i] == xs[i] && ys[..n][i] == ys[i];
      FilterMapExactly(f, xs[..n], ys[..n]);
      assert ys == ys[..n] + [ys[n]];
    }
  }

  /** `kw.strip().lower()` for an item whose strip is non-empty. */
  function Keyword(part: string): (k: Option<string>)
    ensures k.Some? <==> !AllSpace(part)
    ensures k.Some? ==> k.value != "" && k.value == Lower(Strip(part))
  {
    var kw := Strip(part);
    if kw != "" then Some(Lower(kw)) else None
  }

  /** `[kw.strip().lower() for kw in parts if kw.strip()]`. */
  function KeywordList(parts: seq<string>): seq<string> {
    FilterMap(Keyword, parts)
  }

  /** The keyword list holds exactly the lower-cased strips of the parts that are not all whitespace, and no empty word. */
  lemma KeywordListMembers(parts: seq<string>, w: string)
    ensures w in KeywordList(parts) <==> exists i :: 0 <= i < |parts| && !AllSpace(parts[i]) && w == Lower(Strip(parts[i]))
    ensures w in KeywordList(parts) ==> w != ""
  {
    FilterMapMembers(Keyword, parts, w);
  }

  /** No keyword, or only whitespace: `not (keywords and keywords.strip())`. */
  predicate Blank(keywords: Option<string>) {
    keywords.None? || Strip(keywords.value) == ""
  }

  /** The keyword rule: a blank keyword string matches everything, otherwise some keyword must occur in the lower-cased text. */
  predicate Eligible(keywords: Option<string>, data: string) {
    Blank(keywords) ||
    var ws := KeywordList(Split(keywords.value, ','));
    exists i :: 0 <= i < |ws| && Contains(Lower(data), ws[i])
  }

  /** Some keyword satisfies `P` exactly when some part that is not all whitespace does, once stripped and lower-cased. */
  lemma SomeKeyword(parts: seq<string>, P: string -> bool)
    ensures var ws := KeywordList(parts);
      (exists i :: 0 <= i < |ws| && P(ws[i])) <==>
      (exists j :: 0 <= j < |parts| && !AllSpace(parts[j]) && P(Lower(Strip(parts[j]))))
  {
    var ws := KeywordList(parts);
    if exists i :: 0 <= i < |ws| && P(ws[i]) {
      var i :| 0 <= i < |ws| && P(ws[i]);
      KeywordListMembers(parts, ws[i]);
    }
    if exists j :: 0 <= j < |parts| && !AllSpace(parts[j]) && P(Lower(Strip(parts[j]))) {
      var j :| 0 <= j < |parts| && !AllSpace(parts[j]) && P(Lower(Strip(parts[j])));
      KeywordListMembers(parts, Lower(Strip(parts[j])));
      var i :| 0 <= i < |ws| && ws[i] == Lower(Strip(parts[j]));
    }
  }

  /**
   * A recipient with keywords gets a message exactly when one of its comma-separated items,
   * not all whitespace, occurs stripped and lower-cased in the lower-cased raw message.
   */
  lemma EligibleIff(keywords: string, data: string)
    requires !AllSpace(keywords)
    ensures var parts := Split(keywords, ',');
      Eligible(Some(keywords), data) <==>
      exists j :: 0 <= j < |parts| && !AllSpace(parts[j]) && Contains(Lower(data), Lower(Strip(parts[j])))
  {
    var parts, P := Split(keywords, ','), w => Contains(Lower(data), w);
    var ws := KeywordList(parts);
    SomeKeyword(parts, P);
    if Eligible(Some(keywords), data) {
      var i :| 0 <= i < |ws| && Contains(Lower(data), ws[i]);
      assert P(ws[i]);
      var j :| 0 <= j < |parts| && !AllSpace(parts[j]) && P(Lower(Strip(parts[j])));
      assert Contains(Lower(data), Lower(Strip(parts[j])));
    }
  }

  /** Keywords that are not blank but have no non-empty item, such as `", ,"`, match nothing. */
  lemma NoItemsMatchNothing(keywords: string, data: string)
    requires !AllSpace(keywords)
    requires forall p :: p in Split(keywords, ',') ==> AllSpace(p)
    ensures !Eligible(Some(keywords), data)
  {
    EligibleIff(keywords, data);
  }

  lemma CommaSpaceCommaMatchesNothing(data: string)
    ensures !Eligible(Some(", ,"), data)
  {
    assert ", ," == [] + [','] + (" " + [','] + []);
    SplitAtSep([], " " + [','] + [], ',');
    SplitAtSep(" ", [], ',');
    assert !AllSpace(", ,") by { assert !IsSpace(", ,"[0]); }
    NoItemsMatchNothing(", ,", data);
  }

  /** `eligible_users`: the recipients the rule admits, in the order the store returned them. */
  function EligibleUsers(users: seq<Row>, data: string): seq<Row> {
    Where(users, (u: Row) => Eligible(u.keywords, data))
  }

  /** A recipient is kept exactly when the keyword rule admits it. */
  lemma EligibleUsersMembers(users: seq<Row>, data: string, u: Row)
    ensures u in EligibleUsers(users, data) <==> u in users && Eligible(u.keywords, data)
  {
    WhereMembers(users, (u: Row) => Eligible(u.keywords, data), u);
  }

  // ---------------------------------------------------------------- delivery

  /** A card delivered to a chat. */
  datatype Delivery = Delivery(chatId: string, text: string, url: Option<string>)

  /** The deliveries of one message: every eligible recipient whose send does not raise, in order. */
  function Deliveries(eligible: seq<Row>, r: Option<Rendered>, failing: set<string>): seq<Delivery>
    decreases |eligible|
  {
    if eligible == [] then []
    else
      var init := Deliveries(eligible[..|eligible| - 1], r, failing);
      var u := eligible[|eligible| - 1];
      if r.Some? && u.chatId !in failing then init + [Delivery(u.chatId, r.value.text, r.value.url)] else init
  }

  /** Failures are isolated: a recipient is delivered to exactly when the card renders and its own send does not raise. */
  lemma {:induction false} DeliveriesMembers(eligible: seq<Row>, r: Option<Rendered>, failing: set<string>, d: Delivery)
    ensures d in Deliveries(eligible, r, failing)
        <==> r.Some? && d.text == r.value.text && d.url == r.value.url && d.chatId !in failing
             && exists u :: u in eligible && u.chatId == d.chatId
    decreases |eligible|
  {
    if eligible != [] {
      var init := eligible[..|eligible| - 1];
      DeliveriesMembers(init, r, failing, d);
      assert eligible == init + [eligible[|eligible| - 1]];
    }
  }

  /** The chat ids tried, one per eligible recipient, in order. */
  function ChatIds(users: seq<Row>): seq<string> {
    seq(|users|, i requires 0 <= i < |users| => users[i].chatId)
  }

  /** One more recipient adds one attempt and at most one delivery. */
  lemma SendSnoc(eligible: seq<Row>, i: nat, r: Option<Rendered>, failing: set<string>)
    requires i < |eligible|
    ensures ChatIds(eligible[..i + 1]) == ChatIds(eligible[..i]) + [eligible[i].chatId]
    ensures var u := eligible[i];
      Deliveries(eligible[..i + 1], r, failing)
        == Deliveries(eligible[..i], r, failing)
           + (if r.Some? && u.chatId !in failing then [Delivery(u.chatId, r.value.text, r.value.url)] else [])
  {
    assert eligible[..i + 1][..i] == eligible[..i];
  }

  /** The recipients of a channel: its subscribers, or nobody for a channel the service does not know. */
  function RecipientsOf(channel: string, connected: bool, rows: seq<Row>): seq<Row> {
    if !connected then []
    else if channel == FlChannel then Subscribers(rows, FlService)
    else if channel == KworkChannel then Subscribers(rows, KworkService)
    else if channel == FreelancerChannel then Subscribers(rows, FreelancerService)
    else []
  }

  /** A message from the subscription: its type, channel and data, and the chats whose send will raise. */
  datatype Incoming = Incoming(kind: string, channel: string, data: string, failing: set<string>)

  /** The deliveries for one message of type `message` on `channel`. */
  function MessageDeliveries(channel: string, data: string, failing: set<string>, connected: bool, rows: seq<Row>,
                             decode: string -> Option<ProjectJson>, show: Num -> string): seq<Delivery>
  {
    Deliveries(EligibleUsers(RecipientsOf(channel, connected, rows), data),
               FormatProjectMessage(data, channel, decode, show), failing)
  }

  /** The deliveries for one incoming item; only items of type `message` are handled. */
  function IncomingDeliveries(m: Incoming, connected: bool, rows: seq<Row>,
                              decode: string -> Option<ProjectJson>, show: Num -> string): seq<Delivery>
  {
    if m.kind != "message" then []
    else MessageDeliveries(m.channel, m.data, m.failing, connected, rows, decode, show)
  }

  /** `IncomingDeliveries` for a fixed store, as a function of the item. */
  function Handler(connected: bool, rows: seq<Row>, decode: string -> Option<ProjectJson>, show: Num -> string)
    : Incoming -> seq<Delivery>
  {
    m => IncomingDeliveries(m, connected, rows, decode, show)
  }

  /** The concatenation of `f(x)` over `xs`, in order. */
  function FlatMap<T, U>(f: T -> seq<U>, xs: seq<T>): seq<U>
    decreases |xs|
  {
    if xs == [] then [] else FlatMap(f, xs[..|xs| - 1]) + f(xs[|xs| - 1])
  }

  /** One more element appends its image. */
  lemma FlatMapStep<T, U>(f: T -> seq<U>, xs: seq<T>, i: nat)
    requires i < |xs|
    ensures FlatMap(f, xs[..i + 1]) == FlatMap(f, xs[..i]) + f(xs[i])
  {
    assert xs[..i + 1][..i] == xs[..i];
  }

  lemma {:induction false} FlatMapAppend<T, U>(f: T -> seq<U>, xs: seq<T>, ys: seq<T>)
    ensures FlatMap(f, xs + ys) == FlatMap(f, xs) + FlatMap(f, ys)
    decreases |ys|
  {
    if ys == [] {
      assert xs + ys == xs;
    } else {
      var init := ys[..|ys| - 1];
      FlatMapAppend(f, xs, init);
      assert (xs + ys)[..|xs + ys| - 1] == xs + init;
    }
  }

  /** `deliver` gives every item the deliveries `IncomingDeliveries` gives it for this store. */
  ghost predicate Handles(deliver: Incoming -> seq<Delivery>, connected: bool, rows: seq<Row>,
                          decode: string -> Option<ProjectJson>, show: Num -> string)
  {
    forall m {:trigger IncomingDeliveries(m, connected, rows, decode, show)}
      :: deliver(m) == IncomingDeliveries(m, connected, rows, decode, show)
  }

  /** `Handler`, known to the caller only through what it gives each item and each run. */
  lemma HandlerOf(connected: bool, rows: seq<Row>, decode: string -> Option<ProjectJson>, show: Num -> string)
    returns (h: Incoming -> seq<Delivery>)
    ensures Handles(h, connected, rows, decode, show)
    ensures forall ms {:trigger ListenDeliveries(ms, connected, rows, decode, show)}
      :: FlatMap(h, ms) == ListenDeliveries(ms, connected, rows, decode, show)
  {
    h := Handler(connected, rows, decode, show);
  }

  /** All deliveries for a run of incoming items, in order. */
  function ListenDeliveries(ms: seq<Incoming>, connected: bool, rows: seq<Row>,
                            decode: string -> Option<ProjectJson>, show: Num -> string): seq<Delivery>
  {
    FlatMap(Handler(connected, rows, decode, show), ms)
  }

  class NotificationService {
    const db: Database
    const channels: seq<string>
    /** Every card the bot has delivered, oldest first. */
    var outbox: seq<Delivery>

    constructor (db: Database)
      ensures this.db == db && channels == [FlChannel, KworkChannel, FreelancerChannel] && outbox == []
    {
      this.db := db;
      channels := [FlChannel, KworkChannel, FreelancerChannel];
      outbox := [];
    }

    /** The recipients lookup of `listen`. */
    method Recipients(channel: string) returns (users: seq<Row>)
      ensures users == RecipientsOf(channel, db.connected, db.rows)
    {
      if channel == FlChannel {
        users := db.GetUsersForFl();
      } else if channel == KworkChannel {
        users := db.GetUsersForKwork();
      } else if channel == FreelancerChannel {
        users := db.GetUsersForFreelancer();
      } else {
        users := [];
      }
    }

    /** `any(kw in msgText for kw in keywordList)`. */
    method AnyContained(msgText: string, keywordList: seq<string>) returns (found: bool)
      ensures found <==> exists k :: 0 <= k < |keywordList| && Contains(msgText, keywordList[k])
    {
      found := false;
      var j := 0;
      while j < |keywordList| && !found
        invariant 0 <= j <= |keywordList|
        invariant found <==> exists k :: 0 <= k < j && Contains(msgText, keywordList[k])
      {
        found := Contains(msgText, keywordList[j]);
        j := j + 1;
      }
    }

    /** The keyword rule of `listen` for one recipient. */
    method Admits(user: Row, data: string) returns (found: bool)
      ensures found == Eligible(user.keywords, data)
    {
      var msgText := Lower(data);
      if user.keywords.Some? && user.keywords.value != "" && Strip(user.keywords.value) != "" {
        var keywordList := KeywordList(Split(user.keywords.value, ','));
        found := AnyContained(msgText, keywordList);
      } else {
        found := true;
      }
    }

    /** The first loop of `listen`: collect the recipients the keyword rule admits. */
    method SelectEligible(users: seq<Row>, data: string) returns (eligible: seq<Row>)
      ensures eligible == EligibleUsers(users, data)
    {
      eligible := [];
      for i := 0 to |users|
        invariant eligible == EligibleUsers(users[..i], data)
      {
        assert users[..i + 1] == users[..i] + [users[i]];
        WhereSnoc(users[..i], users[i], (u: Row) => Eligible(u.keywords, data));
        var found := Admits(users[i], data);
        if found {
          eligible := eligible + [users[i]];
        }
      }
      assert users[..|users|] == users;
    }

    /** The second loop of `listen`: one attempt per recipient, in order, each failure caught. */
    method SendAll(eligible: seq<Row>, data: string, channel: string, failing: set<string>,
                   decode: string -> Option<ProjectJson>, show: Num -> string) returns (attempts: seq<string>)
      modifies this
      ensures attempts == ChatIds(eligible)
      ensures outbox == old(outbox) + Deliveries(eligible, FormatProjectMessage(data, channel, decode, show), failing)
    {
      ghost var r := FormatProjectMessage(data, channel, decode, show);
      attempts := [];
      for i := 0 to |eligible|
        invariant attempts == ChatIds(eligible[..i])
        invariant outbox == old(outbox) + Deliveries(eligible[..i], r, failing)
      {
        SendSnoc(eligible, i, r, failing);
        var chatId := eligible[i].chatId;
        attempts := attempts + [chatId];
        var rendered := FormatProjectMessage(data, channel, decode, show);
        if rendered.Some? && chatId !in failing {
          outbox := outbox + [Delivery(chatId, rendered.value.text, rendered.value.url)];
        }
      }
      assert eligible[..|eligible|] == eligible;
    }

    /** One message of type `message`: recipients, keyword rule, delivery. */
    method HandleMessage(channel: string, data: string, failing: set<string>,
                         decode: string -> Option<ProjectJson>, show: Num -> string)
      modifies this
      ensures outbox == old(outbox) + MessageDeliveries(channel, data, failing, db.connected, db.rows, decode, show)
    {
      var users := Recipients(channel);
      var eligible := SelectEligible(users, data);
      var _ := SendAll(eligible, data, channel, failing, decode, show);
    }

    /**
     * One item from the subscription: only items of type `message` are handled. The
     * deliveries are named through `deliver`, which `Handles` ties to `IncomingDeliveries`
     * for the current store.
     */
    method HandleIncoming(message: Incoming, decode: string -> Option<ProjectJson>, show: Num -> string,
                          ghost deliver: Incoming -> seq<Delivery>)
      requires Handles(deliver, db.connected, db.rows, decode, show)
      modifies this
      ensures outbox == old(outbox) + deliver(message)
    {
      assert deliver(message) == IncomingDeliveries(message, db.connected, db.rows, decode, show);
      if message.kind == "message" {
        HandleMessage(message.channel, message.data, message.failing, decode, show);
      }
    }

    /** `listen`, over a finite run of messages from the subscription. */
    method Listen(messages: seq<Incoming>, decode: string -> Option<ProjectJson>, show: Num -> string)
      modifies this
      ensures outbox == old(outbox) + ListenDeliveries(messages, db.connected, db.rows, decode, show)
    {
      ghost var connected, rows := db.connected, db.rows;
      ghost var deliver := HandlerOf(connected, rows, decode, show);
      for i := 0 to |messages|
        invariant db.connected == connected && db.rows == rows
        invariant outbox == old(outbox) + FlatMap(deliver, messages[..i])
      {
        FlatMapStep(deliver, messages, i);
        HandleIncoming(messages[i], decode, show, deliver);
      }
      assert messages[..|messages|] == messages;
    }
  }

  /** Listening to one run of items and then another delivers what each run delivers, in that order. */
  lemma ListenAppend(xs: seq<Incoming>, ys: seq<Incoming>, connected: bool, rows: seq<Row>,
                     decode: string -> Option<ProjectJson>, show: Num -> string)
    ensures ListenDeliveries(xs + ys, connected, rows, decode, show)
         == ListenDeliveries(xs, connected, rows, decode, show) + ListenDeliveries(ys, connected, rows, decode, show)
  {
    FlatMapAppend(Handler(connected, rows, decode, show), xs, ys);
  }

  /** An item whose type is not `message` (a subscription confirmation, say) delivers nothing. */
  lemma OtherKindsIgnored(xs: seq<Incoming>, m: Incoming, ys: seq<Incoming>, connected: bool, rows: seq<Row>,
                          decode: string -> Option<ProjectJson>, show: Num -> string)
    requires m.kind != "message"
    ensures ListenDeliveries(xs + [m] + ys, connected, rows, decode, show)
         == ListenDeliveries(xs + ys, connected, rows, decode, show)
  {
    var h := Handler(connected, rows, decode, show);
    FlatMapAppend(h, xs + [m], ys);
    FlatMapAppend(h, xs, [m]);
    FlatMapAppend(h, xs, ys);
    assert [m][..0] == [];
    assert FlatMap(h, [m]) == h(m);
  }

  /** A message on a channel the service does not know reaches nobody. */
  lemma UnknownChannelNobody(channel: string, connected: bool, rows: seq<Row>, data: string,
                             r: Option<Rendered>, failing: set<string>)
    requires channel !in {FlChannel, KworkChannel, FreelancerChannel}
    ensures Deliveries(EligibleUsers(RecipientsOf(channel, connected, rows), data), r, failing) == []
  {
  }
}
