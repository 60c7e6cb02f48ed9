/**
 * The FL.ru adapter: turn a fetched RSS feed into items, keep the recent ones,
 * read a budget out of the title or description, and publish each new project on
 * `fl_projects` under the dedup key `fl:{guid or link}`.
 *
 * Fetching the feed and parsing RFC 5322 dates are outside the model: the feed
 * arrives as a value (`None` when the request failed) and dates are read by a
 * function passed in (`parseDate`, giving epoch seconds or `None` when the date
 * does not parse).
 */
module Fl {
  import opened Wrappers
  import opened Text
  import opened Posting
  import opened RedisStore
  import opened Recency

  // ---------------------------------------------------------------- the feed

  /** One feed entry; `None` marks a field the entry does not have. */
  datatype Entry = Entry(title: Option<string>, link: Option<string>, description: Option<string>,
                         published: Option<string>, guid: Option<string>, category: Option<string>)

  datatype FeedMeta = FeedMeta(title: Option<string>, link: Option<string>, description: Option<string>,
                               language: Option<string>, pubDate: Option<string>, lastBuildDate: Option<string>)

  datatype Feed = Feed(meta: FeedMeta, entries: seq<Entry>)

  datatype Channel = Channel(title: string, link: string, description: string,
                             language: string, pubDate: string, lastBuildDate: string)

  /** An item of the structured feed: every field present, `""` where the entry had none. */
  datatype Item = Item(title: string, link: string, description: string,
                       pubDate: string, guid: string, category: string)

  function ChannelOf(m: FeedMeta): Channel {
    Channel(m.title.GetOr(""), m.link.GetOr(""), m.description.GetOr(""),
            m.language.GetOr(""), m.pubDate.GetOr(""), m.lastBuildDate.GetOr(""))
  }

  function ItemOf(e: Entry): Item {
    Item(e.title.GetOr(""), e.link.GetOr(""), e.description.GetOr(""),
         e.published.GetOr(""), e.guid.GetOr(""), e.category.GetOr(""))
  }

  /** The structured feed dictionary; `channel == None` with no items is the empty dictionary `{}`. */
  class StructuredFeed {
    var channel: Option<Channel>
    var items: seq<Item>

    constructor (channel: Option<Channel>, items: seq<Item>)
      ensures this.channel == channel && this.items == items
    {
      this.channel := channel;
      this.items := items;
    }
  }

  /** The entries a feed contributes; a missing feed or one without entries contributes none. */
  function FeedEntries(feed: Option<Feed>): seq<Entry> {
    if feed.None? then [] else feed.value.entries
  }

  /** The items loop of `get_structured_feed`: one item per entry, in order, absent fields as `""`. */
  method ItemsOf(entries: seq<Entry>) returns (items: seq<Item>)
    ensures |items| == |entries|
    ensures forall i :: 0 <= i < |entries| ==> items[i] == ItemOf(entries[i])
  {
    items := [];
    for i := 0 to |entries|
      invariant |items| == i
      invariant forall j :: 0 <= j < i ==> items[j] == ItemOf(entries[j])
    {
      items := items + [ItemOf(entries[i])];
    }
  }

  /** `get_structured_feed`: `{}` for a missing or entry-less feed, otherwise its channel and its items. */
  method GetStructuredFeed(feed: Option<Feed>) returns (data: StructuredFeed)
    ensures fresh(data)
    ensures FeedEntries(feed) == [] ==> data.channel == None && data.items == []
    ensures FeedEntries(feed) != [] ==> data.channel == Some(ChannelOf(feed.value.meta))
    ensures |data.items| == |FeedEntries(feed)|
    ensures forall i :: 0 <= i < |data.items| ==> data.items[i] == ItemOf(FeedEntries(feed)[i])
  {
    if feed.None? || feed.value.entries == [] {
      data := new StructuredFeed(None, []);
      return;
    }
    var items := ItemsOf(feed.value.entries);
    data := new StructuredFeed(Some(ChannelOf(feed.value.meta)), items);
  }

  // ---------------------------------------------------------------- recency

  /** The item's publication time: `None` when `pubDate` is empty or does not parse. */
  function PubStamp(parseDate: string -> Option<int>): Item -> Option<int> {
    (item: Item) => if item.pubDate == "" then None else parseDate(item.pubDate)
  }

  /** `filter_recent_items`: replaces the items of `data` in place by those published within `minutes`. */
  method FilterRecentItems(data: StructuredFeed, minutes: int, now: int, parseDate: string -> Option<int>)
    modifies data
    ensures data.items == Recent(old(data.items), PubStamp(parseDate), now, minutes * 60)
    ensures data.channel == old(data.channel)
  {
    var recentItems := KeepRecent(data.items, PubStamp(parseDate), now, minutes * 60);
    data.items := recentItems;
  }

  /** An item survives the filter exactly when its date is present, parses, and lies within the window. */
  lemma FlRecentItem(items: seq<Item>, parseDate: string -> Option<int>, now: int, minutes: int, it: Item)
    ensures it in Recent(items, PubStamp(parseDate), now, minutes * 60)
        <==> it in items && it.pubDate != "" && parseDate(it.pubDate).Some?
             && now - parseDate(it.pubDate).value <= minutes * 60
  {
    RecentMembers(items, PubStamp(parseDate), now, minutes * 60, it);
  }

  // ---------------------------------------------------------------- budget text

  /** The marker `[бБ]юджет` starts at index `i`. */
  predicate MarkerAt(text: string, i: nat) {
    i + 6 <= |text| && (text[i] == '\U{431}' || text[i] == '\U{411}') && text[i + 1..i + 6] == "\U{44e}\U{434}\U{436}\U{435}\U{442}"
  }

  /** The first index at or after `j` that is not whitespace (`\s*` taken greedily). */
  function SkipSpace(text: string, j: nat): (k: nat)
    requires j <= |text|
    ensures j <= k <= |text|
    ensures forall m :: j <= m < k ==> IsSpace(text[m])
    ensures k == |text| || !IsSpace(text[k])
    decreases |text| - j
  {
    if j < |text| && IsSpace(text[j]) then SkipSpace(text, j + 1) else j
  }

  /** The class `[\d\s,.]`. */
  predicate AmountChar(c: char) {
    IsDigit(c) || IsSpace(c) || c == ',' || c == '.'
  }

  /** The end of the longest run of `[\d\s,.]` starting at `j`. */
  function RunEnd(text: string, j: nat): (k: nat)
    requires j <= |text|
    ensures j <= k <= |text|
    ensures forall m :: j <= m < k ==> AmountChar(text[m])
    ensures k == |text| || !AmountChar(text[k])
    decreases |text| - j
  {
    if j < |text| && AmountChar(text[j]) then RunEnd(text, j + 1) else j
  }

  /**
   * The capture of `([\d\s,.]+)` when `[бБ]юджет\s*:\s*([\d\s,.]+)\s*(₽)?` matches at `i`.
   * After the colon the greedy `\s*` takes every blank; when no digit, comma or dot
   * follows, it gives the last blank back so that the group can match one character.
   * The trailing `\s*(₽)?` always matches and does not change the group.
   */
  function GroupAt(text: string, i: nat): Option<string> {
    if !MarkerAt(text, i) then None
    else
      var j := SkipSpace(text, i + 6);
      if j == |text| || text[j] != ':' then None
      else
        var k := SkipSpace(text, j + 1);
        if k < |text| && AmountChar(text[k]) then Some(text[k..RunEnd(text, k)])
        else if k > j + 1 then Some(text[k - 1..k])
        else None
  }

  /** `re.search`: the group of the leftmost match at or after `i`. */
  function Search(text: string, i: nat): Option<string>
    decreases |text| - i
  {
    if i >= |text| then None
    else match GroupAt(text, i)
      case Some(g) => Some(g)
      case None => Search(text, i + 1)
  }

  /** `num_str.replace(" ", "").replace(",", ".")`. */
  function Normalise(g: string): string {
    if g == [] then []
    else
      var rest := Normalise(g[1..]);
      if g[0] == ' ' then rest else if g[0] == ',' then ['.'] + rest else [g[0]] + rest
  }

  function DotCount(s: string): nat {
    if s == [] then 0 else (if s[0] == '.' then 1 else 0) + DotCount(s[1..])
  }

  predicate AllDigits(s: string) {
    forall i :: 0 <= i < |s| ==> IsDigit(s[i])
  }

  /** What `float()` accepts among strings of digits and dots: at most one dot and at least one digit. */
  predicate IsDecimal(t: string) {
    && (forall i :: 0 <= i < |t| ==> IsDigit(t[i]) || t[i] == '.')
    && DotCount(t) <= 1
    && (exists i :: 0 <= i < |t| && IsDigit(t[i]))
  }

  function DigitsValue(s: string): nat
    requires AllDigits(s)
  {
    if s == [] then 0 else DigitsValue(s[..|s| - 1]) * 10 + (s[|s| - 1] as int - '0' as int)
  }

  function Pow10(n: nat): (p: nat)
    ensures p >= 1
  {
    if n == 0 then 1 else 10 * Pow10(n - 1)
  }

  lemma DotFree(t: string)
    requires DotCount(t) == 0
    ensures '.' !in t
  {
    if t != [] { DotFree(t[1..]); }
  }

  lemma {:induction false} DotCountSplit(t: string, d: nat)
    requires d < |t| && t[d] == '.'
    ensures DotCount(t) == DotCount(t[..d]) + 1 + DotCount(t[d + 1..])
    decreases d
  {
    if d > 0 {
      DotCountSplit(t[1..], d - 1);
      assert t[1..][..d - 1] == t[1..d];
      assert t[1..][d..] == t[d + 1..];
      assert t[..d][1..] == t[1..d];
    } else {
      assert t[1..] == t[d + 1..];
    }
  }

  /** The number a decimal string denotes, exactly. */
  function DecimalValue(t: string): (v: real)
    requires IsDecimal(t)
    ensures v >= 0.0
  {
    match Find(t, ".", 0)
    case None =>
      assert AllDigits(t) by {
        forall i | 0 <= i < |t| ensures IsDigit(t[i]) {
          assert !OccursAt(t, ".", i);
          assert t[i..i + 1] == [t[i]];
        }
      }
      DigitsValue(t) as real
    case Some(d) =>
      assert t[d] == '.' by { assert t[d..d + 1] == "."; }
      DotCountSplit(t, d);
      assert DotCount(t[..d]) == 0 && DotCount(t[d + 1..]) == 0;
      DotFree(t[..d]);
      DotFree(t[d + 1..]);
      assert AllDigits(t[..d]) by {
        forall i | 0 <= i < d ensures IsDigit(t[..d][i]) { assert t[..d][i] in t[..d]; }
      }
      var frac := t[d + 1..];
      assert AllDigits(frac) by {
        forall i | 0 <= i < |frac| ensures IsDigit(frac[i]) { assert frac[i] in frac; }
      }
      (DigitsValue(t[..d]) as real) + (DigitsValue(t[d + 1..]) as real) / (Pow10(|t| - d - 1) as real)
  }

  /** `float(num_str.replace(" ", "").replace(",", "."))`, or `None` where that raises. */
  function AmountValue(g: string): Option<real> {
    var t := Strip(Normalise(g));
    if IsDecimal(t) then Some(DecimalValue(t)) else None
  }

  /** The result of `parse_budget` when nothing usable was found. */
  const NoBudget := Budget(None, None, None)

  /**
   * `parse_budget`: the amount after the first `Бюджет:` / `бюджет:` marker as both
   * minimum and maximum, in roubles; when there is no match, or the matched run is not
   * a number, every field is `None`. The currency is `₽` whether or not the sign
   * follows, since the source substitutes `₽` for a missing sign.
   */
  function ParseBudget(text: string): (b: Budget)
    ensures b == NoBudget || (b.minimum.Some? && b.maximum == b.minimum && b.currency == Some(Rouble))
    ensures b.minimum.Some? ==> b.minimum.value >= 0.0
  {
    match Search(text, 0)
    case None => NoBudget
    case Some(g) =>
      match AmountValue(g)
      case None => NoBudget
      case Some(v) => Budget(Some(v), Some(v), Some(Rouble))
  }

  lemma {:induction false} SearchFindsMarker(text: string, i: nat)
    requires Search(text, i).Some?
    ensures exists m :: i <= m && MarkerAt(text, m)
    decreases |text| - i
  {
    if GroupAt(text, i).None? {
      SearchFindsMarker(text, i + 1);
    }
  }

  /** A value is only ever read after a budget marker; text without one gives no budget. */
  lemma NoMarkerNoBudget(text: string)
    requires forall m :: !MarkerAt(text, m)
    ensures ParseBudget(text) == NoBudget
  {
    if Search(text, 0).Some? {
      SearchFindsMarker(text, 0);
    }
  }

  /** The two spellings of the marker the pattern accepts. */
  predicate IsMarker(m: string) {
    m == "\U{411}\U{44e}\U{434}\U{436}\U{435}\U{442}" || m == "\U{431}\U{44e}\U{434}\U{436}\U{435}\U{442}"
  }

  /**
   * The value `parse_budget` reads, for every text whose first marker is followed by a
   * colon and an amount: blanks around the colon are skipped, the group is the whole run
   * of digits, blanks, commas and points after them, and the budget is that run read by
   * `AmountValue` as both bounds in roubles, or no budget when the run is not a number.
   */
  lemma {:induction false} ParseBudgetReads(pre: string, m: string, ws1: string, ws2: string, run: string, rest: string)
    requires forall i :: !MarkerAt(pre, i)
    requires IsMarker(m)
    requires AllSpace(ws1) && AllSpace(ws2)
    requires run != [] && !IsSpace(run[0]) && forall i :: 0 <= i < |run| ==> AmountChar(run[i])
    requires rest == [] || !AmountChar(rest[0])
    ensures var b := ParseBudget(pre + m + ws1 + ":" + ws2 + run + rest);
            match AmountValue(run)
            case Some(v) => b == Budget(Some(v), Some(v), Some(Rouble))
            case None => b == NoBudget
  {
    var text := pre + m + ws1 + ":" + ws2 + run + rest;
    GroupAtLayout(pre, m, ws1, ws2, run, rest);
    NoMarkerBefore(text, pre);
    SearchSkips(text, 0, |pre|);
  }

  /** In a text laid out as `ParseBudgetReads` describes, the marker after `pre` captures `run`. */
  lemma GroupAtLayout(pre: string, m: string, ws1: string, ws2: string, run: string, rest: string)
    requires IsMarker(m)
    requires AllSpace(ws1) && AllSpace(ws2)
    requires run != [] && !IsSpace(run[0]) && forall i :: 0 <= i < |run| ==> AmountChar(run[i])
    requires rest == [] || !AmountChar(rest[0])
    ensures var text := pre + m + ws1 + ":" + ws2 + run + rest;
            && |pre| < |text| && text[..|pre|] == pre && MarkerAt(text, |pre|)
            && GroupAt(text, |pre|) == Some(run)
  {
    var text := pre + m + ws1 + ":" + ws2 + run + rest;
    var p := |pre|;
    var j := p + 6 + |ws1|;
    var k := j + 1 + |ws2|;
    var e := k + |run|;
    assert text[..p] == pre;
    assert text[p..p + 6] == m;
    assert MarkerAt(text, p) by {
      assert text[p + 1..p + 6] == m[1..];
    }
    forall x | p + 6 <= x < j ensures IsSpace(text[x]) {
      assert text[x] == ws1[x - p - 6];
    }
    assert text[j] == ':';
    forall x | j + 1 <= x < k ensures IsSpace(text[x]) {
      assert text[x] == ws2[x - j - 1];
    }
    forall x | k <= x < e ensures AmountChar(text[x]) {
      assert text[x] == run[x - k];
    }
    assert text[k] == run[0];
    assert e < |text| ==> text[e] == rest[0];
    assert text[k..e] == run;
    GroupAtReads(text, p, j, k, e);
  }

  /** The group read at a marker followed by blanks, a colon, blanks and a maximal run starting with a non-blank. */
  lemma GroupAtReads(text: string, p: nat, j: nat, k: nat, e: nat)
    requires MarkerAt(text, p)
    requires p + 6 <= j < |text| && text[j] == ':' && forall x :: p + 6 <= x < j ==> IsSpace(text[x])
    requires j + 1 <= k < e <= |text| && forall x :: j + 1 <= x < k ==> IsSpace(text[x])
    requires !IsSpace(text[k]) && forall x :: k <= x < e ==> AmountChar(text[x])
    requires e == |text| || !AmountChar(text[e])
    ensures GroupAt(text, p) == Some(text[k..e])
  {
    assert !IsSpace(':');
    assert SkipSpace(text, p + 6) == j;
    assert SkipSpace(text, j + 1) == k;
    assert RunEnd(text, k) == e;
  }

  /** A text that starts with `pre` and has a marker right after it has no marker inside `pre`. */
  lemma NoMarkerBefore(text: string, pre: string)
    requires |pre| <= |text| && text[..|pre|] == pre && MarkerAt(text, |pre|)
    requires forall i :: !MarkerAt(pre, i)
    ensures forall i :: 0 <= i < |pre| ==> !MarkerAt(text, i)
  {
    var p := |pre|;
    forall i | 0 <= i < p ensures !MarkerAt(text, i) {
      if i + 6 <= p {
        assert pre[i..i + 6] == text[i..i + 6];
        assert !MarkerAt(pre, i);
      } else if i + 6 <= |text| {
        assert text[i + 1..i + 6][p - i - 1] == text[p];
      }
    }
  }

  /** `re.search` passes over positions where no marker starts. */
  lemma {:induction false} SearchSkips(text: string, i: nat, p: nat)
    requires i <= p < |text|
    requires forall x :: i <= x < p ==> !MarkerAt(text, x)
    ensures Search(text, i) == Search(text, p)
    decreases p - i
  {
    if i < p {
      SearchSkips(text, i + 1, p);
    }
  }

  /** A title as FL.ru writes it: a grouped amount with a decimal comma and the rouble sign. */
  const GroupedSample := "\U{411}\U{44e}\U{434}\U{436}\U{435}\U{442}: 1 000,5 \U{20bd}"

  /** Spaces inside the amount are dropped and a decimal comma reads as a point. */
  lemma GroupedAmountRead()
    ensures ParseBudget(GroupedSample) == Budget(Some(1000.5), Some(1000.5), Some(Rouble))
  {
    GroupedSearch();
    GroupedValue();
  }

  lemma GroupedSearch()
    ensures Search(GroupedSample, 0) == Some("1 000,5 ")
  {
    var text := GroupedSample;
    assert MarkerAt(text, 0);
    assert SkipSpace(text, 6) == 6;
    assert SkipSpace(text, 7) == 8;
    GroupedRun();
    assert text[6] == ':' && AmountChar(text[8]);
    assert text[8..16] == "1 000,5 ";
  }

  lemma GroupedRun()
    ensures RunEnd(GroupedSample, 8) == 16
  {
    var text := GroupedSample;
    var k := 16;
    while k > 8
      invariant 8 <= k <= 16
      invariant RunEnd(text, k) == 16
    {
      assert AmountChar(text[k - 1]);
      k := k - 1;
    }
  }

  /** One character of `Normalise`: a space is dropped and a comma becomes a point. */
  lemma NormaliseStep(g: string, k: nat)
    requires k < |g|
    ensures Normalise(g[k..]) == (if g[k] == ' ' then [] else if g[k] == ',' then ['.'] else [g[k]]) + Normalise(g[k + 1..])
  {
    assert g[k..][1..] == g[k + 1..];
  }

  lemma GroupedValue()
    ensures AmountValue("1 000,5 ") == Some(1000.5)
  {
    var t := "1000.5";
    GroupedNormalise();
    assert !IsSpace(t[0]) && !IsSpace(t[|t| - 1]);
    StripStripped(t);
    OnePointDecimal();
  }

  lemma GroupedNormalise()
    ensures Normalise("1 000,5 ") == "1000.5"
  {
    var a, b := "1 000", ",5 ";
    assert a + b == "1 000,5 ";
    NormaliseAppend(a, b);
    NormaliseThousand();
    NormaliseHalf();
  }

  lemma NormaliseThousand()
    ensures Normalise("1 000") == "1000"
  {
    var a := "1 000";
    assert a[1..] == " 000" && a[2..] == "000" && a[3..] == "00" && a[4..] == "0";
  }

  lemma NormaliseHalf()
    ensures Normalise(",5 ") == ".5"
  {
    var b := ",5 ";
    assert b[1..] == "5 " && b[2..] == " ";
  }

  lemma {:induction false} NormaliseAppend(a: string, b: string)
    ensures Normalise(a + b) == Normalise(a) + Normalise(b)
    decreases |a|
  {
    if a != [] {
      assert (a + b)[0] == a[0];
      assert (a + b)[1..] == a[1..] + b;
      NormaliseAppend(a[1..], b);
    } else {
      assert a + b == b;
    }
  }

  lemma OnePointDecimal()
    ensures IsDecimal("1000.5") && DecimalValue("1000.5") == 1000.5
  {
    var t := "1000.5";
    OnePoint();
    assert IsDigit(t[0]);
    assert Find(t, ".", 0) == Some(4) by {
      assert !OccursAt(t, ".", 0) && !OccursAt(t, ".", 1) && !OccursAt(t, ".", 2) && !OccursAt(t, ".", 3);
      assert OccursAt(t, ".", 4);
    }
    OnePointParts();
  }

  lemma OnePoint()
    ensures DotCount("1000.5") == 1
  {
    var t := "1000.5";
    var k := 6;
    while k > 0
      invariant 0 <= k <= 6
      invariant DotCount(t[k..]) == (if k <= 4 then 1 else 0)
    {
      assert t[k - 1..][1..] == t[k..];
      k := k - 1;
    }
  }

  lemma OnePointParts()
    ensures "1000.5"[..4] == "1000" && "1000.5"[5..] == "5"
    ensures AllDigits("1000") && DigitsValue("1000") == 1000
    ensures AllDigits("5") && DigitsValue("5") == 5
  {
    assert "1000"[..3] == "100" && "100"[..2] == "10" && "10"[..1] == "1" && "1"[..0] == "";
    assert "5"[..0] == "";
  }

  /** A run that normalises to two points, such as `1.000,5`, is not a number: no budget. */
  lemma TwoPointsNoAmount()
    ensures AmountValue("1.000,5") == None
  {
    var g, t := "1.000,5", "1.000.5";
    var k := |g|;
    while k > 0
      invariant 0 <= k <= |g|
      invariant Normalise(g[k..]) == t[k..]
    {
      NormaliseStep(g, k - 1);
      assert t[k - 1..] == [t[k - 1]] + t[k..];
      k := k - 1;
    }
    assert g[0..] == g && t[0..] == t;
    assert !IsSpace(t[0]) && !IsSpace(t[|t| - 1]);
    StripStripped(t);
    TwoPointsNotDecimal();
  }

  lemma TwoPointsNotDecimal()
    ensures !IsDecimal("1.000.5")
  {
    var t := "1.000.5";
    var k := 7;
    while k > 0
      invariant 0 <= k <= 7
      invariant DotCount(t[k..]) == (if k <= 1 then 2 else if k <= 5 then 1 else 0)
    {
      assert t[k - 1..][1..] == t[k..];
      k := k - 1;
    }
  }

  // ---------------------------------------------------------------- publishing

  /** `filter_recent_items(structured_data, minutes=500)`. */
  const FlWindowMinutes := 500

  /** The budget of an item: from the title, or from the description when the title yields no minimum. */
  function ItemBudget(item: Item): Budget {
    var b := ParseBudget(item.title);
    if b.minimum.None? then ParseBudget(item.description) else b
  }

  /**
   * An item as the dedup pass sees it: its id is the guid, or the link when the guid is
   * empty, and an item with neither has no key.
   */
  function FlCandidate(item: Item): (c: Candidate)
    ensures c.key.None? <==> item.guid == "" && item.link == ""
    ensures c.key.Some? ==> c.key == Some("fl:" + (if item.guid != "" then item.guid else item.link))
    ensures c.payload == Payload(StrId(if item.guid != "" then item.guid else item.link),
                                 Some(item.title), Some(item.description), item.link,
                                 if ParseBudget(item.title).minimum.Some? then ParseBudget(item.title)
                                 else ParseBudget(item.description))
    ensures c.payload.budget == NoBudget || c.payload.budget.currency == Some(Rouble)
  {
    var projectId := if item.guid != "" then item.guid else item.link;
    var key := if projectId == "" then None else Some(DedupKey("fl", StrId(projectId)));
    assert DedupKey("fl", StrId(projectId)) == "fl:" + projectId;
    Candidate(key, Payload(StrId(projectId), Some(item.title), Some(item.description), item.link, ItemBudget(item)))
  }

  function FlCandidates(items: seq<Item>): seq<Candidate> {
    seq(|items|, i requires 0 <= i < |items| => FlCandidate(items[i]))
  }

  /** The items a cycle considers: those of the feed published in the last `FlWindowMinutes` minutes. */
  function FlRecent(feed: Option<Feed>, now: int, parseDate: string -> Option<int>): seq<Item> {
    var entries := FeedEntries(feed);
    Recent(seq(|entries|, i requires 0 <= i < |entries| => ItemOf(entries[i])),
           PubStamp(parseDate), now, FlWindowMinutes * 60)
  }

  /**
   * `process_rss_projects`, one cycle at time `now`: every recent item whose key is not
   * live is published on `fl_projects`, and its key is then set for `Ttl` seconds.
   */
  method ProcessRssProjects(feed: Option<Feed>, now: int, parseDate: string -> Option<int>, redis: Redis)
    modifies redis
    ensures var r := Pass(FlCandidates(FlRecent(feed, now, parseDate)), old(redis.expiry), now);
      && redis.log == old(redis.log) + Records(FlChannel, r.published)
      && redis.expiry == r.expiry
  {
    if feed.None? {
      assert FlRecent(feed, now, parseDate) == [];
      assert FlCandidates([]) == [];
      return;
    }
    var data := GetStructuredFeed(feed);
    ghost var entries := FeedEntries(feed);
    assert data.items == seq(|entries|, i requires 0 <= i < |entries| => ItemOf(entries[i]));
    FilterRecentItems(data, FlWindowMinutes, now, parseDate);
    assert data.items == FlRecent(feed, now, parseDate);
    PublishItems(data.items, now, redis);
  }

  /** The pass step for one item, spelled out in the terms the loop tests. */
  lemma FlStep(r0: PassResult, item: Item, now: int)
    ensures var projectId := if item.guid != "" then item.guid else item.link;
      var key := DedupKey("fl", StrId(projectId));
      Step(r0, FlCandidate(item), now)
        == if projectId == "" || Live(r0.expiry, key, now) then r0
           else PassResult(r0.published + [Published(key, FlCandidate(item).payload)], r0.expiry[key := now + Ttl])
  {
  }

  /** The loop body for one item: publish and mark it unless it has no id or was seen within the TTL. */
  method PublishItem(item: Item, now: int, redis: Redis, ghost r0: PassResult, ghost log0: seq<Record>)
    requires redis.expiry == r0.expiry
    requires redis.log == log0 + Records(FlChannel, r0.published)
    modifies redis
    ensures var r1 := Step(r0, FlCandidate(item), now);
      && redis.log == log0 + Records(FlChannel, r1.published)
      && redis.expiry == r1.expiry
  {
    FlStep(r0, item, now);
    var projectId := if item.guid != "" then item.guid else item.link;
    if projectId != "" {
      var redisKey := DedupKey("fl", StrId(projectId));
      if !redis.Exists(redisKey, now) {
        var budget := ParseBudget(item.title);
        if budget.minimum.None? {
          budget := ParseBudget(item.description);
        }
        var message := Payload(StrId(projectId), Some(item.title), Some(item.description), item.link, budget);
        assert message == FlCandidate(item).payload;
        redis.Publish(FlChannel, message);
        redis.Set(redisKey, Ttl, now);
        LogSnoc(log0, redis.log, FlChannel, r0.published, Published(redisKey, message));
      }
    }
  }

  /** The loop of `process_rss_projects` over the recent items. */
  method PublishItems(items: seq<Item>, now: int, redis: Redis)
    modifies redis
    ensures var r := Pass(FlCandidates(items), old(redis.expiry), now);
      && redis.log == old(redis.log) + Records(FlChannel, r.published)
      && redis.expiry == r.expiry
  {
    ghost var cs := FlCandidates(items);
    ghost var e0 := redis.expiry;
    ghost var log0 := redis.log;
    ghost var r0 := Pass([], e0, now);
    var i := 0;
    while i < |items|
      invariant 0 <= i <= |items|
      invariant r0 == Pass(cs[..i], e0, now)
      invariant redis.log == log0 + Records(FlChannel, r0.published)
      invariant redis.expiry == r0.expiry
    {
      PassSnoc(cs, i, e0, now);
      PublishItem(items[i], now, redis, r0, log0);
      r0 := Step(r0, cs[i], now);
      i := i + 1;
    }
    assert cs[..|items|] == cs;
  }
}
