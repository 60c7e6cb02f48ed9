/**
 * The Kwork adapter: cut the `"wantsListData":` object out of the rendered projects
 * page, read its project list, keep the projects created recently (Kwork dates are
 * local time in UTC+3), and publish each new project on `kwork_projects` under the
 * dedup key `kwork:{id}`.
 *
 * The browser that renders the page, `json.loads` and `strptime` are outside the
 * model: the page arrives as a string, decoding is a function passed in (`decode`,
 * `None` where `json.loads` raises), and `parseLocal` reads `YYYY-MM-DD HH:MM:SS` as
 * seconds on the local clock face, `None` where it does not parse.
 */
module Kwork {
  import opened Wrappers
  import opened Text
  import opened Posting
  import opened RedisStore
  import opened Recency

  // ---------------------------------------------------------------- the brace scanner

  /** The number of occurrences of `c` in `s`. */
  function Count(s: string, c: char): nat
    decreases |s|
  {
    if s == [] then 0 else Count(s[..|s| - 1], c) + (if s[|s| - 1] == c then 1 else 0)
  }

  /** How many `{` are still open after reading `s`. */
  function Depth(s: string): int {
    Count(s, '{') - Count(s, '}')
  }

  lemma DepthSnoc(s: string, c: char)
    ensures Depth(s + [c]) == Depth(s) + (if c == '{' then 1 else if c == '}' then -1 else 0)
  {
    assert (s + [c])[..|s|] == s;
  }

  /** Reading from `start`, the counter comes back to zero on the `}` at `i`. */
  predicate CloseAt(text: string, start: nat, i: nat) {
    start <= i < |text| && text[i] == '}' && Depth(text[start..i + 1]) == 0
  }

  /** The first index at or after `i` where the counter started at `start` closes. */
  function CloseFrom(text: string, start: nat, i: nat): (r: Option<nat>)
    ensures r.Some? ==> i <= r.value && CloseAt(text, start, r.value)
    ensures r.Some? ==> forall j :: i <= j < r.value ==> !CloseAt(text, start, j)
    ensures r.None? ==> forall j :: i <= j ==> !CloseAt(text, start, j)
    decreases |text| - i
  {
    if i >= |text| then None
    else if CloseAt(text, start, i) then Some(i)
    else CloseFrom(text, start, i + 1)
  }

  /**
   * What `extract_json_object(text, start)` returns: the text from `start` through the
   * first `}` at which the counter is back to zero, or `""` when it never is.
   */
  function JsonObject(text: string, start: nat): (r: string)
    ensures r == "" <==> forall i :: !CloseAt(text, start, i)
    ensures r != "" ==> exists i :: CloseAt(text, start, i) && r == text[start..i + 1]
                                  && forall j :: j < i ==> !CloseAt(text, start, j)
  {
    match CloseFrom(text, start, start)
    case None => ""
    case Some(i) => text[start..i + 1]
  }

  /** `extract_json_object`: the counter loop over `text[start:]`. */
  method ExtractJsonObject(text: string, start: nat) returns (r: string)
    ensures r == JsonObject(text, start)
  {
    if start > |text| {
      return "";
    }
    var counter := 0;
    for i := start to |text|
      invariant counter == Depth(text[start..i])
      invariant forall j :: start <= j < i ==> !CloseAt(text, start, j)
    {
      var c := text[i];
      assert text[start..i + 1] == text[start..i] + [c];
      DepthSnoc(text[start..i], c);
      if c == '{' {
        counter := counter + 1;
      } else if c == '}' {
        counter := counter - 1;
        if counter == 0 {
          assert CloseAt(text, start, i);
          return text[start..i + 1];
        }
      }
    }
    return "";
  }

  /** Until the counter closes, an object opened at `start` stays open. */
  lemma {:induction false} OpenUntilClose(text: string, start: nat, i: nat, j: nat)
    requires start <= j < i < |text| && text[start] == '{'
    requires forall m :: start <= m < i ==> !CloseAt(text, start, m)
    ensures Depth(text[start..j + 1]) >= 1
    decreases j
  {
    if j == start {
      assert text[start..j + 1] == [] + ['{'];
      DepthSnoc([], '{');
    } else {
      OpenUntilClose(text, start, i, j - 1);
      assert text[start..j + 1] == text[start..j] + [text[j]];
      DepthSnoc(text[start..j], text[j]);
      assert !CloseAt(text, start, j);
    }
  }

  /**
   * When the scan starts on `{`, a non-empty result is a balanced object: it opens with
   * `{`, closes with `}`, has as many `{` as `}`, and every proper non-empty prefix has
   * strictly more `{` than `}`.
   */
  lemma BalancedObject(text: string, start: nat)
    requires start < |text| && text[start] == '{'
    requires JsonObject(text, start) != ""
    ensures var r := JsonObject(text, start);
      && r[0] == '{' && r[|r| - 1] == '}'
      && Count(r, '{') == Count(r, '}')
      && forall k :: 1 <= k < |r| ==> Count(r[..k], '{') > Count(r[..k], '}')
  {
    var r := JsonObject(text, start);
    var i :| CloseAt(text, start, i) && r == text[start..i + 1] && forall j :: j < i ==> !CloseAt(text, start, j);
    forall k | 1 <= k < |r| ensures Count(r[..k], '{') > Count(r[..k], '}') {
      assert r[..k] == text[start..start + k - 1 + 1];
      OpenUntilClose(text, start, i, start + k - 1);
    }
  }

  // ---------------------------------------------------------------- the page

  /** A project of the page's list; `None` marks a key the project does not have (or JSON `null`). */
  datatype Project = Project(id: Id, name: Option<string>, description: Option<string>,
                             priceLimit: Option<real>, possiblePriceLimit: Option<real>,
                             dateCreate: Option<string>)

  /** The decoded object's `pagination` entry and, within it, the `data` list; `None` where the key is missing. */
  datatype Pagination = Pagination(data: Option<seq<Project>>)
  datatype Page = Page(pagination: Option<Pagination>)

  const WantsKey := "\"wantsListData\":"

  /** Where `extract_projects_from_json` starts its object: the first `{` at or after the first `"wantsListData":`. */
  function ObjectStart(html: string): (i: Option<nat>)
    ensures i.Some? ==> i.value < |html| && html[i.value] == '{'
    ensures i.Some? ==> Find(html, WantsKey, 0).Some? && Find(html, WantsKey, 0).value < i.value
    ensures i.None? <==> Find(html, WantsKey, 0).None? || Find(html, "{", Find(html, WantsKey, 0).value).None?
  {
    match Find(html, WantsKey, 0)
    case None => None
    case Some(index) =>
      assert html[index] == '"';
      Find(html, "{", index)
  }

  /**
   * `extract_projects_from_json`: the projects of the object that follows the first
   * `"wantsListData":`, and `[]` when the key is missing, no `{` follows it, no balanced
   * object is found, or the object does not decode.
   */
  function ExtractProjectsFromJson(html: string, decode: string -> Option<Page>): (ps: seq<Project>)
    ensures Find(html, WantsKey, 0).None? ==> ps == []
    ensures Find(html, WantsKey, 0).Some? && Find(html, "{", Find(html, WantsKey, 0).value).None? ==> ps == []
    ensures ObjectStart(html).Some? && JsonObject(html, ObjectStart(html).value) == "" ==> ps == []
    ensures ps != [] ==> && ObjectStart(html).Some?
                         && var obj := JsonObject(html, ObjectStart(html).value);
                            && obj != "" && decode(obj).Some?
                            && decode(obj).value.pagination == Some(Pagination(Some(ps)))
    ensures ObjectStart(html).Some? ==>
              var obj := JsonObject(html, ObjectStart(html).value);
              (obj != "" && decode(obj).Some? && decode(obj).value.pagination.Some?
               && decode(obj).value.pagination.value.data.Some?)
              ==> ps == decode(obj).value.pagination.value.data.value
  {
    match ObjectStart(html)
    case None => []
    case Some(startIndex) =>
      var jsonText := JsonObject(html, startIndex);
      if jsonText == "" then []
      else
        match decode(jsonText)
        case None => []
        case Some(data) =>
          var pagination := data.pagination.GetOr(Pagination(None));
          pagination.data.GetOr([])
  }

  // ---------------------------------------------------------------- recency

  /** Kwork dates are UTC+3 wall-clock times. */
  const KworkOffset := 3 * 3600

  /** The project's creation time in epoch seconds: `None` when `date_create` is missing, empty or unparseable. */
  function CreatedStamp(parseLocal: string -> Option<int>): Project -> Option<int> {
    (p: Project) =>
      if p.dateCreate.None? || p.dateCreate.value == "" then None
      else match parseLocal(p.dateCreate.value)
        case None => None
        case Some(t) => Some(t - KworkOffset)
  }

  /** `filter_recent_projects`: the projects created within `minutes`, in order. */
  method FilterRecentProjects(projects: seq<Project>, minutes: int, now: int, parseLocal: string -> Option<int>)
    returns (recentProjects: seq<Project>)
    ensures recentProjects == Recent(projects, CreatedStamp(parseLocal), now, minutes * 60)
  {
    recentProjects := KeepRecent(projects, CreatedStamp(parseLocal), now, minutes * 60);
  }

  /** A project is kept exactly when its date is present, parses, and is at most `minutes` old once read as UTC+3. */
  lemma KworkRecentProject(projects: seq<Project>, parseLocal: string -> Option<int>, now: int, minutes: int, p: Project)
    ensures p in Recent(projects, CreatedStamp(parseLocal), now, minutes * 60)
        <==> p in projects && p.dateCreate.Some? && p.dateCreate.value != ""
             && parseLocal(p.dateCreate.value).Some?
             && now - (parseLocal(p.dateCreate.value).value - 3 * 3600) <= minutes * 60
  {
    RecentMembers(projects, CreatedStamp(parseLocal), now, minutes * 60, p);
  }

  // ---------------------------------------------------------------- publishing

  /** `filter_recent_projects(projects, minutes=500)`. */
  const KworkWindowMinutes := 500

  const ProjectsUrl := "https://kwork.ru/projects/"

  /** A project as the dedup pass sees it: keyed by its id, which must be truthy. */
  function KworkCandidate(p: Project): (c: Candidate)
    ensures c.key.None? <==> !IdPresent(p.id)
    ensures c.key.Some? ==> c.key.value == "kwork:" + IdText(p.id)
    ensures c.payload.url == ProjectsUrl + IdText(p.id)
    ensures c.payload.budget == Budget(p.priceLimit, p.possiblePriceLimit, Some(Rouble))
    ensures c.payload.id == p.id && c.payload.title == p.name && c.payload.description == p.description
  {
    var key := if IdPresent(p.id) then Some(DedupKey("kwork", p.id)) else None;
    Candidate(key, Payload(p.id, p.name, p.description, ProjectsUrl + IdText(p.id),
                           Budget(p.priceLimit, p.possiblePriceLimit, Some(Rouble))))
  }

  function KworkCandidates(ps: seq<Project>): seq<Candidate> {
    seq(|ps|, i requires 0 <= i < |ps| => KworkCandidate(ps[i]))
  }

  /** The projects a cycle considers: those on the page created in the last `KworkWindowMinutes` minutes. */
  function KworkRecent(html: string, decode: string -> Option<Page>, now: int, parseLocal: string -> Option<int>): seq<Project> {
    Recent(ExtractProjectsFromJson(html, decode), CreatedStamp(parseLocal), now, KworkWindowMinutes * 60)
  }

  /** The pass step for one project, spelled out in the terms the loop tests. */
  lemma KworkStep(r0: PassResult, p: Project, now: int)
    ensures var key := DedupKey("kwork", p.id);
      Step(r0, KworkCandidate(p), now)
        == if !IdPresent(p.id) || Live(r0.expiry, key, now) then r0
           else PassResult(r0.published + [Published(key, KworkCandidate(p).payload)], r0.expiry[key := now + Ttl])
  {
  }

  /**
   * `process_kwork_projects`, one cycle at time `now` on the page `html`: every recent
   * project whose key is not live is published on `kwork_projects`, and its key is then
   * set for `Ttl` seconds.
   */
  method ProcessKworkProjects(html: string, decode: string -> Option<Page>, now: int,
                              parseLocal: string -> Option<int>, redis: Redis)
    modifies redis
    ensures var r := Pass(KworkCandidates(KworkRecent(html, decode, now, parseLocal)), old(redis.expiry), now);
      && redis.log == old(redis.log) + Records(KworkChannel, r.published)
      && redis.expiry == r.expiry
  {
    var projects := ExtractProjectsFromJson(html, decode);
    var recentProjects := FilterRecentProjects(projects, KworkWindowMinutes, now, parseLocal);
    PublishProjects(recentProjects, now, redis);
  }

  /** The loop body for one project: publish and mark it unless it has no id or was seen within the TTL. */
  method PublishProject(proj: Project, now: int, redis: Redis, ghost r0: PassResult, ghost log0: seq<Record>)
    requires redis.expiry == r0.expiry
    requires redis.log == log0 + Records(KworkChannel, r0.published)
    modifies redis
    ensures var r1 := Step(r0, KworkCandidate(proj), now);
      && redis.log == log0 + Records(KworkChannel, r1.published)
      && redis.expiry == r1.expiry
  {
    KworkStep(r0, proj, now);
    var projectId := proj.id;
    if IdPresent(projectId) {
      var redisKey := DedupKey("kwork", projectId);
      if !redis.Exists(redisKey, now) {
        var budget := Budget(proj.priceLimit, proj.possiblePriceLimit, Some(Rouble));
        var message := Payload(projectId, proj.name, proj.description, ProjectsUrl + IdText(projectId), budget);
        redis.Publish(KworkChannel, message);
        redis.Set(redisKey, Ttl, now);
        LogSnoc(log0, redis.log, KworkChannel, r0.published, Published(redisKey, message));
      }
    }
  }

  /** The loop of `process_kwork_projects` over the recent projects. */
  method PublishProjects(projects: seq<Project>, now: int, redis: Redis)
    modifies redis
    ensures var r := Pass(KworkCandidates(projects), old(redis.expiry), now);
      && redis.log == old(redis.log) + Records(KworkChannel, r.published)
      && redis.expiry == r.expiry
  {
    ghost var cs := KworkCandidates(projects);
    ghost var e0 := redis.expiry;
    ghost var log0 := redis.log;
    ghost var r0 := Pass([], e0, now);
    var i := 0;
    while i < |projects|
      invariant 0 <= i <= |projects|
      invariant r0 == Pass(cs[..i], e0, now)
      invariant redis.log == log0 + Records(KworkChannel, r0.published)
      invariant redis.expiry == r0.expiry
    {
      PassSnoc(cs, i, e0, now);
      PublishProject(projects[i], now, redis, r0, log0);
      r0 := Step(r0, cs[i], now);
      i := i + 1;
    }
    assert cs[..|projects|] == cs;
  }
}
