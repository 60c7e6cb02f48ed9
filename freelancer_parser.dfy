/**
 * The Freelancer.com adapter: take the answer of a project search, keep the projects
 * submitted in the last `interval` seconds, and publish each new project on
 * `freelancer_projects` under the dedup key `freelancer:{id}`. `Run` repeats the
 * cycle, and a cycle that raises is reported and skipped.
 *
 * The SDK session and the search request are outside the model: each cycle receives
 * the search's answer as a `Response` value, and the time as integer seconds.
 */
module Freelancer {
  import opened Wrappers
  import opened Posting
  import opened RedisStore
  import opened Recency

  /** The project's `budget` object; `None` marks a missing bound. */
  datatype ProjectBudget = ProjectBudget(minimum: Option<real>, maximum: Option<real>)

  /** The project's `currency` object, read only for its `sign`. */
  datatype Currency = Currency(sign: Option<string>)

  /** A project of the search answer; `None` marks a key the project does not have. */
  datatype Project = Project(id: Id, title: Option<string>, description: Option<string>,
                             previewDescription: Option<string>, seoUrl: Option<string>,
                             url: Option<string>, budget: Option<ProjectBudget>,
                             currency: Option<Currency>, submitdate: Option<int>)

  /**
   * The answer of `search_projects`: it raised (and the cycle with it), it raised
   * `ProjectsNotFoundException` (so `get_projects` returns `None`), or it returned a
   * dictionary whose `projects` key may be missing.
   */
  datatype Response = Raised | NotFound | Found(projects: Option<seq<Project>>)

  /** `get_recent_projects(interval_seconds=360)`. */
  const DefaultInterval := 360

  /** The submission time the filter compares: `submitdate`, or `0` when it is missing. */
  function SubmitStamp(p: Project): Option<int> {
    Some(p.submitdate.GetOr(0))
  }

  /** What `get_recent_projects` returns, or `None` when it raises. */
  function RecentOf(response: Response, now: int, interval: int): (r: Option<seq<Project>>)
    ensures response.Raised? <==> r.None?
    ensures response.NotFound? ==> r == Some([])
    ensures r.Some? ==> forall p :: p in r.value <==>
              response.Found? && p in response.projects.GetOr([]) && now - p.submitdate.GetOr(0) <= interval
  {
    match response
    case Raised => None
    case NotFound => Some([])
    case Found(projects) =>
      var ps := projects.GetOr([]);
      assert forall p :: p in Recent(ps, SubmitStamp, now, interval) <==> p in ps && now - p.submitdate.GetOr(0) <= interval by {
        forall p ensures p in Recent(ps, SubmitStamp, now, interval) <==> p in ps && now - p.submitdate.GetOr(0) <= interval {
          RecentMembers(ps, SubmitStamp, now, interval, p);
        }
      }
      Some(Recent(ps, SubmitStamp, now, interval))
  }

  /** The description published: `description`, or `preview_description` when that is missing or empty. */
  function DescriptionOf(p: Project): Option<string> {
    if p.description.Some? && p.description.value != "" then p.description else p.previewDescription
  }

  /** The url published: the site's page for a non-empty `seo_url`, else the project's `url`, else `""`. */
  function UrlOf(baseUrl: string, p: Project): string {
    if p.seoUrl.Some? && p.seoUrl.value != "" then baseUrl + "/projects/" + p.seoUrl.value
    else p.url.GetOr("")
  }

  /** The budget published: both bounds as given (`None` without a budget object), and the currency sign if any. */
  function BudgetOf(p: Project): Budget {
    var b := p.budget.GetOr(ProjectBudget(None, None));
    Budget(b.minimum, b.maximum, if p.currency.Some? then p.currency.value.sign else None)
  }

  /** A project as the dedup pass sees it. */
  function FreelancerCandidate(baseUrl: string, p: Project): (c: Candidate)
    ensures c.key.None? <==> !IdPresent(p.id)
    ensures c.key.Some? ==> c.key.value == "freelancer:" + IdText(p.id)
    ensures c.payload.id == p.id && c.payload.title == p.title
    ensures p.description.Some? && p.description.value != "" ==> c.payload.description == p.description
    ensures p.description.None? || p.description.value == "" ==> c.payload.description == p.previewDescription
    ensures p.seoUrl.Some? && p.seoUrl.value != "" ==> c.payload.url == baseUrl + "/projects/" + p.seoUrl.value
    ensures p.seoUrl.None? || p.seoUrl.value == "" ==> c.payload.url == p.url.GetOr("")
    ensures p.budget.Some? ==> c.payload.budget.minimum == p.budget.value.minimum
                               && c.payload.budget.maximum == p.budget.value.maximum
    ensures p.budget.None? ==> c.payload.budget.minimum.None? && c.payload.budget.maximum.None?
    ensures c.payload.budget.currency == (if p.currency.Some? then p.currency.value.sign else None)
  {
    var key := if IdPresent(p.id) then Some(DedupKey("freelancer", p.id)) else None;
    Candidate(key, Payload(p.id, p.title, DescriptionOf(p), UrlOf(baseUrl, p), BudgetOf(p)))
  }

  function FreelancerCandidates(baseUrl: string, ps: seq<Project>): seq<Candidate> {
    seq(|ps|, i requires 0 <= i < |ps| => FreelancerCandidate(baseUrl, ps[i]))
  }

  /** The pass step for one project, spelled out in the terms the loop tests. */
  lemma FreelancerStep(baseUrl: string, r0: PassResult, p: Project, now: int)
    ensures var key := DedupKey("freelancer", p.id);
      Step(r0, FreelancerCandidate(baseUrl, p), now)
        == if !IdPresent(p.id) || Live(r0.expiry, key, now) then r0
           else PassResult(r0.published + [Published(key, FreelancerCandidate(baseUrl, p).payload)], r0.expiry[key := now + Ttl])
  {
  }

  /** The Redis state a cycle reads and writes. */
  datatype Store = Store(log: seq<Record>, expiry: map<string, int>)

  /** One cycle: the search's answer and the time at which it runs. */
  datatype Cycle = Cycle(response: Response, now: int)

  /** The store after one cycle: unchanged when the cycle raises, otherwise after the dedup pass. */
  function AfterCycle(baseUrl: string, st: Store, c: Cycle): Store {
    match RecentOf(c.response, c.now, DefaultInterval)
    case None => st
    case Some(recent) =>
      var r := Pass(FreelancerCandidates(baseUrl, recent), st.expiry, c.now);
      Store(st.log + Records(FreelancerChannel, r.published), r.expiry)
  }

  /** The store after the cycles, in order. */
  function AfterCycles(baseUrl: string, st: Store, cs: seq<Cycle>): Store
    decreases |cs|
  {
    if cs == [] then st else AfterCycles(baseUrl, AfterCycle(baseUrl, st, cs[0]), cs[1..])
  }

  lemma {:induction false} AfterCyclesAppend(baseUrl: string, st: Store, xs: seq<Cycle>, ys: seq<Cycle>)
    ensures AfterCycles(baseUrl, st, xs + ys) == AfterCycles(baseUrl, AfterCycles(baseUrl, st, xs), ys)
    decreases |xs|
  {
    if xs == [] {
      assert xs + ys == ys;
    } else {
      assert (xs + ys)[0] == xs[0];
      assert (xs + ys)[1..] == xs[1..] + ys;
      AfterCyclesAppend(baseUrl, AfterCycle(baseUrl, st, xs[0]), xs[1..], ys);
    }
  }

  /** A cycle that raises changes nothing, and the cycles after it run as if it had not happened. */
  lemma RaisedCycleSkipped(baseUrl: string, st: Store, xs: seq<Cycle>, now: int, ys: seq<Cycle>)
    ensures AfterCycles(baseUrl, st, xs + [Cycle(Raised, now)] + ys) == AfterCycles(baseUrl, st, xs + ys)
  {
    AfterCyclesAppend(baseUrl, st, xs + [Cycle(Raised, now)], ys);
    AfterCyclesAppend(baseUrl, st, xs, [Cycle(Raised, now)]);
    AfterCyclesAppend(baseUrl, st, xs, ys);
    var mid := AfterCycles(baseUrl, st, xs);
    assert AfterCycles(baseUrl, mid, [Cycle(Raised, now)]) == AfterCycles(baseUrl, mid, []);
  }

  /** Whether `FLN_URL` and `FLN_OAUTH_TOKEN` are both set to non-empty values. */
  predicate ConfigOk(envUrl: Option<string>, envToken: Option<string>) {
    envUrl.Some? && envUrl.value != "" && envToken.Some? && envToken.value != ""
  }

  class FreelancerParser {
    /** `FreelancerParser.URL`, the site root read from `FLN_URL`. */
    const url: string
    const oauthToken: string
    const redisClient: Redis

    constructor (url: string, oauthToken: string, redisClient: Redis)
      requires url != "" && oauthToken != ""
      ensures this.url == url && this.oauthToken == oauthToken && this.redisClient == redisClient
    {
      this.url := url;
      this.oauthToken := oauthToken;
      this.redisClient := redisClient;
    }

    /** `get_recent_projects`: `None` when the search raised. */
    method GetRecentProjects(response: Response, now: int, intervalSeconds: int) returns (recent: Option<seq<Project>>)
      ensures recent == RecentOf(response, now, intervalSeconds)
    {
      if response.Raised? {
        return None;
      }
      if response.NotFound? {
        return Some([]);
      }
      var projects := response.projects.GetOr([]);
      var kept := KeepRecent(projects, SubmitStamp, now, intervalSeconds);
      return Some(kept);
    }

    /**
     * `freelancer_parser_run`, one cycle: when the search succeeds, every recent project
     * whose key is not live is published on `freelancer_projects`, and its key is then
     * set for `Ttl` seconds; when it raises, nothing is published or set.
     */
    method FreelancerParserRun(c: Cycle) returns (raised: bool)
      modifies redisClient
      ensures raised <==> c.response.Raised?
      ensures Store(redisClient.log, redisClient.expiry)
              == AfterCycle(url, Store(old(redisClient.log), old(redisClient.expiry)), c)
    {
      var recent := GetRecentProjects(c.response, c.now, DefaultInterval);
      if recent.None? {
        return true;
      }
      PublishProjects(recent.value, c.now);
      return false;
    }

    /** The loop body for one project: publish and mark it unless it has no id or was seen within the TTL. */
    method PublishProject(project: Project, now: int, ghost r0: PassResult, ghost log0: seq<Record>)
      requires redisClient.expiry == r0.expiry
      requires redisClient.log == log0 + Records(FreelancerChannel, r0.published)
      modifies redisClient
      ensures var r1 := Step(r0, FreelancerCandidate(url, project), now);
        && redisClient.log == log0 + Records(FreelancerChannel, r1.published)
        && redisClient.expiry == r1.expiry
    {
      FreelancerStep(url, r0, project, now);
      var projectId := project.id;
      if IdPresent(projectId) {
        var redisKey := DedupKey("freelancer", projectId);
        if !redisClient.Exists(redisKey, now) {
          var title := project.title;
          var description := if project.description.Some? && project.description.value != ""
                             then project.description else project.previewDescription;
          var pageUrl;
          if project.seoUrl.Some? && project.seoUrl.value != "" {
            pageUrl := url + "/projects/" + project.seoUrl.value;
          } else {
            pageUrl := project.url.GetOr("");
          }
          var budgetObj := project.budget.GetOr(ProjectBudget(None, None));
          var budget := Budget(budgetObj.minimum, budgetObj.maximum, None);
          if project.currency.Some? {
            budget := budget.(currency := project.currency.value.sign);
          }
          var message := Payload(projectId, title, description, pageUrl, budget);
          assert message == FreelancerCandidate(url, project).payload;
          redisClient.Publish(FreelancerChannel, message);
          redisClient.Set(redisKey, Ttl, now);
          LogSnoc(log0, redisClient.log, FreelancerChannel, r0.published, Published(redisKey, message));
        }
      }
    }

    /** The loop of `freelancer_parser_run` over the recent projects. */
    method PublishProjects(projects: seq<Project>, now: int)
      modifies redisClient
      ensures var r := Pass(FreelancerCandidates(url, projects), old(redisClient.expiry), now);
        && redisClient.log == old(redisClient.log) + Records(FreelancerChannel, r.published)
        && redisClient.expiry == r.expiry
    {
      ghost var cs := FreelancerCandidates(url, projects);
      ghost var e0 := redisClient.expiry;
      ghost var log0 := redisClient.log;
      ghost var r0 := Pass([], e0, now);
      var i := 0;
      while i < |projects|
        invariant 0 <= i <= |projects|
        invariant r0 == Pass(cs[..i], e0, now)
        invariant redisClient.log == log0 + Records(FreelancerChannel, r0.published)
        invariant redisClient.expiry == r0.expiry
      {
        PassSnoc(cs, i, e0, now);
        PublishProject(projects[i], now, r0, log0);
        r0 := Step(r0, cs[i], now);
        i := i + 1;
      }
      assert cs[..|projects|] == cs;
    }

    /**
     * `run`, over a finite run of cycles: each cycle runs in turn, and one that raises is
     * reported and skipped; `failures` counts those.
     */
    method Run(cycles: seq<Cycle>) returns (failures: nat)
      modifies redisClient
      ensures Store(redisClient.log, redisClient.expiry)
              == AfterCycles(url, Store(old(redisClient.log), old(redisClient.expiry)), cycles)
      ensures failures == |set i | 0 <= i < |cycles| && cycles[i].response.Raised?|
    {
      ghost var st0 := Store(redisClient.log, redisClient.expiry);
      failures := 0;
      for i := 0 to |cycles|
        invariant AfterCycles(url, st0, cycles) == AfterCycles(url, Store(redisClient.log, redisClient.expiry), cycles[i..])
        invariant failures == |set j | 0 <= j < i && cycles[j].response.Raised?|
      {
        assert cycles[i..][1..] == cycles[i + 1..];
        ghost var before := set j | 0 <= j < i && cycles[j].response.Raised?;
        var raised := FreelancerParserRun(cycles[i]);
        if raised {
          assert (set j | 0 <= j < i + 1 && cycles[j].response.Raised?) == before + {i};
          failures := failures + 1;
        } else {
          assert (set j | 0 <= j < i + 1 && cycles[j].response.Raised?) == before;
        }
      }
      assert cycles[|cycles|..] == [];
    }
  }

  /**
   * `FreelancerParser(redis_client)`: the configuration is read from the environment, and
   * construction raises `ValueError` (here: `None`) when `FLN_URL` or `FLN_OAUTH_TOKEN`
   * is unset or empty.
   */
  method NewFreelancerParser(envUrl: Option<string>, envToken: Option<string>, redisClient: Redis)
    returns (parser: Option<FreelancerParser>)
    ensures parser.None? <==> !ConfigOk(envUrl, envToken)
    ensures parser.Some? ==> fresh(parser.value) && parser.value.url == envUrl.value
                             && parser.value.oauthToken == envToken.value && parser.value.redisClient == redisClient
  {
    if envUrl.None? || envUrl.value == "" {
      return None;
    }
    if envToken.None? || envToken.value == "" {
      return None;
    }
    var p := new FreelancerParser(envUrl.value, envToken.value, redisClient);
    return Some(p);
  }
}
