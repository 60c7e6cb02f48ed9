/**
 * The Redis server the adapters share: keys with a time-to-live, used as the
 * deduplication store, and publish/subscribe, modelled as the append-only log of
 * everything published. Time is integer seconds, passed in by the caller.
 *
 * Every adapter runs the same check-then-set pass over its listings: skip a listing
 * without an id, skip one whose key is live, otherwise publish it and then set its
 * key for `Ttl` seconds. `Pass` is that pass as a function; the lemmas below say what
 * it guarantees.
 */
module RedisStore {
  import opened Wrappers
  import opened Posting

  /** The `ex=360` every adapter passes when it marks a key. */
  const Ttl: nat := 360

  /** A key set at some time with expiry `expiry[key]` still exists at `now`. */
  predicate Live(expiry: map<string, int>, key: string, now: int) {
    key in expiry && now < expiry[key]
  }

  class Redis {
    /** For each key ever set, the time at which it expires. */
    var expiry: map<string, int>
    /** Every message published, oldest first. */
    var log: seq<Record>

    constructor ()
      ensures expiry == map[] && log == []
    {
      expiry := map[];
      log := [];
    }

    /** `EXISTS key` at time `now`. */
    predicate Exists(key: string, now: int)
      reads this
    {
      Live(expiry, key, now)
    }

    /** `SET key 1 EX ttl` at time `now`: the key exists for the next `ttl` seconds. */
    method Set(key: string, ttl: nat, now: int)
      modifies this
      ensures expiry == old(expiry)[key := now + ttl]
      ensures log == old(log)
    {
      expiry := expiry[key := now + ttl];
    }

    /** `PUBLISH channel payload`. */
    method Publish(channel: string, payload: Payload)
      modifies this
      ensures log == old(log) + [Record(channel, payload)]
      ensures expiry == old(expiry)
    {
      log := log + [Record(channel, payload)];
    }
  }

  /** A listing as the dedup pass sees it: its key (`None` when it has no id) and the payload it would publish. */
  datatype Candidate = Candidate(key: Option<string>, payload: Payload)

  datatype Published = Published(key: string, payload: Payload)

  /** What a pass published, in order, and the key expiries it leaves behind. */
  datatype PassResult = PassResult(published: seq<Published>, expiry: map<string, int>)

  /** One listing of the pass. */
  function Step(r: PassResult, c: Candidate, now: int): PassResult {
    if c.key.None? || Live(r.expiry, c.key.value, now) then r
    else PassResult(r.published + [Published(c.key.value, c.payload)], r.expiry[c.key.value := now + Ttl])
  }

  /** A whole pass over `cs` at time `now`, starting from the expiries `expiry`. */
  function Pass(cs: seq<Candidate>, expiry: map<string, int>, now: int): PassResult
    decreases |cs|
  {
    if cs == [] then PassResult([], expiry)
    else Step(Pass(cs[..|cs| - 1], expiry, now), cs[|cs| - 1], now)
  }

  /** The bus records a pass produces on `channel`. */
  function Records(channel: string, ps: seq<Published>): seq<Record> {
    seq(|ps|, i requires 0 <= i < |ps| => Record(channel, ps[i].payload))
  }

  /** One more listing extends a pass by one step. */
  lemma PassSnoc(cs: seq<Candidate>, i: nat, expiry: map<string, int>, now: int)
    requires i < |cs|
    ensures Pass(cs[..i + 1], expiry, now) == Step(Pass(cs[..i], expiry, now), cs[i], now)
  {
    assert cs[..i + 1][..i] == cs[..i];
  }

  lemma RecordsSnoc(channel: string, ps: seq<Published>, p: Published)
    ensures Records(channel, ps + [p]) == Records(channel, ps) + [Record(channel, p.payload)]
  {
  }

  /** A log that grew by one published record is the log of the longer pass. */
  lemma LogSnoc(log0: seq<Record>, log: seq<Record>, channel: string, ps: seq<Published>, p: Published)
    requires log == log0 + Records(channel, ps) + [Record(channel, p.payload)]
    ensures log == log0 + Records(channel, ps + [p])
  {
    RecordsSnoc(channel, ps, p);
    assert log0 + Records(channel, ps) + [Record(channel, p.payload)]
        == log0 + (Records(channel, ps) + [Record(channel, p.payload)]);
  }

  function PublishedKeys(ps: seq<Published>): set<string> {
    set i | 0 <= i < |ps| :: ps[i].key
  }

  /** The keys of the listings that have an id. */
  function CandidateKeys(cs: seq<Candidate>): set<string> {
    set i | 0 <= i < |cs| && cs[i].key.Some? :: cs[i].key.value
  }

  lemma CandidateKeyOf(cs: seq<Candidate>, j: nat)
    requires j < |cs|
    ensures cs[j].key.Some? ==> cs[j].key.value in CandidateKeys(cs)
  {
  }

  lemma CandidateKeysSnoc(cs: seq<Candidate>, c: Candidate)
    ensures CandidateKeys(cs + [c]) == CandidateKeys(cs) + (if c.key.Some? then {c.key.value} else {})
  {
    var ext := cs + [c];
    forall k | k in CandidateKeys(ext) ensures k in CandidateKeys(cs) + (if c.key.Some? then {c.key.value} else {}) {
      var i :| 0 <= i < |ext| && ext[i].key.Some? && ext[i].key.value == k;
      if i < |cs| { assert cs[i] == ext[i]; }
    }
    forall k | k in CandidateKeys(cs) ensures k in CandidateKeys(ext) {
      var i :| 0 <= i < |cs| && cs[i].key.Some? && cs[i].key.value == k;
      assert ext[i] == cs[i];
    }
    if c.key.Some? {
      assert ext[|cs|] == c;
    }
  }

  lemma PublishedKeysSnoc(ps: seq<Published>, p: Published)
    ensures PublishedKeys(ps + [p]) == PublishedKeys(ps) + {p.key}
  {
    var ext := ps + [p];
    forall k | k in PublishedKeys(ext) ensures k in PublishedKeys(ps) + {p.key} {
      var i :| 0 <= i < |ext| && ext[i].key == k;
      if i < |ps| { assert ps[i] == ext[i]; }
    }
    forall k | k in PublishedKeys(ps) ensures k in PublishedKeys(ext) {
      var i :| 0 <= i < |ps| && ps[i].key == k;
      assert ext[i] == ps[i];
    }
    assert ext[|ps|] == p;
  }

  /**
   * What a pass publishes and what it leaves in the store: a key is published exactly
   * when some listing carries it and it was not live when the pass began; published
   * keys expire `Ttl` seconds after `now`; every other key keeps its expiry.
   */
  lemma {:induction false} PassEffect(cs: seq<Candidate>, expiry: map<string, int>, now: int)
    ensures var r := Pass(cs, expiry, now);
      && (forall k :: k in PublishedKeys(r.published) <==> k in CandidateKeys(cs) && !Live(expiry, k, now))
      && (forall k :: k in r.expiry <==> k in expiry || k in PublishedKeys(r.published))
      && (forall k :: k in PublishedKeys(r.published) ==> r.expiry[k] == now + Ttl)
      && (forall k :: k in expiry && k !in PublishedKeys(r.published) ==> r.expiry[k] == expiry[k])
    decreases |cs|
  {
    if cs == [] {
      assert CandidateKeys(cs) == {};
      assert PublishedKeys([]) == {};
    } else {
      var init, c := cs[..|cs| - 1], cs[|cs| - 1];
      assert cs == init + [c];
      PassEffect(init, expiry, now);
      CandidateKeysSnoc(init, c);
      var r0 := Pass(init, expiry, now);
      if c.key.Some? && !Live(r0.expiry, c.key.value, now) {
        PublishedKeysSnoc(r0.published, Published(c.key.value, c.payload));
      }
    }
  }

  /** Within one pass a key is published at most once. */
  lemma {:induction false} PassAtMostOnce(cs: seq<Candidate>, expiry: map<string, int>, now: int)
    ensures var ps := Pass(cs, expiry, now).published;
      forall i, j :: 0 <= i < j < |ps| ==> ps[i].key != ps[j].key
    decreases |cs|
  {
    if cs != [] {
      var init, c := cs[..|cs| - 1], cs[|cs| - 1];
      PassAtMostOnce(init, expiry, now);
      PassEffect(init, expiry, now);
      var r0 := Pass(init, expiry, now);
      if c.key.Some? && !Live(r0.expiry, c.key.value, now) {
        var ps := r0.published + [Published(c.key.value, c.payload)];
        forall i | 0 <= i < |r0.published| ensures ps[i].key != c.key.value {
          assert ps[i].key in PublishedKeys(r0.published);
        }
      }
    }
  }

  /** After a pass, the key of every listing it saw is live. */
  lemma CandidateKeysLive(cs: seq<Candidate>, expiry: map<string, int>, now: int, k: string)
    ensures k in CandidateKeys(cs) ==> Live(Pass(cs, expiry, now).expiry, k, now)
  {
    PassEffect(cs, expiry, now);
    var r := Pass(cs, expiry, now);
    if k in CandidateKeys(cs) {
      if k in PublishedKeys(r.published) {
        assert r.expiry[k] == now + Ttl;
      } else {
        assert Live(expiry, k, now) && r.expiry[k] == expiry[k];
      }
    }
  }

  /**
   * Each published entry is the FIRST listing that carries its key: an earlier listing
   * with the same key would have been published instead.
   */
  lemma {:induction false} PassPublishesFirst(cs: seq<Candidate>, expiry: map<string, int>, now: int, p: Published)
    requires p in Pass(cs, expiry, now).published
    ensures exists i :: 0 <= i < |cs| && cs[i] == Candidate(Some(p.key), p.payload)
                        && forall j :: 0 <= j < i ==> cs[j].key != Some(p.key)
    decreases |cs|
  {
    var init, c := cs[..|cs| - 1], cs[|cs| - 1];
    var r0 := Pass(init, expiry, now);
    PassEffect(init, expiry, now);
    if p in r0.published {
      PassPublishesFirst(init, expiry, now, p);
      var i :| 0 <= i < |init| && init[i] == Candidate(Some(p.key), p.payload)
               && forall j :: 0 <= j < i ==> init[j].key != Some(p.key);
      assert cs[i] == init[i];
    } else {
      assert c.key.Some? && !Live(r0.expiry, c.key.value, now) && p == Published(c.key.value, c.payload);
      var k := c.key.value;
      CandidateKeysLive(init, expiry, now, k);
      forall j | 0 <= j < |cs| - 1 ensures cs[j].key != Some(k) {
        assert cs[j] == init[j];
        CandidateKeyOf(init, j);
      }
      assert cs[|cs| - 1] == Candidate(Some(p.key), p.payload);
    }
  }

  /**
   * The TTL window, for three fetches of the same listing at times `t1 <= t2 <= t3`:
   * the first publishes it; the second, less than `Ttl` seconds later, does not; the
   * third, at least `Ttl` seconds after the first, publishes it again.
   */
  lemma TtlWindow(cs: seq<Candidate>, expiry: map<string, int>, k: string, t1: int, t2: int, t3: int)
    requires k in CandidateKeys(cs) && !Live(expiry, k, t1)
    requires t1 <= t2 < t1 + Ttl <= t3
    ensures var r1 := Pass(cs, expiry, t1);
      var r2 := Pass(cs, r1.expiry, t2);
      var r3 := Pass(cs, r2.expiry, t3);
      && k in PublishedKeys(r1.published)
      && k !in PublishedKeys(r2.published)
      && k in PublishedKeys(r3.published)
  {
    var r1 := Pass(cs, expiry, t1);
    PassEffect(cs, expiry, t1);
    var r2 := Pass(cs, r1.expiry, t2);
    PassEffect(cs, r1.expiry, t2);
    PassEffect(cs, r2.expiry, t3);
  }
}
