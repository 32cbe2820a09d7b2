/** The polling publisher: one cycle builds a summary per account and publishes it, retained,
    under `<topic>/<account name>` only when its serialised text differs from the one it last
    published under that name. */
module MqttAvanza {
  import opened Js
  import opened Avanza

  /** The options the cycle reads: debug echoing and the root topic. */
  datatype Config = Config(debug: bool, topic: string)

  /** The summary of one account, as this publisher shapes it. */
  datatype Summary = Summary(
    name: string,
    accountType: string,
    capital: real,
    total: Perf,
    ytd: Perf,
    week: Perf,
    month: Perf,
    threeMonths: Perf,
    sixMonths: Perf,
    year: Perf,
    threeYears: Perf)

  /** One `publish(topic, payload, {retain})` call on the message bus client. */
  datatype Message = Message(topic: string, payload: string, retain: bool)

  /** `JSON.stringify` on each kind of record the cycle serialises: deterministic, and
      otherwise unknown. */
  datatype Serializer = Serializer(
    summary: Summary -> string,
    account: Account -> string,
    accountOverview: AccountOverview -> string,
    overview: Overview -> string)

  /** What one iteration of the account loop hands to the change gate: the cache key, the
      serialised summary, and the two debug payloads. */
  datatype Candidate = Candidate(name: string, payload: string, accountJson: string, overviewJson: string)

  /** The cache and the publishes a run of the gate ends with. */
  datatype Outcome = Outcome(cache: map<string, string>, sent: seq<Message>)

  /** The summary of one account. It is keyed by the account's name; its figures are rounded
      copies of the account's and overview's figures. */
  function Summarize(a: Account, o: AccountOverview, round: Round): (s: Summary)
    ensures s.name == a.name && s.accountType == a.accountType
  {
    Summary(
      a.name, a.accountType, round(a.ownCapital, Places(-1)),
      Perf(round(a.totalProfitPercent, Places(1)), round(a.totalProfit, Places(-1))),
      Perf(round(a.performancePercent, Places(1)), round(a.performance, Places(-1))),
      Perf(round(o.performanceSinceOneWeekPercent, Places(1)), round(o.performanceSinceOneWeek, Omitted)),
      Perf(round(o.performanceSinceOneMonthPercent, Places(1)), round(o.performanceSinceOneMonth, Omitted)),
      Perf(round(o.performanceSinceThreeMonthsPercent, Places(1)), round(o.performanceSinceThreeMonths, Omitted)),
      Perf(round(o.performanceSinceSixMonthsPercent, Places(1)), round(o.performanceSinceSixMonths, Omitted)),
      Perf(round(o.performanceSinceOneYearPercent, Places(1)), round(o.performanceSinceOneYear, Omitted)),
      Perf(round(o.performanceSinceThreeYearsPercent, Places(1)), round(o.performanceSinceThreeYears, Omitted)))
  }

  /** The candidate the loop builds for one account of the overview. */
  function CandidateFor(api: Client, round: Round, json: Serializer, a: Account): (c: Candidate)
    ensures c.name == a.name
  {
    var o := api.getAccountOverview(a.accountId);
    var s := Summarize(a, o, round);
    Candidate(s.name, json.summary(s), json.account(a), json.accountOverview(o))
  }

  function Candidates(api: Client, round: Round, json: Serializer): seq<Candidate>
  {
    var accounts := api.overview.accounts;
    seq(|accounts|, k requires 0 <= k < |accounts| => CandidateFor(api, round, json, accounts[k]))
  }

  /** The gate's test: nothing cached under the name, or something else cached. */
  predicate Changed(cache: map<string, string>, c: Candidate)
  {
    c.name !in cache || cache[c.name] != c.payload
  }

  /** The publishes of a changed candidate: the summary, retained, then in debug mode the raw
      account and account overview, not retained. */
  function Publishes(cfg: Config, c: Candidate): seq<Message>
  {
    var topic := cfg.topic + "/" + c.name;
    [Message(topic, c.payload, true)]
      + if cfg.debug then
          [Message(topic + "/debug/account", c.accountJson, false),
           Message(topic + "/debug/overview", c.overviewJson, false)]
        else []
  }

  /** The debug echo of the whole overview to the root topic that opens a cycle. */
  function OverviewEcho(cfg: Config, overviewJson: string): seq<Message>
  {
    if cfg.debug then [Message(cfg.topic, overviewJson, false)] else []
  }

  /** The gate applied to one candidate. */
  function Step(cfg: Config, cache: map<string, string>, c: Candidate): Outcome
  {
    if Changed(cache, c) then Outcome(cache[c.name := c.payload], Publishes(cfg, c)) else Outcome(cache, [])
  }

  /** The gate applied to the candidates in order, from the cache `cache`. */
  function Run(cfg: Config, cache: map<string, string>, cs: seq<Candidate>): Outcome
  {
    if cs == [] then Outcome(cache, [])
    else
      var before := Run(cfg, cache, cs[..|cs| - 1]);
      var last := Step(cfg, before.cache, cs[|cs| - 1]);
      Outcome(last.cache, before.sent + last.sent)
  }

  /** The publisher process: the change cache, and the publishes it has made so far. */
  class App {
    const config: Config
    var cache: map<string, string>
    ghost var sent: seq<Message>

    /** The cache starts empty, so the first cycle publishes every account name at least once. */
    constructor (config: Config)
      ensures this.config == config && cache == map[] && sent == []
    {
      this.config := config;
      cache := map[];
      sent := [];
    }

    /** The change gate of one account summary. */
    method PublishIfChanged(c: Candidate) returns (published: bool)
      modifies this
      ensures published <==> Changed(old(cache), c)
      ensures cache == if published then old(cache)[c.name := c.payload] else old(cache)
      ensures sent == old(sent) + if published then Publishes(config, c) else []
      ensures cache == Step(config, old(cache), c).cache && sent == old(sent) + Step(config, old(cache), c).sent
    {
      published := c.name !in cache || cache[c.name] != c.payload;
      if published {
        cache := cache[c.name := c.payload];
        var topic := config.topic + "/" + c.name;
        sent := sent + [Message(topic, c.payload, true)];
        if config.debug {
          sent := sent + [Message(topic + "/debug/account", c.accountJson, false)];
          sent := sent + [Message(topic + "/debug/overview", c.overviewJson, false)];
        }
      }
    }

    /** One poll cycle: the debug echo of the overview, then the gate for every account in
      overview order. */
    method Loop(api: Client, round: Round, json: Serializer)
      modifies this
      ensures cache == Run(config, old(cache), Candidates(api, round, json)).cache
      ensures sent == old(sent) + OverviewEcho(config, json.overview(api.overview))
        + Run(config, old(cache), Candidates(api, round, json)).sent
    {
      var totalOverview := api.overview;
      if config.debug {
        sent := sent + [Message(config.topic, json.overview(totalOverview), false)];
      }
      PublishAccounts(api, round, json);
    }

    /** The account loop of a cycle: the gate for every account in overview order. */
    method PublishAccounts(api: Client, round: Round, json: Serializer)
      modifies this
      ensures cache == Run(config, old(cache), Candidates(api, round, json)).cache
      ensures sent == old(sent) + Run(config, old(cache), Candidates(api, round, json)).sent
    {
      var accounts := api.overview.accounts;
      ghost var cache0, sent0 := cache, sent;
      ghost var cs := Candidates(api, round, json);
      ghost var done := Outcome(cache0, []);
      for i := 0 to |accounts|
        invariant done == Run(config, cache0, cs[..i])
        invariant cache == done.cache && sent == sent0 + done.sent
      {
        var candidate := CandidateFor(api, round, json, accounts[i]);
        assert candidate == cs[i];
        ghost var step := Step(config, cache, candidate);
        var published := PublishIfChanged(candidate);
        RunSnoc(config, cache0, cs, i);
        ConcatAssoc(sent0, done.sent, step.sent);
        done := Outcome(step.cache, done.sent + step.sent);
      }
      assert cs[..|accounts|] == cs;
    }
  }

  lemma ConcatAssoc<T>(a: seq<T>, b: seq<T>, c: seq<T>)
    ensures (a + b) + c == a + (b + c)
  {
  }

  lemma RunSingle(cfg: Config, cache: map<string, string>, c: Candidate)
    ensures Run(cfg, cache, [c]) == Step(cfg, cache, c)
  {
  }

  lemma RunSnoc(cfg: Config, cache: map<string, string>, cs: seq<Candidate>, i: nat)
    requires i < |cs|
    ensures var before := Run(cfg, cache, cs[..i]);
      var last := Step(cfg, before.cache, cs[i]);
      Run(cfg, cache, cs[..i + 1]) == Outcome(last.cache, before.sent + last.sent)
  {
    assert cs[..i + 1][..i] == cs[..i];
  }

  // ---------------------------------------------------------------------------------------
  // Properties of the gate

  /** A candidate is published exactly when it changed; the first publish is the retained
      summary under `<topic>/<name>`, and its payload is what the cache now holds. */
  lemma StepPublishesIffChanged(cfg: Config, cache: map<string, string>, c: Candidate)
    ensures var out := Step(cfg, cache, c);
      && (out.sent != [] <==> Changed(cache, c))
      && (Changed(cache, c) ==>
            out.sent[0] == Message(cfg.topic + "/" + c.name, c.payload, true)
            && out.cache[c.name] == out.sent[0].payload)
  {
  }

  /** Only the entry under the candidate's name is written, and afterwards it holds the
      candidate's payload whether or not anything was published. */
  lemma StepWritesOnlyItsName(cfg: Config, cache: map<string, string>, c: Candidate)
    ensures var out := Step(cfg, cache, c).cache;
      && out.Keys == cache.Keys + {c.name}
      && out[c.name] == c.payload
      && forall n :: n in cache && n != c.name ==> out[n] == cache[n]
  {
  }

  /** Offering the same candidate twice in a row publishes nothing the second time. */
  lemma StepIdempotent(cfg: Config, cache: map<string, string>, c: Candidate)
    ensures var once := Step(cfg, cache, c);
      Step(cfg, once.cache, c) == Outcome(once.cache, [])
  {
  }

  /** The unretained debug publishes of an account happen only in debug mode, and only when
      its summary changed. */
  lemma DebugOnlyWhenChanged(cfg: Config, cache: map<string, string>, c: Candidate)
    ensures var sent := Step(cfg, cache, c).sent;
      (exists i :: 0 <= i < |sent| && !sent[i].retain) <==> cfg.debug && Changed(cache, c)
  {
    var sent := Step(cfg, cache, c).sent;
    if cfg.debug && Changed(cache, c) {
      assert !sent[1].retain;
    }
  }

  /** Running the gate over two stretches of candidates is running it over the first, then
      over the second from the cache the first left: publishes follow candidate order. */
  lemma {:induction false} RunConcat(cfg: Config, cache: map<string, string>, c1: seq<Candidate>, c2: seq<Candidate>)
    ensures var first := Run(cfg, cache, c1);
      var second := Run(cfg, first.cache, c2);
      Run(cfg, cache, c1 + c2) == Outcome(second.cache, first.sent + second.sent)
    decreases |c2|
  {
    if c2 == [] {
      assert c1 + c2 == c1;
    } else {
      var init := c2[..|c2| - 1];
      assert (c1 + c2)[..|c1 + c2| - 1] == c1 + init;
      assert (c1 + c2)[|c1 + c2| - 1] == c2[|c2| - 1];
      RunConcat(cfg, cache, c1, init);
      var first := Run(cfg, cache, c1);
      var mid := Run(cfg, first.cache, init);
      ConcatAssoc(first.sent, mid.sent, Step(cfg, mid.cache, c2[|c2| - 1]).sent);
    }
  }

  /** Every publish of the account loop goes to a topic below `<topic>/`. */
  lemma {:induction false} RunStaysBelowRoot(cfg: Config, cache: map<string, string>, cs: seq<Candidate>)
    ensures forall m :: m in Run(cfg, cache, cs).sent ==> cfg.topic + "/" <= m.topic
    decreases |cs|
  {
    if cs != [] {
      RunStaysBelowRoot(cfg, cache, cs[..|cs| - 1]);
      var before := Run(cfg, cache, cs[..|cs| - 1]);
      var c := cs[|cs| - 1];
      var prefix := cfg.topic + "/";
      var topic := prefix + c.name;
      assert prefix <= topic;
      assert prefix <= topic + "/debug/account" by {
        assert topic + "/debug/account" == prefix + (c.name + "/debug/account");
      }
      assert prefix <= topic + "/debug/overview" by {
        assert topic + "/debug/overview" == prefix + (c.name + "/debug/overview");
      }
    }
  }

  /** In one cycle the root topic is published to at most once: first, and only in debug
      mode, with the serialised overview, unretained. */
  lemma CycleRootPublishFirst(cfg: Config, overviewJson: string, cache: map<string, string>, cs: seq<Candidate>)
    ensures var msgs := OverviewEcho(cfg, overviewJson) + Run(cfg, cache, cs).sent;
      && (cfg.debug ==> msgs[0] == Message(cfg.topic, overviewJson, false))
      && forall i :: 0 <= i < |msgs| && msgs[i].topic == cfg.topic ==> i == 0 && cfg.debug
  {
    var echo := OverviewEcho(cfg, overviewJson);
    var run := Run(cfg, cache, cs).sent;
    var msgs: seq<Message> := echo + run;
    RunStaysBelowRoot(cfg, cache, cs);
    forall i | 0 <= i < |msgs| && msgs[i].topic == cfg.topic
      ensures i == 0 && cfg.debug
    {
    }
  }

  /** The names the candidates carry. */
  function Names(cs: seq<Candidate>): set<string>
  {
    set i | 0 <= i < |cs| :: cs[i].name
  }

  /** A run writes the entries under the candidates' names and leaves every other entry. */
  lemma {:induction false} RunWritesOnlyNames(cfg: Config, cache: map<string, string>, cs: seq<Candidate>)
    ensures var out := Run(cfg, cache, cs).cache;
      && out.Keys == cache.Keys + Names(cs)
      && forall n :: n in cache && n !in Names(cs) ==> out[n] == cache[n]
    decreases |cs|
  {
    if cs != [] {
      var init, c := cs[..|cs| - 1], cs[|cs| - 1];
      RunWritesOnlyNames(cfg, cache, init);
      assert Names(cs) == Names(init) + {c.name} by {
        assert cs == init + [c];
        forall n | n in Names(cs) ensures n in Names(init) + {c.name} {
          var i :| 0 <= i < |cs| && cs[i].name == n;
          if i < |init| { assert init[i] == cs[i]; }
        }
        forall n | n in Names(init) ensures n in Names(cs) {
          var i :| 0 <= i < |init| && init[i].name == n;
          assert cs[i] == init[i];
        }
        assert cs[|cs| - 1] == c;
      }
    }
  }

  /** The candidates agree on the payload of every name they share. */
  predicate NamesDeterminePayloads(cs: seq<Candidate>)
  {
    forall i, j :: 0 <= i < |cs| && 0 <= j < |cs| && cs[i].name == cs[j].name ==> cs[i].payload == cs[j].payload
  }

  /** When names determine payloads, after a run the cache holds every candidate's payload. */
  lemma {:induction false} RunRemembers(cfg: Config, cache: map<string, string>, cs: seq<Candidate>)
    requires NamesDeterminePayloads(cs)
    ensures var out := Run(cfg, cache, cs).cache;
      forall i :: 0 <= i < |cs| ==> cs[i].name in out && out[cs[i].name] == cs[i].payload
    decreases |cs|
  {
    if cs != [] {
      var init, c := cs[..|cs| - 1], cs[|cs| - 1];
      RunRemembers(cfg, cache, init);
      var out := Run(cfg, cache, cs).cache;
      forall i | 0 <= i < |cs|
        ensures cs[i].name in out && out[cs[i].name] == cs[i].payload
      {
        if i < |init| {
          assert init[i] == cs[i];
        }
      }
    }
  }

  /** An account loop over candidates the cache already holds publishes nothing and changes
      nothing. */
  lemma {:induction false} RunQuiet(cfg: Config, cache: map<string, string>, cs: seq<Candidate>)
    requires forall i :: 0 <= i < |cs| ==> cs[i].name in cache && cache[cs[i].name] == cs[i].payload
    ensures Run(cfg, cache, cs) == Outcome(cache, [])
    decreases |cs|
  {
    if cs != [] {
      var init := cs[..|cs| - 1];
      forall i | 0 <= i < |init| ensures init[i].name in cache && cache[init[i].name] == init[i].payload {
        assert init[i] == cs[i];
      }
      RunQuiet(cfg, cache, init);
    }
  }

  /** A run that publishes nothing leaves the cache alone, and found every candidate's
      payload already cached under its name. */
  lemma {:induction false} QuietRunHeld(cfg: Config, cache: map<string, string>, cs: seq<Candidate>)
    requires Run(cfg, cache, cs).sent == []
    ensures Run(cfg, cache, cs).cache == cache
    ensures forall i :: 0 <= i < |cs| ==> cs[i].name in cache && cache[cs[i].name] == cs[i].payload
    decreases |cs|
  {
    if cs != [] {
      var init, c := cs[..|cs| - 1], cs[|cs| - 1];
      var before := Run(cfg, cache, init);
      assert before.sent + Step(cfg, before.cache, c).sent == [];
      assert before.sent == [];
      QuietRunHeld(cfg, cache, init);
      assert !Changed(cache, c);
      forall i | 0 <= i < |cs| ensures cs[i].name in cache && cache[cs[i].name] == cs[i].payload {
        if i < |init| {
          assert init[i] == cs[i];
        }
      }
    }
  }

  /** The account loop of a second cycle over the same accounts publishes nothing exactly
      when no two accounts share a name with different summaries. */
  lemma SecondLoopQuietIff(cfg: Config, cache: map<string, string>, cs: seq<Candidate>)
    ensures Run(cfg, Run(cfg, cache, cs).cache, cs).sent == [] <==> NamesDeterminePayloads(cs)
  {
    var first := Run(cfg, cache, cs);
    if NamesDeterminePayloads(cs) {
      CycleIdempotent(cfg, cache, cs);
    } else if Run(cfg, first.cache, cs).sent == [] {
      QuietRunHeld(cfg, first.cache, cs);
      assert false;
    }
  }

  /** The account loop of a second cycle over the same accounts publishes nothing, provided no
      two accounts share a name with different summaries. */
  lemma CycleIdempotent(cfg: Config, cache: map<string, string>, cs: seq<Candidate>)
    requires NamesDeterminePayloads(cs)
    ensures var first := Run(cfg, cache, cs);
      Run(cfg, first.cache, cs) == Outcome(first.cache, [])
  {
    RunRemembers(cfg, cache, cs);
    RunQuiet(cfg, Run(cfg, cache, cs).cache, cs);
  }

  /** In a cycle of exactly two accounts that share a name and differ in summary, both are
      republished on every repeat, each overwriting the other under the same retained topic. */
  lemma SharedNameRepublishes(cfg: Config, cache: map<string, string>, c1: Candidate, c2: Candidate)
    requires c1.name == c2.name && c1.payload != c2.payload
    ensures var first := Run(cfg, cache, [c1, c2]);
      Run(cfg, first.cache, [c1, c2]).sent == Publishes(cfg, c1) + Publishes(cfg, c2)
  {
    var cs := [c1, c2];
    assert cs[..1] == [c1];
    var first := Run(cfg, cache, cs);
    var r1 := Run(cfg, cache, [c1]);
    RunSingle(cfg, cache, c1);
    assert first.cache == Step(cfg, r1.cache, c2).cache;
    assert first.cache[c2.name] == c2.payload;
    var s1 := Run(cfg, first.cache, [c1]);
    RunSingle(cfg, first.cache, c1);
    assert Changed(first.cache, c1);
    assert Changed(s1.cache, c2);
  }
}
