/**
 * The query generator agent: one query places the subject and the relation
 * at randomly drawn split points inside noise and ends with the linking word;
 * a batch repeats that.
 */
module QueryAgent {
  import opened Wrappers
  import opened Config
  import opened Noise
  import opened Placement

  /**
   * An agent: a configuration and, optionally, a service client. Nothing here
   * requires T > 0: a configuration with T <= 0 is below the floor, so every
   * query of it fails in GenerateQuery.
   */
  datatype Agent = Agent(config: QueryConfig, backend: Backend)

  /**
   * Everything one generation call leaves to chance or to the service: the two
   * random draws, and the reply the service would give to each of the three
   * filler requests, in the order they are made.
   */
  datatype Oracle = Oracle(first: nat, second: nat, reply1: Reply, reply2: Reply, reply3: Reply)

  /** The split points one call draws; a failure means the length guard rejected T. */
  function PlanFor(a: Agent, o: Oracle): Result<Plan> {
    ChoosePlan(a.config.t, |a.config.subject|, |a.config.relation|, o.first, o.second)
  }

  /** The noise lengths of a plan for this agent's configuration. */
  function SpansFor(c: QueryConfig, p: Plan): Spans {
    SpansOf(c.t, |c.subject|, |c.relation|, p)
  }

  /** No filler request that reaches the service is answered with an error. */
  predicate ServiceAnswers(a: Agent, o: Oracle) {
    PlanFor(a, o).Success? ==>
      var sp := SpansFor(a.config, PlanFor(a, o).value);
      && !(Consults(a.backend, sp.n1) && o.reply1.ServiceError?)
      && !(Consults(a.backend, sp.n2) && o.reply2.ServiceError?)
      && !(Consults(a.backend, sp.n3) && o.reply3.ServiceError?)
  }

  /** The query layout: noise, subject, noise, relation, noise, linking word. */
  function Assemble(noise1: seq<string>, subject: seq<string>, noise2: seq<string>,
                    relation: seq<string>, noise3: seq<string>, link: string): seq<string> {
    noise1 + subject + noise2 + relation + noise3 + [link]
  }

  /**
   * One query. It fails with TooSmallForTokens exactly when T is below the
   * floor, otherwise only when a filler request reaching the service fails;
   * a query that is produced has exactly T tokens.
   */
  function GenerateQuery(a: Agent, o: Oracle): (r: Result<seq<string>>)
    ensures a.config.t < Required(a.config) ==> r == Failure(TooSmallForTokens)
    ensures r.Success? <==> a.config.t >= Required(a.config) && ServiceAnswers(a, o)
    ensures r.Failure? && a.config.t >= Required(a.config) ==> r.error == ServiceFailure
    ensures r.Success? ==> |r.value| == a.config.t
  {
    var c := a.config;
    var p :- PlanFor(a, o);
    var sp := SpansFor(c, p);
    var noise1 :- GenerateNoise(c, a.backend, sp.n1, o.reply1);
    var noise2 :- GenerateNoise(c, a.backend, sp.n2, o.reply2);
    var noise3 :- GenerateNoise(c, a.backend, sp.n3, o.reply3);
    Success(Assemble(noise1, c.subject, noise2, c.relation, noise3, c.linkingWord))
  }

  /**
   * A query above the floor whose service requests are answered is the
   * assembly of the three fillers its plan asks for, each of which succeeded.
   */
  lemma GenerateQueryUnfolds(a: Agent, o: Oracle)
    requires a.config.t >= Required(a.config) && ServiceAnswers(a, o)
    ensures GenerateQuery(a, o).Success?
    ensures PlanFor(a, o).Success?
    ensures var c := a.config;
            var sp := SpansFor(c, PlanFor(a, o).value);
            var noise1 := GenerateNoise(c, a.backend, sp.n1, o.reply1);
            var noise2 := GenerateNoise(c, a.backend, sp.n2, o.reply2);
            var noise3 := GenerateNoise(c, a.backend, sp.n3, o.reply3);
            && noise1.Success? && noise2.Success? && noise3.Success?
            && GenerateQuery(a, o).value
               == Assemble(noise1.value, c.subject, noise2.value, c.relation, noise3.value, c.linkingWord)
  {
  }

  /**
   * Where the content sits in a query of length T drawn with plan `p`: the
   * subject at `p.i`, the relation at `p.j`, the linking word last.
   */
  predicate Placed(c: QueryConfig, p: Plan, q: seq<string>) {
    && Legal(c.t, |c.subject|, |c.relation|, p)
    && |q| == c.t
    && q[p.i .. p.i + |c.subject|] == c.subject
    && q[p.j .. p.j + |c.relation|] == c.relation
    && q[c.t - 1] == c.linkingWord
  }

  /** Each position of an assembled query, region by region. */
  lemma AssembleAt(noise1: seq<string>, subject: seq<string>, noise2: seq<string>,
                   relation: seq<string>, noise3: seq<string>, link: string, k: int)
    requires 0 <= k < |noise1| + |subject| + |noise2| + |relation| + |noise3| + 1
    ensures var q := Assemble(noise1, subject, noise2, relation, noise3, link);
            var b1 := |noise1|;
            var b2 := b1 + |subject|;
            var b3 := b2 + |noise2|;
            var b4 := b3 + |relation|;
            var b5 := b4 + |noise3|;
            && |q| == b5 + 1
            && q[k] == if k < b1 then noise1[k]
                       else if k < b2 then subject[k - b1]
                       else if k < b3 then noise2[k - b2]
                       else if k < b4 then relation[k - b3]
                       else if k < b5 then noise3[k - b4]
                       else link
  {
  }

  /**
   * Every part of an assembled query is a contiguous block of it, in order:
   * the three fillers, the subject and the relation, with the link closing it.
   */
  lemma AssembleSlices(noise1: seq<string>, subject: seq<string>, noise2: seq<string>,
                       relation: seq<string>, noise3: seq<string>, link: string)
    ensures var q := Assemble(noise1, subject, noise2, relation, noise3, link);
            var b2 := |noise1| + |subject|;
            var b3 := b2 + |noise2|;
            var b4 := b3 + |relation|;
            && |q| == b4 + |noise3| + 1
            && q[.. |noise1|] == noise1
            && q[|noise1| .. b2] == subject
            && q[b2 .. b3] == noise2
            && q[b3 .. b4] == relation
            && q[b4 .. |q| - 1] == noise3
            && q[|q| - 1] == link
  {
  }

  /** The blocks of an assembled query, located by the split points whose spans the fillers fill. */
  lemma AssembleAtPlan(c: QueryConfig, p: Plan, noise1: seq<string>, noise2: seq<string>, noise3: seq<string>)
    requires Legal(c.t, |c.subject|, |c.relation|, p)
    requires |noise1| == SpansFor(c, p).n1
    requires |noise2| == SpansFor(c, p).n2
    requires |noise3| == SpansFor(c, p).n3
    ensures var q := Assemble(noise1, c.subject, noise2, c.relation, noise3, c.linkingWord);
            && Placed(c, p, q)
            && q[.. p.i] == noise1
            && q[p.i + |c.subject| .. p.j] == noise2
            && q[p.j + |c.relation| .. c.t - 1] == noise3
  {
    AssembleSlices(noise1, c.subject, noise2, c.relation, noise3, c.linkingWord);
  }

  /**
   * A query above the floor whose service requests are answered is produced.
   * It has the first filler before the first split point, the subject at it,
   * the second filler up to the second split point, the relation at it, and
   * then exactly the third filler before the link, which is last.
   */
  lemma GenerateQueryPlacesContent(a: Agent, o: Oracle)
    requires a.config.t >= Required(a.config) && ServiceAnswers(a, o)
    ensures GenerateQuery(a, o).Success?
    ensures PlanFor(a, o).Success?
    ensures Placed(a.config, PlanFor(a, o).value, GenerateQuery(a, o).value)
    ensures var c := a.config;
            var p := PlanFor(a, o).value;
            var sp := SpansFor(c, p);
            var q := GenerateQuery(a, o).value;
            && p.i + |c.subject| <= p.j
            && q[.. p.i] == GenerateNoise(c, a.backend, sp.n1, o.reply1).value
            && q[p.i + |c.subject| .. p.j] == GenerateNoise(c, a.backend, sp.n2, o.reply2).value
            && q[p.j + |c.relation| .. c.t - 1] == GenerateNoise(c, a.backend, sp.n3, o.reply3).value
            && |q[p.j + |c.relation| .. c.t - 1]| == sp.n3
  {
    var c := a.config;
    var p := PlanFor(a, o).value;
    var sp := SpansFor(c, p);
    var noise1 := GenerateNoise(c, a.backend, sp.n1, o.reply1).value;
    var noise2 := GenerateNoise(c, a.backend, sp.n2, o.reply2).value;
    var noise3 := GenerateNoise(c, a.backend, sp.n3, o.reply3).value;
    GenerateQueryUnfolds(a, o);
    AssembleAtPlan(c, p, noise1, noise2, noise3);
  }

  /** The token a default-filled query holds at position `k` under plan `p`. */
  function DefaultToken(c: QueryConfig, p: Plan, k: int): string {
    if p.i <= k < p.i + |c.subject| then c.subject[k - p.i]
    else if p.j <= k < p.j + |c.relation| then c.relation[k - p.j]
    else if k == c.t - 1 then c.linkingWord
    else c.noiseToken
  }

  /** Without a client, every position outside the content and the link holds the noise token. */
  lemma DefaultQueryPointwise(c: QueryConfig, o: Oracle)
    requires c.t >= Required(c)
    ensures GenerateQuery(Agent(c, NoClient), o).Success?
    ensures forall k :: 0 <= k < c.t ==>
              GenerateQuery(Agent(c, NoClient), o).value[k] == DefaultToken(c, PlanFor(Agent(c, NoClient), o).value, k)
  {
    var a := Agent(c, NoClient);
    var p := PlanFor(a, o).value;
    var sp := SpansFor(c, p);
    var noise1 := GenerateNoise(c, a.backend, sp.n1, o.reply1).value;
    var noise2 := GenerateNoise(c, a.backend, sp.n2, o.reply2).value;
    var noise3 := GenerateNoise(c, a.backend, sp.n3, o.reply3).value;
    GenerateQueryUnfolds(a, o);
    forall k | 0 <= k < c.t
      ensures GenerateQuery(a, o).value[k] == DefaultToken(c, p, k)
    {
      AssembleAt(noise1, c.subject, noise2, c.relation, noise3, c.linkingWord, k);
    }
  }

  /**
   * Without a client the query holds the subject, the relation, the link and
   * T minus the floor extra noise tokens, whatever the split points.
   */
  lemma DefaultQueryContents(c: QueryConfig, o: Oracle, x: string)
    requires c.t >= Required(c)
    ensures GenerateQuery(Agent(c, NoClient), o).Success?
    ensures multiset(GenerateQuery(Agent(c, NoClient), o).value)[x]
            == multiset(c.subject)[x] + multiset(c.relation)[x]
               + (if x == c.linkingWord then 1 else 0)
               + (if x == c.noiseToken then c.t - Required(c) else 0)
  {
    var a := Agent(c, NoClient);
    var p := PlanFor(a, o).value;
    var sp := SpansFor(c, p);
    var noise1 := GenerateNoise(c, a.backend, sp.n1, o.reply1).value;
    var noise2 := GenerateNoise(c, a.backend, sp.n2, o.reply2).value;
    var noise3 := GenerateNoise(c, a.backend, sp.n3, o.reply3).value;
    GenerateQueryUnfolds(a, o);
    assert noise1 == Repeat(c.noiseToken, sp.n1);
    assert noise2 == Repeat(c.noiseToken, sp.n2);
    assert noise3 == Repeat(c.noiseToken, sp.n3);
    RepeatMultiset(c.noiseToken, sp.n1, x);
    RepeatMultiset(c.noiseToken, sp.n2, x);
    RepeatMultiset(c.noiseToken, sp.n3, x);
  }

  /** At the smallest legal T every span is empty: the query is subject, relation, link, for any backend. */
  lemma MinimumLengthQuery(a: Agent, o: Oracle)
    requires a.config.t == Required(a.config)
    ensures GenerateQuery(a, o) == Success(a.config.subject + a.config.relation + [a.config.linkingWord])
  {
    var c := a.config;
    var p := PlanFor(a, o).value;
    assert p == Plan(0, |c.subject|);
    assert Assemble([], c.subject, [], c.relation, [], c.linkingWord) == c.subject + c.relation + [c.linkingWord];
  }

  /** One token short of the floor, no query is produced. */
  lemma OneBelowFloorRejected(a: Agent, o: Oracle)
    requires a.config.t == |a.config.subject| + |a.config.relation|
    ensures GenerateQuery(a, o) == Failure(TooSmallForTokens)
  {
  }

  /**
   * Every legal pair of split points is realised: the draws that pick it lead,
   * whenever the service answers, to a query with the content placed there.
   */
  lemma EveryLegalPlacementIsGenerated(a: Agent, p: Plan, reply1: Reply, reply2: Reply, reply3: Reply)
    requires Legal(a.config.t, |a.config.subject|, |a.config.relation|, p)
    requires reply1.Reply? && reply2.Reply? && reply3.Reply?
    ensures var o := Oracle(p.i, p.j - p.i - |a.config.subject|, reply1, reply2, reply3);
            && PlanFor(a, o) == Success(p)
            && GenerateQuery(a, o).Success?
            && Placed(a.config, p, GenerateQuery(a, o).value)
  {
    var o := Oracle(p.i, p.j - p.i - |a.config.subject|, reply1, reply2, reply3);
    EveryLegalPlanIsChosen(a.config.t, |a.config.subject|, |a.config.relation|, p);
    GenerateQueryPlacesContent(a, o);
  }

  /**
   * A batch of `count` queries, the k-th drawn with `oracle(k)`; a negative
   * count gives an empty batch. The first failing query aborts the batch with
   * its error.
   */
  method GenerateQueries(a: Agent, count: int, oracle: nat -> Oracle) returns (r: Result<seq<seq<string>>>)
    ensures r.Success? <==> forall k: nat :: k < count ==> GenerateQuery(a, oracle(k)).Success?
    ensures r.Success? ==> |r.value| == if count < 0 then 0 else count
    ensures r.Success? ==> forall k: nat :: k < |r.value| ==> GenerateQuery(a, oracle(k)) == Success(r.value[k])
    ensures r.Failure? ==> exists k: nat :: && k < count
                                            && GenerateQuery(a, oracle(k)) == Failure(r.error)
                                            && forall m: nat :: m < k ==> GenerateQuery(a, oracle(m)).Success?
    ensures a.backend.NoClient? && a.config.t >= Required(a.config) ==> r.Success?
  {
    var queries: seq<seq<string>> := [];
    var k: nat := 0;
    while k < count
      invariant count >= 0 ==> k <= count
      invariant count < 0 ==> k == 0
      invariant |queries| == k
      invariant forall m: nat :: m < k ==> GenerateQuery(a, oracle(m)) == Success(queries[m])
    {
      var q := GenerateQuery(a, oracle(k));
      if q.Failure? {
        return Failure(q.error);
      }
      queries := queries + [q.value];
      k := k + 1;
    }
    return Success(queries);
  }

  /** The example configuration: "Paris" / "is in France" / "therefore", T = 8, noise token "noise", any mode. */
  predicate IsParisConfig(c: QueryConfig) {
    && c.t == 8
    && c.subject == ["Paris"]
    && c.relation == ["is", "in", "France"]
    && c.linkingWord == "therefore"
    && c.noiseToken == "noise"
  }

  /** The literal facts about the example configuration the scenario needs. */
  lemma ParisConstants(c: QueryConfig)
    requires IsParisConfig(c)
    ensures Required(c) == 5
    ensures c.linkingWord != c.noiseToken
    ensures multiset(c.subject)[c.noiseToken] == 0
    ensures multiset(c.relation)[c.noiseToken] == 0
  {
  }

  /** Where the example's content sits in any query that places it. */
  lemma ParisLayout(c: QueryConfig, p: Plan, q: seq<string>)
    requires IsParisConfig(c)
    requires Placed(c, p, q)
    ensures |q| == 8
    ensures q[7] == "therefore"
    ensures 0 <= p.i < p.j <= 4
    ensures q[p.i] == "Paris"
    ensures q[p.j .. p.j + 3] == ["is", "in", "France"]
  {
  }

  /**
   * Every draw for the example gives eight tokens ending in "therefore", with
   * "Paris" at the first split point, "is in France" at the second after it,
   * and exactly three "noise" tokens.
   */
  lemma ParisScenario(c: QueryConfig, o: Oracle) returns (q: seq<string>, p: Plan)
    requires IsParisConfig(c)
    ensures GenerateQuery(Agent(c, NoClient), o) == Success(q)
    ensures PlanFor(Agent(c, NoClient), o) == Success(p)
    ensures |q| == 8
    ensures q[7] == "therefore"
    ensures 0 <= p.i < p.j <= 4
    ensures q[p.i] == "Paris"
    ensures q[p.j .. p.j + 3] == ["is", "in", "France"]
    ensures multiset(q)["noise"] == 3
  {
    var a := Agent(c, NoClient);
    ParisConstants(c);
    GenerateQueryPlacesContent(a, o);
    DefaultQueryContents(c, o, c.noiseToken);
    p := PlanFor(a, o).value;
    q := GenerateQuery(a, o).value;
    ParisLayout(c, p, q);
  }
}
