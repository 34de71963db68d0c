/**
 * What a run promises over all its rounds: the agents that never drift keep
 * their configured strategies, a strategy changes only after a drop in
 * payoff, without mistakes every round is the normal-form game played on the
 * previous round's strategies, the payoff histories end with the plain
 * totals, and the grid snapshots stay in [0, 1] (and a full-health grid is
 * left alone by a peaceful configuration).
 */
module RunProperties {
  import opened Agents
  import opened Accumulation
  import opened GridModel
  import opened Simulation

  /** Agent `a`'s turn in round `r` of a run, apart from its payoff. */
  lemma TurnOfRun(cfg: Config, log: seq<RoundLog>, r: nat, a: Agent)
    requires RunSoFar(cfg, log) && r < |log|
    ensures a in log[r].held && a in log[r].played && a in log[r].actions && a in log[r].payoffs && a in log[r].next
    ensures r > 0 ==> a in log[r - 1].payoffs
    ensures AgentOf(log[r].played[a]) == a && log[r].actions[a] == Generate(log[r].played[a])
    ensures AgentOf(log[r].next[a]) == a
    ensures cfg.mistakeProb <= 0.0 ==> log[r].played[a] == log[r].held[a]
    ensures log[r].next[a] != log[r].held[a] ==> Drifts(a) && r > 0 && log[r].payoffs[a] < log[r - 1].payoffs[a]
  {
    RunRounds(cfg, log, r);
    var e := log[r];
    assert TurnOk(a, r, e.held[a], e.prior, PrevPayoff(e.prevPayoffs, r, a), cfg.mistakeProb,
                  e.actions[a], e.payoffs[a], e.played[a], e.next[a]);
    if r > 0 {
      RunRounds(cfg, log, r - 1);
      assert log[..r][r - 1] == log[r - 1];
      assert e.prevPayoffs == log[r - 1].payoffs;
    }
  }

  /** Agent `a`'s payoff in round `r` of a run: its action's payoff against the round's previous actions. */
  lemma PayoffOfRun(cfg: Config, log: seq<RoundLog>, r: nat, a: Agent)
    requires RunSoFar(cfg, log) && r < |log|
    ensures ValidPrior(log[r].prior) && a in log[r].actions && a in log[r].payoffs && Shaped(a, log[r].actions[a])
    ensures log[r].payoffs[a] == Payoff(a, log[r].actions[a], log[r].prior)
  {
    RunRounds(cfg, log, r);
    var e := log[r];
    assert TurnOk(a, r, e.held[a], e.prior, PrevPayoff(e.prevPayoffs, r, a), cfg.mistakeProb,
                  e.actions[a], e.payoffs[a], e.played[a], e.next[a]);
  }

  /** The actions round `r` responds to: none in the first round, the previous round's after that. */
  lemma PriorOfRound(cfg: Config, log: seq<RoundLog>, r: nat)
    requires RunSoFar(cfg, log) && r < |log|
    ensures log[r].prior == if r == 0 then map[] else log[r - 1].actions
  {
    RunRounds(cfg, log, r);
    if r > 0 {
      assert log[..r][r - 1] == log[r - 1];
    }
  }

  /** The strategy held going into round `r`: the configured one, then what the round before left. */
  lemma HeldOfRound(cfg: Config, log: seq<RoundLog>, r: nat)
    requires RunSoFar(cfg, log) && r < |log|
    ensures log[r].held == if r == 0 then InitialStrategies(cfg) else log[r - 1].next
  {
    RunRounds(cfg, log, r);
    if r > 0 {
      assert log[..r][r - 1] == log[r - 1];
    }
  }

  /**
   * The trade authority, the monetary union and the manufacturer never
   * drift: in every round they hold, and keep, the strategy they were
   * configured with.
   */
  lemma {:induction false} PinnedAgentsKeepStrategy(cfg: Config, log: seq<RoundLog>, r: nat, a: Agent)
    requires RunSoFar(cfg, log) && r < |log| && !Drifts(a)
    ensures log[r].held[a] == InitialStrategies(cfg)[a] && log[r].next[a] == InitialStrategies(cfg)[a]
  {
    HeldOfRound(cfg, log, r);
    if r > 0 {
      PinnedAgentsKeepStrategy(cfg, log, r - 1, a);
    }
    TurnOfRun(cfg, log, r, a);
  }

  /**
   * A strategy changes only by drift: the agent is the emerging markets or
   * the crypto market, it is not the first round, and the agent's payoff fell
   * below its payoff of the round before.
   */
  lemma DriftNeedsDrop(cfg: Config, log: seq<RoundLog>, r: nat, a: Agent)
    requires RunSoFar(cfg, log) && r < |log| && log[r].next[a] != log[r].held[a]
    ensures Drifts(a) && r > 0 && log[r].payoffs[a] < log[r - 1].payoffs[a]
  {
    TurnOfRun(cfg, log, r, a);
  }

  /** Without mistakes every agent plays the strategy it holds. */
  lemma NoMistakesPlayHeld(cfg: Config, log: seq<RoundLog>, r: nat)
    requires RunSoFar(cfg, log) && r < |log| && cfg.mistakeProb <= 0.0
    ensures IsProfile(log[r].held) && log[r].played == log[r].held && log[r].actions == Play(log[r].held)
  {
    forall a ensures AgentOf(log[r].held[a]) == a && log[r].played[a] == log[r].held[a]
                     && log[r].actions[a] == Generate(log[r].held[a]) {
      TurnOfRun(cfg, log, r, a);
    }
    var e := log[r];
    assert Keyed(e);
    assert e.played == e.held;
    assert e.actions == Play(e.held);
  }

  /**
   * Without mistakes every payoff is the normal-form payoff of the strategy
   * held against the strategies held the round before (none in the first
   * round).
   */
  lemma NoMistakesFollowMatrix(cfg: Config, log: seq<RoundLog>, r: nat, a: Agent)
    requires RunSoFar(cfg, log) && r < |log| && cfg.mistakeProb <= 0.0
    ensures log[r].payoffs[a] == MatrixPayoff(log[r].held[a], if r == 0 then map[] else log[r - 1].held)
  {
    var p: map<Agent, Strategy> := if r == 0 then map[] else log[r - 1].held;
    PriorOfRound(cfg, log, r);
    if r > 0 {
      NoMistakesPlayHeld(cfg, log, r - 1);
    } else {
      assert Play(p) == map[];
    }
    assert IsProfile(p) && log[r].prior == Play(p);
    NoMistakesPlayHeld(cfg, log, r);
    var s := log[r].held[a];
    assert AgentOf(s) == a && log[r].actions[a] == Generate(s);
    PayoffOfRun(cfg, log, r, a);
    PayoffMatrix(s, p);
  }

  /**
   * Agent `a`'s turn in round `r` against the draws: the draw at the start of
   * its turn decides a mistake (and the next one the strategy played
   * instead); after the draws the mistake took, the next draw decides a
   * drift, which for the emerging markets and the crypto market after a drop
   * in payoff selects the strategy the draw after it picks.
   */
  lemma TurnDrawsOfRun(cfg: Config, random: nat -> real, log: seq<RoundLog>, bounds: seq<nat>, r: nat, a: Agent)
    requires IsDrawSource(random) && RunSoFar(cfg, log) && DrawTrace(random, cfg.mistakeProb, log, bounds) && r < |log|
    ensures |log[r].cursors| == |Order| + 1 && a in log[r].held && a in log[r].played && a in log[r].next
    ensures r > 0 ==> a in log[r].payoffs && a in log[r - 1].payoffs
    ensures var c := log[r].cursors[Rank(a)];
      log[r].played[a] == if random(c) < cfg.mistakeProb then PickStrategy(a, random(c + 1)) else log[r].held[a]
    ensures var d := log[r].cursors[Rank(a)] + MistakeDraws(random(log[r].cursors[Rank(a)]), cfg.mistakeProb);
      log[r].next[a] ==
        if r > 0 && random(d) < DriftProb && Drifts(a) && log[r].payoffs[a] < log[r - 1].payoffs[a]
        then PickStrategy(a, random(d + 1))
        else log[r].held[a]
  {
    var e := log[r];
    assert RoundDraws(r, e, cfg.mistakeProb, random, bounds[r], bounds[r + 1]);
    TurnDrawsOfRound(r, e, cfg.mistakeProb, random, bounds[r], bounds[r + 1], a);
    if r > 0 {
      TurnOfRun(cfg, log, r, a);
      RunRounds(cfg, log, r);
      assert log[..r][r - 1] == log[r - 1];
      assert e.prevPayoffs == log[r - 1].payoffs;
    }
  }

  /** Positions `c[0..n]` that each advance by between `lo` and `hi` advance by between `n * lo` and `n * hi` in all. */
  lemma {:induction false} StepsBetween(c: seq<nat>, n: nat, lo: int, hi: int)
    requires n < |c| && forall k :: 0 <= k < n ==> lo <= c[k + 1] as int - c[k] <= hi
    ensures n * lo <= c[n] as int - c[0] <= n * hi
  {
    if n > 0 {
      StepsBetween(c, n - 1, lo, hi);
      assert n * lo == (n - 1) * lo + lo && n * hi == (n - 1) * hi + hi;
    }
  }

  /**
   * The draws a round makes: one or two per agent in the first round (the
   * mistake test and its pick), two to four per agent after it (with the
   * drift test and its pick).
   */
  lemma DrawsPerRound(cfg: Config, random: nat -> real, log: seq<RoundLog>, bounds: seq<nat>, r: nat)
    requires DrawTrace(random, cfg.mistakeProb, log, bounds) && r < |log|
    ensures (if r == 0 then 1 else 2) * |Order| <= bounds[r + 1] as int - bounds[r] <= (if r == 0 then 2 else 4) * |Order|
  {
    var e := log[r];
    var lo: int, hi: int := if r == 0 then 1 else 2, if r == 0 then 2 else 4;
    assert RoundDraws(r, e, cfg.mistakeProb, random, bounds[r], bounds[r + 1]);
    forall k | 0 <= k < |Order| ensures lo <= e.cursors[k + 1] as int - e.cursors[k] <= hi {
      var a := Order[k];
      OrderRanks(k);
      assert TurnDrawsAt(a, r, e.held[a], e.played[a], e.next[a], e.payoffs[a],
                         PrevPayoff(e.prevPayoffs, r, a), cfg.mistakeProb, random, e.cursors, Rank(a));
    }
    StepsBetween(e.cursors, |Order|, lo, hi);
  }

  /** The last entry of every payoff history is that agent's plain (undiscounted) total. */
  lemma HistoryEndsWithTotal(pays: seq<map<Agent, real>>, history: map<Agent, seq<real>>, a: Agent)
    requires HistoriesSoFar(pays, history) && |pays| > 0
    ensures |history[a]| == |pays| && history[a][|pays| - 1] == Sum(Column(pays, a))
  {
    RunningTotal(history[a], Column(pays, a));
  }

  /** Every snapshot after the first holds one health value in [0, 1] per cell. */
  lemma SnapshotsInUnitRange(g0: seq<real>, gh: seq<seq<real>>, log: seq<RoundLog>, r: nat)
    requires GridTrace(g0, gh, log) && 0 < r <= |log|
    ensures |gh[r]| == CellCount && InUnitRange(gh[r])
  {
    assert GridStepped(gh[r - 1], log[r - 1].actions, gh[r]);
  }

  /** The configuration of a peaceful run: no mistakes, negotiation, and no retaliation by anyone. */
  predicate Peaceful(cfg: Config) {
    && cfg.mistakeProb <= 0.0 && cfg.usStrategy == Negotiate
    && cfg.euStrategy != EuStrategy.Retaliate && cfg.chinaStrategy != ChinaStrategy.Retaliate
  }

  /** Every round of a peaceful run has neither a tariff impact nor a retaliation impact on the grid. */
  lemma PeacefulRoundImpacts(cfg: Config, log: seq<RoundLog>, k: nat)
    requires RunSoFar(cfg, log) && k < |log| && Peaceful(cfg)
    ensures RoundActions(log[k].actions)
    ensures TariffImpact(log[k].actions) == 0.0 && RetaliationImpact(log[k].actions) == 0.0
  {
    NoMistakesPlayHeld(cfg, log, k);
    PinnedAgentsKeepStrategy(cfg, log, k, US);
    PinnedAgentsKeepStrategy(cfg, log, k, EU);
    PinnedAgentsKeepStrategy(cfg, log, k, China);
    var held := log[k].held;
    TariffImpactOfProfile(held);
    RetaliationImpactOfProfile(held);
  }

  /**
   * A peaceful run leaves a grid in full health in full health after every
   * round.
   */
  lemma {:induction false} PeacefulRunKeepsFullHealth(cfg: Config, log: seq<RoundLog>, gh: seq<seq<real>>, r: nat)
    requires RunSoFar(cfg, log) && GridTrace(Uniform(1.0), gh, log) && r <= |log| && Peaceful(cfg)
    ensures gh[r] == Uniform(1.0)
  {
    if r > 0 {
      var k := r - 1;
      PeacefulRunKeepsFullHealth(cfg, log, gh, k);
      assert GridStepped(gh[k], log[k].actions, gh[r]);
      PeacefulRoundImpacts(cfg, log, k);
      FullHealthIsFixedPoint();
    }
  }
}
