/**
 * The round loop of a run: every round each agent, in table order, plays its
 * active strategy (or, by mistake, a random one of its strategies), earns its
 * payoff against the previous round's actions, pushes the payoff onto its
 * running history and, for the emerging markets and the crypto market, may
 * drift to a random strategy after a drop in payoff. In spatial mode the grid
 * is updated after every round and snapshotted. At the end each agent's
 * payoffs are discounted and summed.
 *
 * `Math.random()` is an oracle: `random(k)` is the value of the k-th call,
 * in [0,1), and the methods thread the number of calls made so far.
 */
module Simulation {
  import opened Wrappers
  import opened Agents
  import opened Accumulation
  import opened GridModel

  /** The parameter bundle of a run. */
  datatype Config = Config(
    simulationType: string,
    numRounds: nat,
    mistakeProb: real,
    usStrategy: UsStrategy,
    euStrategy: EuStrategy,
    chinaStrategy: ChinaStrategy)

  /** The result bundle: discounted payoffs, grid snapshots (spatial mode only) and running payoff histories. */
  datatype SimResult = SimResult(
    payoffs: map<Agent, real>,
    gridHistory: Option<seq<seq<real>>>,
    payoffHistory: map<Agent, seq<real>>)

  /** Chance that an eligible agent reconsiders its strategy after a round. */
  const DriftProb: real := 0.2

  /** Spatial mode is on exactly for the simulation type "CA". */
  predicate Spatial(cfg: Config) {
    cfg.simulationType == "CA"
  }

  ghost predicate IsDrawSource(random: nat -> real) {
    forall k :: 0.0 <= random(k) < 1.0
  }

  lemma MulBelow(u: real, n: real)
    requires 0.0 <= u < 1.0 && n > 0.0
    ensures 0.0 <= u * n < n
  {
  }

  /** `strats[Math.floor(u * strats.length)]`: the strategy of agent `a` that a draw `u` selects. */
  function PickStrategy(a: Agent, u: real): (s: Strategy)
    requires 0.0 <= u < 1.0
    ensures AgentOf(s) == a
  {
    var n := |Strategies(a)|;
    MulBelow(u, n as real);
    Strategies(a)[(u * n as real).Floor]
  }

  /** Every strategy of an agent, the current one included, is selected by some draw. */
  lemma PickReachesEvery(s: Strategy)
    ensures exists u :: 0.0 <= u < 1.0 && PickStrategy(AgentOf(s), u) == s
  {
    var ss := Strategies(AgentOf(s));
    StrategyListed(s);
    var k :| 0 <= k < |ss| && ss[k] == s;
    var n := |ss| as real;
    var u := k as real / n;
    assert u * n == k as real;
    assert PickStrategy(AgentOf(s), u) == s;
  }

  /** The strategies a run starts from: the three given ones, "redirect" for the emerging markets, "invest" for crypto. */
  function InitialStrategies(cfg: Config): (m: map<Agent, Strategy>)
    ensures IsStrategyMap(m)
  {
    var m := map[US := UsPlays(cfg.usStrategy), EU := EuPlays(cfg.euStrategy), China := ChinaPlays(cfg.chinaStrategy),
                 EM := EmPlays(EmStrategy.Redirect), Agent.Crypto := CryptoPlays(Invest)];
    CoversAgents(m);
    m
  }

  lemma CoversAgents<T>(m: map<Agent, T>)
    requires US in m && EU in m && China in m && EM in m && Agent.Crypto in m
    ensures forall a :: a in m
  {
    forall a ensures a in m {
      match a
      case US => case EU => case China => case EM => case Crypto =>
    }
  }

  lemma EveryAgentListed()
    ensures forall a: Agent :: a in AllAgents && a in Order
  {
    forall a: Agent ensures a in AllAgents && a in Order {
      match a
      case US => assert Order[0] == a;
      case EU => assert Order[1] == a;
      case China => assert Order[2] == a;
      case EM => assert Order[3] == a;
      case Crypto => assert Order[4] == a;
    }
  }

  /** A strategy for every agent, each from that agent's own table. */
  ghost predicate IsStrategyMap(m: map<Agent, Strategy>) {
    (forall a :: a in m) && IsProfile(m)
  }

  /**
   * What one agent's turn yields, given the strategy it holds: the action of
   * the strategy it played (its own unless it made a mistake), the payoff of
   * that action against the previous round's actions, and the strategy it
   * holds next, which differs only by drift after a drop in payoff.
   */
  ghost predicate TurnOk(a: Agent, round: nat, strategy: Strategy, prior: map<Agent, Action>, prevPayoff: real,
                         mistakeProb: real, action: Action, payoff: real, played: Strategy, next: Strategy)
    requires ValidPrior(prior)
  {
    && AgentOf(played) == a && action == Generate(played) && Shaped(a, action)
    && payoff == Payoff(a, action, prior)
    && (mistakeProb <= 0.0 ==> played == strategy)
    && AgentOf(next) == a
    && (next != strategy ==> Drifts(a) && round > 0 && payoff < prevPayoff)
  }

  /**
   * The mistake rule: the first draw `u` below the mistake probability makes
   * the agent play the strategy the second draw `v` selects instead of its own.
   */
  ghost predicate Mistake(a: Agent, strategy: Strategy, played: Strategy, mistakeProb: real, u: real, v: real) {
    0.0 <= v < 1.0 && (if u < mistakeProb then played == PickStrategy(a, v) else played == strategy)
  }

  /** The number of draws the mistake rule consumes: one, and one more for a replacement strategy. */
  function MistakeDraws(u: real, mistakeProb: real): (n: nat)
    ensures n == 1 <==> !(u < mistakeProb)
  {
    if u < mistakeProb then 2 else 1
  }

  /**
   * The drift rule: from the second round on, the draw `w` below the drift
   * probability makes a drifting agent whose payoff fell take the strategy
   * the draw `z` selects; `used` is the number of draws consumed (none in the
   * first round, one for `w` otherwise, one more for `z` on a drift).
   */
  ghost predicate Drift(a: Agent, round: nat, strategy: Strategy, payoff: real, prevPayoff: real,
                        w: real, z: real, next: Strategy, used: int) {
    && 0.0 <= z < 1.0
    && if round == 0 then next == strategy && used == 0
       else if w < DriftProb && Drifts(a) && payoff < prevPayoff then next == PickStrategy(a, z) && used == 2
       else next == strategy && used == 1
  }

  /**
   * How one turn uses the draws from position `start` to `end`: the mistake
   * rule on the first two, then the drift rule on the next two after those
   * the mistake rule consumed.
   */
  ghost predicate TurnDraws(a: Agent, round: nat, strategy: Strategy, played: Strategy, next: Strategy,
                            payoff: real, prevPayoff: real, mistakeProb: real, random: nat -> real, start: nat, end: nat) {
    && Mistake(a, strategy, played, mistakeProb, random(start), random(start + 1))
    && var d := start + MistakeDraws(random(start), mistakeProb);
       Drift(a, round, strategy, payoff, prevPayoff, random(d), random(d + 1), next, end - d)
  }

  /** The turn at position `k` of a round whose turns start at the positions in `cursors`. */
  ghost predicate TurnDrawsAt(a: Agent, round: nat, strategy: Strategy, played: Strategy, next: Strategy,
                              payoff: real, prevPayoff: real, mistakeProb: real, random: nat -> real,
                              cursors: seq<nat>, k: nat) {
    k + 1 < |cursors| && TurnDraws(a, round, strategy, played, next, payoff, prevPayoff, mistakeProb, random, cursors[k], cursors[k + 1])
  }

  /**
   * One agent's turn: the body of the per-agent callback of a round. It draws
   * once for a mistake (and once more for the replacement strategy), computes
   * the payoff against the previous round's actions, and from the second
   * round on draws once for drift (and once more for the new strategy). It
   * returns the action, the payoff, the strategy for the next round and the
   * new number of draws made; `played` is the strategy whose action was taken.
   */
  method TakeTurn(a: Agent, strategy: Strategy, round: nat, prior: map<Agent, Action>, prevPayoff: real,
                  mistakeProb: real, random: nat -> real, cursor: nat)
    returns (action: Action, payoff: real, next: Strategy, cursor': nat, ghost played: Strategy)
    requires AgentOf(strategy) == a && ValidPrior(prior) && IsDrawSource(random)
    ensures TurnOk(a, round, strategy, prior, prevPayoff, mistakeProb, action, payoff, played, next)
    ensures TurnDraws(a, round, strategy, played, next, payoff, prevPayoff, mistakeProb, random, cursor, cursor')
    ensures AgentOf(next) == a && cursor < cursor' <= cursor + 4
    ensures round == 0 ==> next == strategy && cursor' <= cursor + 2
  {
    var k := cursor;
    action, played := Generate(strategy), strategy;
    var u := random(k);
    k := k + 1;
    if u < mistakeProb {
      var pick := PickStrategy(a, random(k));
      k := k + 1;
      action, played := Generate(pick), pick;
    }
    GeneratedIsShaped(played);
    payoff := Payoff(a, action, prior);
    next := strategy;
    if round > 0 {
      var w := random(k);
      k := k + 1;
      if w < DriftProb && a != US && a != EU && a != China {
        if payoff < prevPayoff {
          next := PickStrategy(a, random(k));
          k := k + 1;
        }
      }
    }
    cursor' := k;
  }

  /** The position of an agent in the round order. */
  function Rank(a: Agent): (k: nat)
    ensures k < |Order| && Order[k] == a
  {
    match a
    case US => 0
    case EU => 1
    case China => 2
    case EM => 3
    case Crypto => 4
  }

  lemma OrderRanks(k: nat)
    requires k < |Order|
    ensures Rank(Order[k]) == k
  {
  }

  /** The payoff an agent compares against when it may drift: its payoff of the previous round. */
  function PrevPayoff(prevPayoffs: map<Agent, real>, round: nat, a: Agent): real {
    if round > 0 && a in prevPayoffs then prevPayoffs[a] else 0.0
  }

  ghost predicate HasAll<T>(m: map<Agent, T>) {
    forall a :: a in m
  }

  /**
   * What one round records: the strategies the agents `held` going in, the
   * previous round's actions and payoffs they respond to, the round's action
   * and payoff maps, the strategies actually `played`, the strategies
   * held `next`, and the number of draws made before each turn in round
   * order and after the last one (`cursors`).
   */
  datatype RoundLog = RoundLog(
    held: map<Agent, Strategy>,
    prior: map<Agent, Action>,
    prevPayoffs: map<Agent, real>,
    actions: map<Agent, Action>,
    payoffs: map<Agent, real>,
    played: map<Agent, Strategy>,
    next: map<Agent, Strategy>,
    cursors: seq<nat>)

  /** Every agent has an entry in each of the round's maps. */
  ghost predicate Keyed(log: RoundLog) {
    HasAll(log.held) && HasAll(log.actions) && HasAll(log.payoffs) && HasAll(log.played) && HasAll(log.next)
  }

  /** A full round: every agent took its turn, as `TurnOk` describes, against the same previous round. */
  ghost predicate RoundPlayed(round: nat, log: RoundLog, mistakeProb: real) {
    && Keyed(log)
    && ValidPrior(log.prior)
    && forall a {:trigger TurnOk(a, round, log.held[a], log.prior, PrevPayoff(log.prevPayoffs, round, a), mistakeProb,
                                 log.actions[a], log.payoffs[a], log.played[a], log.next[a])} ::
         TurnOk(a, round, log.held[a], log.prior, PrevPayoff(log.prevPayoffs, round, a), mistakeProb,
                log.actions[a], log.payoffs[a], log.played[a], log.next[a])
  }

  /** A full round yields valid actions for the next round to respond to, and a strategy per agent from its own table. */
  lemma RoundPlayedYields(round: nat, log: RoundLog, mistakeProb: real)
    requires RoundPlayed(round, log, mistakeProb)
    ensures ValidPrior(log.actions) && IsStrategyMap(log.next)
  {
    forall a ensures Shaped(a, log.actions[a]) && AgentOf(log.next[a]) == a {
      assert TurnOk(a, round, log.held[a], log.prior, PrevPayoff(log.prevPayoffs, round, a), mistakeProb,
                    log.actions[a], log.payoffs[a], log.played[a], log.next[a]);
    }
  }

  /**
   * How a round uses the draws: its turns, in round order, take consecutive
   * stretches of draws from `start` to `end`, each as `TurnDraws` describes.
   */
  ghost predicate RoundDraws(round: nat, log: RoundLog, mistakeProb: real, random: nat -> real, start: nat, end: nat) {
    && Keyed(log)
    && |log.cursors| == |Order| + 1 && log.cursors[0] == start && log.cursors[|Order|] == end
    && forall a {:trigger TurnDrawsAt(a, round, log.held[a], log.played[a], log.next[a], log.payoffs[a],
                                      PrevPayoff(log.prevPayoffs, round, a), mistakeProb, random, log.cursors, Rank(a))} ::
         TurnDrawsAt(a, round, log.held[a], log.played[a], log.next[a], log.payoffs[a],
                     PrevPayoff(log.prevPayoffs, round, a), mistakeProb, random, log.cursors, Rank(a))
  }

  /** Agent `a`'s turn in a round, read off the draws at the position its turn starts. */
  lemma TurnDrawsOfRound(round: nat, log: RoundLog, mistakeProb: real, random: nat -> real, start: nat, end: nat, a: Agent)
    requires IsDrawSource(random) && RoundDraws(round, log, mistakeProb, random, start, end)
    ensures var c := log.cursors[Rank(a)];
      log.played[a] == if random(c) < mistakeProb then PickStrategy(a, random(c + 1)) else log.held[a]
    ensures var d := log.cursors[Rank(a)] + MistakeDraws(random(log.cursors[Rank(a)]), mistakeProb);
      log.next[a] ==
        if round > 0 && random(d) < DriftProb && Drifts(a) && log.payoffs[a] < PrevPayoff(log.prevPayoffs, round, a)
        then PickStrategy(a, random(d + 1))
        else log.held[a]
  {
    assert TurnDrawsAt(a, round, log.held[a], log.played[a], log.next[a], log.payoffs[a],
                       PrevPayoff(log.prevPayoffs, round, a), mistakeProb, random, log.cursors, Rank(a));
  }

  /** The draws of the first `t` turns of a round, as `RoundDraws` describes them. */
  ghost predicate DrawsSoFar(t: nat, round: nat, active: map<Agent, Strategy>, prevPayoffs: map<Agent, real>,
                             mistakeProb: real, random: nat -> real, payoffs: map<Agent, real>,
                             played: map<Agent, Strategy>, active': map<Agent, Strategy>, cursors: seq<nat>) {
    && |cursors| == t + 1
    && forall a {:trigger TurnDrawsAt(a, round, active[a], played[a], active'[a], payoffs[a],
                                      PrevPayoff(prevPayoffs, round, a), mistakeProb, random, cursors, Rank(a))} ::
         Rank(a) < t && a in active && a in played && a in active' && a in payoffs ==>
           TurnDrawsAt(a, round, active[a], played[a], active'[a], payoffs[a],
                       PrevPayoff(prevPayoffs, round, a), mistakeProb, random, cursors, Rank(a))
  }

  /** The turn of the `t`-th agent, ending at draw `c`, extends the draws of a round by one turn. */
  lemma DrawsStep(t: nat, round: nat, active: map<Agent, Strategy>, prevPayoffs: map<Agent, real>,
                  mistakeProb: real, random: nat -> real, payoffs: map<Agent, real>,
                  played: map<Agent, Strategy>, active': map<Agent, Strategy>, cursors: seq<nat>,
                  payoff: real, pl: Strategy, next: Strategy, c: nat)
    requires t < |Order| && Order[t] in active
    requires DrawsSoFar(t, round, active, prevPayoffs, mistakeProb, random, payoffs, played, active', cursors)
    requires TurnDraws(Order[t], round, active[Order[t]], pl, next, payoff, PrevPayoff(prevPayoffs, round, Order[t]),
                       mistakeProb, random, cursors[t], c)
    ensures DrawsSoFar(t + 1, round, active, prevPayoffs, mistakeProb, random, payoffs[Order[t] := payoff],
                       played[Order[t] := pl], active'[Order[t] := next], cursors + [c])
  {
    var b := Order[t];
    OrderRanks(t);
    var payoffs1, played1, active1, cursors1 := payoffs[b := payoff], played[b := pl], active'[b := next], cursors + [c];
    forall a {:trigger TurnDrawsAt(a, round, active[a], played1[a], active1[a], payoffs1[a],
                                   PrevPayoff(prevPayoffs, round, a), mistakeProb, random, cursors1, Rank(a))}
      | Rank(a) < t + 1 && a in active && a in played1 && a in active1 && a in payoffs1
      ensures TurnDrawsAt(a, round, active[a], played1[a], active1[a], payoffs1[a],
                          PrevPayoff(prevPayoffs, round, a), mistakeProb, random, cursors1, Rank(a))
    {
      if a == b {
        assert cursors1[t] == cursors[t] && cursors1[t + 1] == c;
      } else {
        assert Rank(a) < t by {
          assert Order[Rank(a)] == a;
        }
        assert TurnDrawsAt(a, round, active[a], played[a], active'[a], payoffs[a],
                           PrevPayoff(prevPayoffs, round, a), mistakeProb, random, cursors, Rank(a));
        assert cursors1[Rank(a)] == cursors[Rank(a)] && cursors1[Rank(a) + 1] == cursors[Rank(a) + 1];
      }
    }
  }

  /**
   * The state of a round after the first `t` turns: exactly the first `t`
   * agents of the round order have recorded a turn (action, payoff, played
   * and next strategy, history pushed); every other agent still has its old
   * history and strategy.
   */
  ghost predicate RoundSoFar(t: nat, round: nat, active: map<Agent, Strategy>, prior: map<Agent, Action>,
                             prevPayoffs: map<Agent, real>, history: map<Agent, seq<real>>, mistakeProb: real,
                             actions: map<Agent, Action>, payoffs: map<Agent, real>, history': map<Agent, seq<real>>,
                             active': map<Agent, Strategy>, played: map<Agent, Strategy>)
    requires IsStrategyMap(active) && ValidPrior(prior) && (forall a :: a in history)
  {
    && (forall a :: a in actions <==> Rank(a) < t)
    && (forall a :: a in active' && a in history')
    && (forall a :: a in actions ==> a in payoffs && a in played)
    && (forall a {:trigger TurnOk(a, round, active[a], prior, PrevPayoff(prevPayoffs, round, a), mistakeProb,
                                  actions[a], payoffs[a], played[a], active'[a])} ::
          a in actions ==> TurnOk(a, round, active[a], prior, PrevPayoff(prevPayoffs, round, a), mistakeProb,
                                  actions[a], payoffs[a], played[a], active'[a]))
    && (forall a :: a in actions ==> history'[a] == Extend(history[a], payoffs[a]))
    && (forall a :: a !in actions ==> history'[a] == history[a] && active'[a] == active[a])
  }

  /** Recording the turn of the `t`-th agent in the round order extends a round state by one turn. */
  lemma RoundStep(t: nat, round: nat, active: map<Agent, Strategy>, prior: map<Agent, Action>,
                  prevPayoffs: map<Agent, real>, history: map<Agent, seq<real>>, mistakeProb: real,
                  actions: map<Agent, Action>, payoffs: map<Agent, real>, history': map<Agent, seq<real>>,
                  active': map<Agent, Strategy>, played: map<Agent, Strategy>,
                  action: Action, payoff: real, next: Strategy, pl: Strategy)
    requires IsStrategyMap(active) && ValidPrior(prior) && (forall a :: a in history)
    requires t < |Order|
    requires RoundSoFar(t, round, active, prior, prevPayoffs, history, mistakeProb, actions, payoffs, history', active', played)
    requires TurnOk(Order[t], round, active'[Order[t]], prior, PrevPayoff(prevPayoffs, round, Order[t]), mistakeProb,
                    action, payoff, pl, next)
    ensures RoundSoFar(t + 1, round, active, prior, prevPayoffs, history, mistakeProb,
                       actions[Order[t] := action], payoffs[Order[t] := payoff],
                       history'[Order[t] := Extend(history'[Order[t]], payoff)],
                       active'[Order[t] := next], played[Order[t] := pl])
  {
    var b := Order[t];
    OrderRanks(t);
    var actions1, payoffs1, played1 := actions[b := action], payoffs[b := payoff], played[b := pl];
    var history1, active1 := history'[b := Extend(history'[b], payoff)], active'[b := next];
    assert b !in actions && active'[b] == active[b] && history'[b] == history[b];
    forall a ensures a in actions1 <==> Rank(a) < t + 1 {
      assert Rank(a) == t ==> a == b;
    }
    forall a {:trigger TurnOk(a, round, active[a], prior, PrevPayoff(prevPayoffs, round, a), mistakeProb,
                              actions1[a], payoffs1[a], played1[a], active1[a])} | a in actions1
      ensures TurnOk(a, round, active[a], prior, PrevPayoff(prevPayoffs, round, a), mistakeProb,
                     actions1[a], payoffs1[a], played1[a], active1[a])
    {
      if a == b {
        assert actions1[a] == action && payoffs1[a] == payoff && played1[a] == pl && active1[a] == next;
      } else {
        assert actions1[a] == actions[a] && payoffs1[a] == payoffs[a] && played1[a] == played[a] && active1[a] == active'[a];
        assert TurnOk(a, round, active[a], prior, PrevPayoff(prevPayoffs, round, a), mistakeProb,
                      actions[a], payoffs[a], played[a], active'[a]);
      }
    }
    assert RoundSoFar(t + 1, round, active, prior, prevPayoffs, history, mistakeProb,
                      actions1, payoffs1, history1, active1, played1);
    forall a | a in actions1 ensures history1[a] == Extend(history[a], payoffs1[a]) {
    }
    forall a | a !in actions1 ensures history1[a] == history[a] && active1[a] == active[a] {
    }
  }

  /** After all five turns every agent has recorded its turn. */
  lemma RoundComplete(round: nat, active: map<Agent, Strategy>, prior: map<Agent, Action>,
                      prevPayoffs: map<Agent, real>, history: map<Agent, seq<real>>, mistakeProb: real,
                      actions: map<Agent, Action>, payoffs: map<Agent, real>, history': map<Agent, seq<real>>,
                      active': map<Agent, Strategy>, played: map<Agent, Strategy>, cursors: seq<nat>)
    requires IsStrategyMap(active) && ValidPrior(prior) && (forall a :: a in history)
    requires RoundSoFar(|Order|, round, active, prior, prevPayoffs, history, mistakeProb,
                        actions, payoffs, history', active', played)
    ensures RoundPlayed(round, RoundLog(active, prior, prevPayoffs, actions, payoffs, played, active', cursors), mistakeProb)
    ensures HasAll(history') && forall a :: history'[a] == Extend(history[a], payoffs[a])
  {
    assert forall a :: a in actions by {
      forall a ensures a in actions {
        assert Rank(a) < |Order|;
      }
    }
  }

  /** After all five turns the draws of the round are as `RoundDraws` describes them. */
  lemma DrawsComplete(round: nat, log: RoundLog, mistakeProb: real, random: nat -> real, start: nat, end: nat)
    requires Keyed(log)
    requires DrawsSoFar(|Order|, round, log.held, log.prevPayoffs, mistakeProb, random, log.payoffs, log.played, log.next, log.cursors)
    requires log.cursors[0] == start && log.cursors[|Order|] == end
    ensures RoundDraws(round, log, mistakeProb, random, start, end)
  {
    forall a ensures TurnDrawsAt(a, round, log.held[a], log.played[a], log.next[a], log.payoffs[a],
                                 PrevPayoff(log.prevPayoffs, round, a), mistakeProb, random, log.cursors, Rank(a)) {
      assert Rank(a) < |Order|;
    }
  }

  /**
   * One round: the five turns in table order against the same previous-round
   * action map, so no agent sees another's action of this round. Returns the
   * round's actions and payoffs, the histories with this round's running sums
   * pushed, the strategies for the next round and the new number of draws;
   * `played` holds the strategies whose actions were taken and `cursors` the
   * number of draws made before each turn and after the last.
   */
  method PlayRound(round: nat, active: map<Agent, Strategy>, prior: map<Agent, Action>, prevPayoffs: map<Agent, real>,
                   history: map<Agent, seq<real>>, mistakeProb: real, random: nat -> real, cursor: nat)
    returns (actions: map<Agent, Action>, payoffs: map<Agent, real>, history': map<Agent, seq<real>>,
             active': map<Agent, Strategy>, cursor': nat, ghost played: map<Agent, Strategy>, ghost cursors: seq<nat>)
    requires IsStrategyMap(active) && ValidPrior(prior) && IsDrawSource(random)
    requires forall a :: a in history
    ensures RoundPlayed(round, RoundLog(active, prior, prevPayoffs, actions, payoffs, played, active', cursors), mistakeProb)
    ensures RoundDraws(round, RoundLog(active, prior, prevPayoffs, actions, payoffs, played, active', cursors),
                       mistakeProb, random, cursor, cursor')
    ensures HasAll(history') && forall a :: history'[a] == Extend(history[a], payoffs[a])
  {
    actions, payoffs, history', active', cursor', played, cursors := map[], map[], history, active, cursor, map[], [cursor];
    for t := 0 to |Order|
      invariant RoundSoFar(t, round, active, prior, prevPayoffs, history, mistakeProb,
                           actions, payoffs, history', active', played)
      invariant DrawsSoFar(t, round, active, prevPayoffs, mistakeProb, random, payoffs, played, active', cursors)
      invariant cursors[0] == cursor && cursors[t] == cursor'
    {
      var a := Order[t];
      OrderRanks(t);
      assert a !in actions && active'[a] == active[a];
      var action, payoff, next, c, pl := TakeTurn(a, active'[a], round, prior, PrevPayoff(prevPayoffs, round, a),
                                                  mistakeProb, random, cursor');
      RoundStep(t, round, active, prior, prevPayoffs, history, mistakeProb,
                actions, payoffs, history', active', played, action, payoff, next, pl);
      DrawsStep(t, round, active, prevPayoffs, mistakeProb, random, payoffs, played, active', cursors, payoff, pl, next, c);
      actions := actions[a := action];
      payoffs := payoffs[a := payoff];
      played := played[a := pl];
      history' := history'[a := Extend(history'[a], payoff)];
      active' := active'[a := next];
      cursors := cursors + [c];
      cursor' := c;
    }
    RoundComplete(round, active, prior, prevPayoffs, history, mistakeProb, actions, payoffs, history', active', played, cursors);
    DrawsComplete(round, RoundLog(active, prior, prevPayoffs, actions, payoffs, played, active', cursors),
                  mistakeProb, random, cursor, cursor');
  }

  // ---------------------------------------------------------------------
  // The run: rounds, payoff histories, grid snapshots and the discounted sum.

  /** The strategies held after the rounds of `log`: the configured ones before the first round. */
  function Held(cfg: Config, log: seq<RoundLog>): map<Agent, Strategy> {
    if |log| == 0 then InitialStrategies(cfg) else log[|log| - 1].next
  }

  /** The actions the next round responds to: none before the first round. */
  function LastActions(log: seq<RoundLog>): map<Agent, Action> {
    if |log| == 0 then map[] else log[|log| - 1].actions
  }

  /** The payoffs of the last round: none before the first round. */
  function LastPayoffs(log: seq<RoundLog>): map<Agent, real> {
    if |log| == 0 then map[] else log[|log| - 1].payoffs
  }

  /**
   * The rounds of a run: every round has an entry for every agent, and the
   * rounds are chained as `Chained` describes.
   */
  ghost predicate RunSoFar(cfg: Config, log: seq<RoundLog>) {
    (forall r :: 0 <= r < |log| ==> Keyed(log[r])) && Chained(cfg, log)
  }

  /**
   * A run of no rounds, or a shorter run followed by a full round whose
   * agents hold the strategies the shorter run left them (the configured ones
   * at the start) and respond to its last round's actions and payoffs (none
   * in the first round).
   */
  ghost predicate Chained(cfg: Config, log: seq<RoundLog>)
    decreases |log|
  {
    if |log| == 0 then true
    else
      var n := |log| - 1;
      && Chained(cfg, log[..n])
      && RoundPlayed(n, log[n], cfg.mistakeProb)
      && log[n].held == Held(cfg, log[..n])
      && log[n].prior == LastActions(log[..n])
      && log[n].prevPayoffs == LastPayoffs(log[..n])
  }

  lemma RunStep(cfg: Config, log: seq<RoundLog>, round: RoundLog)
    requires RunSoFar(cfg, log) && RoundPlayed(|log|, round, cfg.mistakeProb)
    requires round.held == Held(cfg, log) && round.prior == LastActions(log) && round.prevPayoffs == LastPayoffs(log)
    ensures RunSoFar(cfg, log + [round])
  {
    var log' := log + [round];
    assert log'[..|log|] == log;
    forall r | 0 <= r < |log'| ensures Keyed(log'[r]) {
      if r < |log| {
        assert log'[r] == log[r];
      }
    }
  }

  /** Round `r` of a run, as the run's definition describes it. */
  ghost predicate RoundOfRun(cfg: Config, log: seq<RoundLog>, r: nat)
    requires r < |log|
  {
    && RoundPlayed(r, log[r], cfg.mistakeProb)
    && log[r].held == Held(cfg, log[..r])
    && log[r].prior == LastActions(log[..r])
    && log[r].prevPayoffs == LastPayoffs(log[..r])
  }

  /** Every round of a run is a full round against the round before it. */
  lemma {:induction false} RunRounds(cfg: Config, log: seq<RoundLog>, r: nat)
    requires Chained(cfg, log) && r < |log|
    ensures RoundOfRun(cfg, log, r)
    decreases |log|
  {
    var n := |log| - 1;
    if r < n {
      var prefix := log[..n];
      RunRounds(cfg, prefix, r);
      assert prefix[r] == log[r] && prefix[..r] == log[..r];
    }
  }

  /** What a run hands to its next round: a strategy map and valid actions to respond to. */
  lemma RunSoFarNext(cfg: Config, log: seq<RoundLog>)
    requires RunSoFar(cfg, log)
    ensures IsStrategyMap(Held(cfg, log)) && ValidPrior(LastActions(log))
  {
    if |log| > 0 {
      RoundPlayedYields(|log| - 1, log[|log| - 1], cfg.mistakeProb);
    }
  }

  /** The per-round payoff maps of a run (the run's payoff table). */
  ghost function PayoffsOf(log: seq<RoundLog>): (pays: seq<map<Agent, real>>)
    ensures |pays| == |log| && forall r :: 0 <= r < |log| ==> pays[r] == log[r].payoffs
  {
    seq(|log|, r requires 0 <= r < |log| => log[r].payoffs)
  }

  ghost predicate AllRounds(pays: seq<map<Agent, real>>) {
    forall r, a :: 0 <= r < |pays| ==> a in pays[r]
  }

  /** Agent `a`'s payoff in every round, in round order. */
  function Column(pays: seq<map<Agent, real>>, a: Agent): (col: seq<real>)
    requires AllRounds(pays)
    ensures |col| == |pays| && forall r :: 0 <= r < |pays| ==> col[r] == pays[r][a]
  {
    seq(|pays|, r requires 0 <= r < |pays| => pays[r][a])
  }

  lemma ColumnAppend(pays: seq<map<Agent, real>>, m: map<Agent, real>, a: Agent)
    requires AllRounds(pays) && HasAll(m)
    ensures AllRounds(pays + [m]) && Column(pays + [m], a) == Column(pays, a) + [m[a]]
  {
    var pays' := pays + [m];
    forall r, b | 0 <= r < |pays'| ensures b in pays'[r] {
      if r < |pays| {
        assert pays'[r] == pays[r];
      }
    }
  }

  /** The payoff histories hold, per agent, the running sums of its payoff column. */
  ghost predicate HistoriesSoFar(pays: seq<map<Agent, real>>, history: map<Agent, seq<real>>) {
    && AllRounds(pays)
    && HasAll(history)
    && forall a :: IsRunningSums(history[a], Column(pays, a))
  }

  lemma HistoriesStep(pays: seq<map<Agent, real>>, history: map<Agent, seq<real>>,
                      m: map<Agent, real>, history': map<Agent, seq<real>>)
    requires HistoriesSoFar(pays, history) && HasAll(m) && HasAll(history')
    requires forall a :: history'[a] == Extend(history[a], m[a])
    ensures HistoriesSoFar(pays + [m], history')
  {
    forall a ensures AllRounds(pays + [m]) && IsRunningSums(history'[a], Column(pays + [m], a)) {
      ExtendRunningSums(history[a], Column(pays, a), m[a]);
      ColumnAppend(pays, m, a);
    }
    ColumnAppend(pays, m, US);
  }

  /**
   * The state a run keeps between rounds: the log of its rounds, their payoff
   * table, the payoff histories, the strategies held, the last actions, and
   * the number of draws made before every round.
   */
  ghost predicate RunState(cfg: Config, random: nat -> real, log: seq<RoundLog>, bounds: seq<nat>,
                           pays: seq<map<Agent, real>>, history: map<Agent, seq<real>>,
                           active: map<Agent, Strategy>, actions: map<Agent, Action>)
  {
    && RunSoFar(cfg, log)
    && DrawTrace(random, cfg.mistakeProb, log, bounds)
    && pays == PayoffsOf(log)
    && HistoriesSoFar(pays, history)
    && active == Held(cfg, log)
    && actions == LastActions(log)
  }

  lemma RunStart(cfg: Config, random: nat -> real, history: map<Agent, seq<real>>)
    requires HasAll(history) && forall a :: history[a] == []
    ensures RunState(cfg, random, [], [0], [], history, InitialStrategies(cfg), map[])
  {
  }

  /** A full round against the current state advances it by that round. */
  lemma RunAdvance(cfg: Config, random: nat -> real, log: seq<RoundLog>, bounds: seq<nat>, pays: seq<map<Agent, real>>,
                   history: map<Agent, seq<real>>, active: map<Agent, Strategy>, actions: map<Agent, Action>,
                   entry: RoundLog, c: nat, history': map<Agent, seq<real>>)
    requires RunState(cfg, random, log, bounds, pays, history, active, actions)
    requires RoundPlayed(|log|, entry, cfg.mistakeProb)
    requires RoundDraws(|log|, entry, cfg.mistakeProb, random, bounds[|log|], c)
    requires entry.held == active && entry.prior == actions
    requires entry.prevPayoffs == (if |log| == 0 then map[] else pays[|log| - 1])
    requires HasAll(history') && forall a :: history'[a] == Extend(history[a], entry.payoffs[a])
    ensures RunState(cfg, random, log + [entry], bounds + [c], pays + [entry.payoffs], history', entry.next, entry.actions)
    ensures RoundActions(entry.actions)
  {
    RunStep(cfg, log, entry);
    DrawTraceStep(random, cfg.mistakeProb, log, bounds, entry, c);
    HistoriesStep(pays, history, entry.payoffs, history');
    RoundPlayedYields(|log|, entry, cfg.mistakeProb);
    assert (log + [entry])[|log|] == entry;
    assert PayoffsOf(log + [entry]) == pays + [entry.payoffs];
  }

  /** `g'` is the grid after a round with actions `ra` on grid `g`. */
  ghost predicate GridStepped(g: seq<real>, ra: map<Agent, Action>, g': seq<real>) {
    |g| == CellCount && RoundActions(ra) && g' == NextGrid(g, TariffImpact(ra), RetaliationImpact(ra))
  }

  /**
   * The grid snapshots: the grid before the first round, then the grid after
   * every round, each obtained from the one before by the update rule under
   * that round's actions.
   */
  ghost predicate GridTrace(g0: seq<real>, gh: seq<seq<real>>, log: seq<RoundLog>) {
    && |gh| == |log| + 1
    && gh[0] == g0
    && forall r {:trigger log[r]} :: 0 <= r < |log| ==> GridStepped(gh[r], log[r].actions, gh[r + 1])
  }

  lemma GridTraceStep(g0: seq<real>, gh: seq<seq<real>>, log: seq<RoundLog>, round: RoundLog, g: seq<real>)
    requires GridTrace(g0, gh, log) && GridStepped(gh[|log|], round.actions, g)
    ensures GridTrace(g0, gh + [g], log + [round])
  {
    var gh', log' := gh + [g], log + [round];
    forall r | 0 <= r < |log'| ensures GridStepped(gh'[r], log'[r].actions, gh'[r + 1]) {
      if r < |log| {
        assert gh'[r] == gh[r] && gh'[r + 1] == gh[r + 1] && log'[r] == log[r];
      } else {
        assert gh'[r] == gh[r] && gh'[r + 1] == g && log'[r] == round;
      }
    }
  }

  /**
   * How a run uses the draws: the first round starts at draw 0, every round
   * starts where the one before it ended (`bounds[r]` is the number of draws
   * made before round `r`), and each round uses its stretch as `RoundDraws`
   * describes.
   */
  ghost predicate DrawTrace(random: nat -> real, mistakeProb: real, log: seq<RoundLog>, bounds: seq<nat>) {
    && |bounds| == |log| + 1
    && bounds[0] == 0
    && forall r {:trigger log[r]} :: 0 <= r < |log| ==> RoundDraws(r, log[r], mistakeProb, random, bounds[r], bounds[r + 1])
  }

  lemma DrawTraceStep(random: nat -> real, mistakeProb: real, log: seq<RoundLog>, bounds: seq<nat>, round: RoundLog, c: nat)
    requires DrawTrace(random, mistakeProb, log, bounds)
    requires RoundDraws(|log|, round, mistakeProb, random, bounds[|log|], c)
    ensures DrawTrace(random, mistakeProb, log + [round], bounds + [c])
  {
    var log', bounds' := log + [round], bounds + [c];
    forall r | 0 <= r < |log'| ensures RoundDraws(r, log'[r], mistakeProb, random, bounds'[r], bounds'[r + 1]) {
      if r < |log| {
        assert log'[r] == log[r] && bounds'[r] == bounds[r] && bounds'[r + 1] == bounds[r + 1];
      } else {
        assert log'[r] == round && bounds'[r] == bounds[r] && bounds'[r + 1] == c;
      }
    }
  }

  /** The spatial step of a round: update the grid under the round's actions and push a snapshot. */
  method Snapshot(grid: Grid, roundActions: map<Agent, Action>, ghost g0: seq<real>, gridHistory: seq<seq<real>>,
                  ghost log: seq<RoundLog>, ghost entry: RoundLog)
    returns (gridHistory': seq<seq<real>>)
    requires grid.Valid() && RoundActions(roundActions) && entry.actions == roundActions
    requires GridTrace(g0, gridHistory, log) && grid.cells[..] == gridHistory[|log|]
    modifies grid.cells
    ensures grid.Valid()
    ensures GridTrace(g0, gridHistory', log + [entry]) && grid.cells[..] == gridHistory'[|log| + 1]
    ensures gridHistory' == gridHistory + [grid.cells[..]]
  {
    var snapshot := grid.Update(roundActions);
    GridTraceStep(g0, gridHistory, log, entry, snapshot);
    gridHistory' := gridHistory + [snapshot];
  }

  /** The discounted total of every agent: its payoff in round `i` weighted by 0.9 to the power `i`, summed. */
  function Accumulate(pays: seq<map<Agent, real>>): (m: map<Agent, real>)
    requires AllRounds(pays)
    ensures HasAll(m) && forall a :: m[a] == Discounted(Column(pays, a))
  {
    var m := map a | a in AllAgents :: Discounted(Column(pays, a));
    EveryAgentListed();
    m
  }

  /**
   * One round of a run: the turns of round `round` against what the rounds
   * before left, extending the run's log, draw positions, payoff table and
   * histories by that round.
   */
  method AdvanceRun(cfg: Config, random: nat -> real, round: nat, ghost log: seq<RoundLog>, ghost bounds: seq<nat>,
                    pays: seq<map<Agent, real>>, history: map<Agent, seq<real>>, active: map<Agent, Strategy>,
                    actions: map<Agent, Action>, cursor: nat)
    returns (ghost entry: RoundLog, roundActions: map<Agent, Action>, roundPayoffs: map<Agent, real>,
             history': map<Agent, seq<real>>, active': map<Agent, Strategy>, cursor': nat)
    requires IsDrawSource(random) && |log| == round
    requires RunState(cfg, random, log, bounds, pays, history, active, actions) && bounds[round] == cursor
    ensures RunState(cfg, random, log + [entry], bounds + [cursor'], pays + [roundPayoffs], history', active', roundActions)
    ensures entry.actions == roundActions && RoundActions(roundActions)
  {
    RunSoFarNext(cfg, log);
    var prevPayoffs := if round == 0 then map[] else pays[round - 1];
    ghost var roundPlayed, roundCursors;
    roundActions, roundPayoffs, history', active', cursor', roundPlayed, roundCursors :=
      PlayRound(round, active, actions, prevPayoffs, history, cfg.mistakeProb, random, cursor);
    entry := RoundLog(active, actions, prevPayoffs, roundActions, roundPayoffs, roundPlayed, active', roundCursors);
    RunAdvance(cfg, random, log, bounds, pays, history, active, actions, entry, cursor', history');
  }

  /**
   * A run: `cfg.numRounds` rounds from the configured strategies, with the
   * payoff histories kept as running sums and, when the simulation type is
   * "CA", the grid updated after every round and snapshotted (the first
   * snapshot is the grid as the run finds it). The result holds the
   * discounted totals, the snapshots and the histories; the ghost `log`
   * records every round and `bounds` the number of draws made before every
   * round and after the last.
   */
  method RunSimulation(cfg: Config, grid: Grid, random: nat -> real)
    returns (result: SimResult, ghost log: seq<RoundLog>, ghost bounds: seq<nat>)
    requires grid.Valid() && IsDrawSource(random)
    modifies grid.cells
    ensures grid.Valid()
    ensures |log| == cfg.numRounds && RunSoFar(cfg, log) && AllRounds(PayoffsOf(log))
    ensures DrawTrace(random, cfg.mistakeProb, log, bounds)
    ensures HistoriesSoFar(PayoffsOf(log), result.payoffHistory)
    ensures result.payoffs == Accumulate(PayoffsOf(log))
    ensures Spatial(cfg) ==> result.gridHistory.Some? && GridTrace(old(grid.cells[..]), result.gridHistory.value, log)
                             && grid.cells[..] == result.gridHistory.value[cfg.numRounds]
    ensures !Spatial(cfg) ==> result.gridHistory.None? && grid.cells[..] == old(grid.cells[..])
  {
    var spatial := Spatial(cfg);
    var active := InitialStrategies(cfg);
    var history: map<Agent, seq<real>> := map[US := [], EU := [], China := [], EM := [], Agent.Crypto := []];
    CoversAgents(history);
    var gridHistory: seq<seq<real>> := if spatial then [grid.cells[..]] else [];
    var pays: seq<map<Agent, real>> := [];
    var actions: map<Agent, Action> := map[];
    var cursor := 0;
    log, bounds := [], [0];
    ghost var g0 := grid.cells[..];
    RunStart(cfg, random, history);
    for round := 0 to cfg.numRounds
      invariant |log| == round && RunState(cfg, random, log, bounds, pays, history, active, actions)
      invariant bounds[round] == cursor
      invariant grid.Valid()
      invariant spatial ==> GridTrace(g0, gridHistory, log) && grid.cells[..] == gridHistory[round]
      invariant !spatial ==> grid.cells[..] == g0
    {
      ghost var entry;
      var roundActions, roundPayoffs, history', active', cursor';
      entry, roundActions, roundPayoffs, history', active', cursor' :=
        AdvanceRun(cfg, random, round, log, bounds, pays, history, active, actions, cursor);
      if spatial {
        gridHistory := Snapshot(grid, roundActions, g0, gridHistory, log, entry);
      }
      log, bounds := log + [entry], bounds + [cursor'];
      pays := pays + [roundPayoffs];
      actions, history, active, cursor := roundActions, history', active', cursor';
    }
    result := SimResult(Accumulate(pays), if spatial then Some(gridHistory) else None, history);
  }
}
