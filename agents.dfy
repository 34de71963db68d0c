/**
 * The agent table of the tariff game: the five agents, the strategies each
 * may play, the action each strategy produces and each agent's payoff
 * function over its own action and the previous round's actions.
 *
 * An action is a record whose fields are all optional, as the objects the
 * strategies build are: a field the strategy does not set is `None`.
 * The payoff functions read opponent fields the way the source does, with
 * optional chaining and truthiness, and every absent opponent or field
 * falls back to 0 or false.
 */
module Agents {
  import opened Wrappers

  datatype Agent = US | EU | China | EM | Crypto

  /** The order in which a round processes the agents (the table's key order). */
  const Order: seq<Agent> := [US, EU, China, EM, Crypto]

  const AllAgents: set<Agent> := {US, EU, China, EM, Crypto}

  /** Only the emerging markets and the crypto market may change strategy by drift. */
  predicate Drifts(a: Agent) {
    a != US && a != EU && a != China
  }

  datatype UsStrategy = Escalate | Moderate | Negotiate
  datatype EuStrategy = Accept | Retaliate | Diversify | Ignore
  datatype ChinaStrategy = Retaliate | Redirect | Ignore
  // `AdoptCrypto` is the table's `crypto` entry, renamed so as not to clash with the agent `Crypto`.
  datatype EmStrategy = Redirect | AdoptCrypto | StatusQuo
  datatype CryptoStrategy = Invest | Sell | Hold

  /** A strategy name, tagged with the agent whose table it belongs to. */
  datatype Strategy =
    | UsPlays(us: UsStrategy)
    | EuPlays(eu: EuStrategy)
    | ChinaPlays(china: ChinaStrategy)
    | EmPlays(em: EmStrategy)
    | CryptoPlays(crypto: CryptoStrategy)

  function AgentOf(s: Strategy): Agent {
    match s
    case UsPlays(_) => US
    case EuPlays(_) => EU
    case ChinaPlays(_) => China
    case EmPlays(_) => EM
    case CryptoPlays(_) => Crypto
  }

  /** The strategy names of an agent, in the order its table lists them. */
  function Strategies(a: Agent): (r: seq<Strategy>)
    ensures forall s :: s in r ==> AgentOf(s) == a
    ensures forall i, j :: 0 <= i < j < |r| ==> r[i] != r[j]
  {
    match a
    case US => [UsPlays(Escalate), UsPlays(Moderate), UsPlays(Negotiate)]
    case EU => [EuPlays(Accept), EuPlays(EuStrategy.Retaliate), EuPlays(Diversify), EuPlays(EuStrategy.Ignore)]
    case China => [ChinaPlays(ChinaStrategy.Retaliate), ChinaPlays(ChinaStrategy.Redirect), ChinaPlays(ChinaStrategy.Ignore)]
    case EM => [EmPlays(EmStrategy.Redirect), EmPlays(AdoptCrypto), EmPlays(StatusQuo)]
    case Crypto => [CryptoPlays(Invest), CryptoPlays(Sell), CryptoPlays(Hold)]
  }

  /** Every strategy name is listed in its own agent's table. */
  lemma StrategyListed(s: Strategy)
    ensures s in Strategies(AgentOf(s))
  {
    match s
    case UsPlays(u) => assert u == Escalate || u == Moderate || u == Negotiate;
    case EuPlays(e) => assert e == Accept || e == EuStrategy.Retaliate || e == Diversify || e == EuStrategy.Ignore;
    case ChinaPlays(c) => assert c == ChinaStrategy.Retaliate || c == ChinaStrategy.Redirect || c == ChinaStrategy.Ignore;
    case EmPlays(m) => assert m == EmStrategy.Redirect || m == AdoptCrypto || m == StatusQuo;
    case CryptoPlays(k) => assert k == Invest || k == Sell || k == Hold;
  }

  /** A tariff field: the trade authority sets a vector of rates, the emerging markets a bare number. */
  datatype Tariffs = Vector(rates: seq<real>) | Scalar(rate: real)

  datatype Action = Action(
    tariffs: Option<Tariffs>,
    lngLeverage: Option<bool>,
    debtSwap: Option<bool>,
    counterTariffs: Option<real>,
    cryptoShift: Option<bool>,
    tradeShift: Option<bool>,
    cryptoAdopt: Option<bool>,
    btcInvestment: Option<real>)

  /** The empty record `{}`. */
  const NoFields: Action := Action(None, None, None, None, None, None, None, None)

  /** The action a strategy generates; generators take no input and keep no state. */
  function Generate(s: Strategy): Action {
    match s
    case UsPlays(Escalate) => NoFields.(tariffs := Some(Vector([0.1, 0.54, 0.2])), lngLeverage := Some(true))
    case UsPlays(Moderate) => NoFields.(tariffs := Some(Vector([0.25, 0.25, 0.25])), lngLeverage := Some(false))
    case UsPlays(Negotiate) => NoFields.(tariffs := Some(Vector([0.0, 0.0, 0.0])), lngLeverage := Some(false))
    case EuPlays(Accept) => NoFields.(debtSwap := Some(true), counterTariffs := Some(0.0))
    case EuPlays(Retaliate) => NoFields.(debtSwap := Some(false), counterTariffs := Some(0.2))
    case EuPlays(Diversify) => NoFields.(debtSwap := Some(false), counterTariffs := Some(0.0), cryptoShift := Some(true))
    case EuPlays(Ignore) => NoFields.(debtSwap := Some(false), counterTariffs := Some(0.0))
    case ChinaPlays(Retaliate) => NoFields.(counterTariffs := Some(0.34), tradeShift := Some(false))
    case ChinaPlays(Redirect) => NoFields.(counterTariffs := Some(0.0), tradeShift := Some(true))
    case ChinaPlays(Ignore) => NoFields.(counterTariffs := Some(0.0), tradeShift := Some(false))
    case EmPlays(Redirect) => NoFields.(tradeShift := Some(true), tariffs := Some(Scalar(0.0)))
    case EmPlays(AdoptCrypto) => NoFields.(tradeShift := Some(false), cryptoAdopt := Some(true))
    case EmPlays(StatusQuo) => NoFields.(tradeShift := Some(false), tariffs := Some(Scalar(0.0)))
    case CryptoPlays(Invest) => NoFields.(btcInvestment := Some(1.0))
    case CryptoPlays(Sell) => NoFields.(btcInvestment := Some(-1.0))
    case CryptoPlays(Hold) => NoFields.(btcInvestment := Some(0.0))
  }

  /**
   * `act` has the fields agent `a`'s payoff reads without a fallback, as
   * every action of `a` has them: the trade authority's three tariff rates,
   * the monetary union's counter-tariffs and the crypto market's investment.
   */
  predicate Shaped(a: Agent, act: Action) {
    match a
    case US => act.tariffs.Some? && act.tariffs.value.Vector? && |act.tariffs.value.rates| == 3
    case EU => act.counterTariffs.Some?
    case China => true
    case EM => true
    case Crypto => act.btcInvestment.Some?
  }

  /** Every generated action has its agent's shape. */
  lemma GeneratedIsShaped(s: Strategy)
    ensures Shaped(AgentOf(s), Generate(s))
  {
    match s
    case UsPlays(u) =>
    case EuPlays(e) =>
    case ChinaPlays(c) =>
    case EmPlays(m) =>
    case CryptoPlays(k) =>
  }

  /** The previous round's action map: every entry present has its agent's shape. */
  ghost predicate ValidPrior(prior: map<Agent, Action>) {
    forall b :: b in prior ==> Shaped(b, prior[b])
  }

  // JavaScript truthiness and `|| 0` on optional fields.

  predicate Truthy(x: Option<bool>) {
    x == Some(true)
  }

  /** A number is truthy when present and nonzero. */
  predicate NonZero(x: Option<real>) {
    x.Some? && x.value != 0.0
  }

  function OrZero(x: Option<real>): (r: real)
    ensures x.None? ==> r == 0.0
    ensures x.Some? ==> r == x.value
  {
    match x
    case Some(v) => v
    case None => 0.0
  }

  // Opponent lookups `prior.B?.field`: an absent opponent gives an absent field.

  function CounterTariffsOf(prior: map<Agent, Action>, b: Agent): Option<real> {
    if b in prior then prior[b].counterTariffs else None
  }

  function TradeShiftOf(prior: map<Agent, Action>, b: Agent): Option<bool> {
    if b in prior then prior[b].tradeShift else None
  }

  function LngLeverageOf(prior: map<Agent, Action>, b: Agent): Option<bool> {
    if b in prior then prior[b].lngLeverage else None
  }

  /** `prior.US?.tariffs[i]`; a rate past the end of the vector is absent. */
  function UsTariff(prior: map<Agent, Action>, i: nat): (r: Option<real>)
    requires ValidPrior(prior)
    ensures US !in prior ==> r.None?
  {
    if US !in prior then None
    else
      var v := prior[US].tariffs.value.rates;
      if i < |v| then Some(v[i]) else None
  }

  /** Weight of tariff component i in the trade authority's revenue. */
  function RevenueWeight(i: nat): real {
    if i == 0 then 1000.0 else if i == 1 then 2000.0 else 500.0
  }

  /** `tariffs.reduce((acc, t, i) => acc + t * weight(i), 0)`. */
  function Revenue(v: seq<real>): real {
    if v == [] then 0.0 else Revenue(v[..|v| - 1]) + v[|v| - 1] * RevenueWeight(|v| - 1)
  }

  /** The revenue of a three-rate vector weighs the rates 1000, 2000 and 500. */
  lemma RevenueOfThree(t0: real, t1: real, t2: real)
    ensures Revenue([t0, t1, t2]) == t0 * 1000.0 + t1 * 2000.0 + t2 * 500.0
  {
    assert [t0, t1, t2][..2] == [t0, t1];
    assert [t0, t1][..1] == [t0];
    assert [t0][..0] == [];
    assert Revenue([t0]) == t0 * 1000.0;
    assert Revenue([t0, t1]) == t0 * 1000.0 + t1 * 2000.0;
  }

  function UsPayoff(act: Action, prior: map<Agent, Action>): real
    requires Shaped(US, act) && ValidPrior(prior)
  {
    var v := act.tariffs.value.rates;
    var gdpImpact := if Truthy(act.lngLeverage) then -1.2 else if v[0] != 0.0 then -0.5 else 0.5;
    var chinaRetaliation := if NonZero(CounterTariffsOf(prior, China)) then -10.0 else 0.0;
    Revenue(v) / 10.0 + gdpImpact + chinaRetaliation
  }

  function EuPayoff(act: Action, prior: map<Agent, Action>): real
    requires Shaped(EU, act) && ValidPrior(prior)
  {
    var lngCost := if Truthy(LngLeverageOf(prior, US)) && act.counterTariffs.value > 0.0 then -10.0 else 0.0;
    // `undefined * -50` is NaN and `NaN || 0` is 0
    var tradeLoss := match UsTariff(prior, 2) case Some(t) => t * -50.0 case None => 0.0;
    var chinaTrade := if Truthy(TradeShiftOf(prior, China)) then 5.0 else 0.0;
    lngCost + tradeLoss + (if Truthy(act.debtSwap) then -30.0 else 0.0) + chinaTrade
  }

  function ChinaPayoff(act: Action, prior: map<Agent, Action>): real
    requires Shaped(China, act) && ValidPrior(prior)
  {
    var tariffHit := match UsTariff(prior, 1) case Some(t) => t * -200.0 case None => 0.0;
    var retaliationCost := if NonZero(act.counterTariffs) then -20.0 else 0.0;
    if Truthy(act.tradeShift) then 25.0 else tariffHit / 5.0 + retaliationCost
  }

  function EmPayoff(act: Action, prior: map<Agent, Action>): real
    requires Shaped(EM, act) && ValidPrior(prior)
  {
    var tariffHit := match UsTariff(prior, 1) case Some(t) => t * -200.0 case None => 0.0;
    var chinaBoost := if Truthy(TradeShiftOf(prior, China)) then 10.0 else 0.0;
    if Truthy(act.tradeShift) then 25.0 + chinaBoost
    else if Truthy(act.cryptoAdopt) then -10.0
    else tariffHit / 4.0
  }

  function CryptoPayoff(act: Action, prior: map<Agent, Action>): real
    requires Shaped(Crypto, act) && ValidPrior(prior)
  {
    var instability := OrZero(UsTariff(prior, 0)) + OrZero(CounterTariffsOf(prior, EU)) + OrZero(CounterTariffsOf(prior, China));
    act.btcInvestment.value * (45.0 + instability * 10.0)
  }

  /** The payoff function of agent `a`. */
  function Payoff(a: Agent, act: Action, prior: map<Agent, Action>): real
    requires Shaped(a, act) && ValidPrior(prior)
  {
    match a
    case US => UsPayoff(act, prior)
    case EU => EuPayoff(act, prior)
    case China => ChinaPayoff(act, prior)
    case EM => EmPayoff(act, prior)
    case Crypto => CryptoPayoff(act, prior)
  }

  // The game in normal form: what each strategy earns against the strategies
  // played in the previous round, with the constants worked out.

  /** A strategy profile: the strategy each listed agent played. */
  ghost predicate IsProfile(p: map<Agent, Strategy>) {
    forall b :: b in p ==> AgentOf(p[b]) == b
  }

  /** The action map a profile produces. */
  function Play(p: map<Agent, Strategy>): map<Agent, Action> {
    map b | b in p :: Generate(p[b])
  }

  predicate Played(p: map<Agent, Strategy>, s: Strategy) {
    AgentOf(s) in p && p[AgentOf(s)] == s
  }

  /** `escalated` if the trade authority escalated, `moderated` if it moderated, 0 if it negotiated or is absent. */
  function ByUsStrategy(p: map<Agent, Strategy>, escalated: real, moderated: real): real {
    if Played(p, UsPlays(Escalate)) then escalated
    else if Played(p, UsPlays(Moderate)) then moderated
    else 0.0
  }

  function MatrixPayoff(s: Strategy, p: map<Agent, Strategy>): real {
    match s
    case UsPlays(u) =>
      (match u case Escalate => 126.8 case Moderate => 87.0 case Negotiate => 0.5)
      + (if Played(p, ChinaPlays(ChinaStrategy.Retaliate)) then -10.0 else 0.0)
    case EuPlays(e) =>
      (if e == Accept then -30.0 else 0.0)
      + (if e == EuStrategy.Retaliate && Played(p, UsPlays(Escalate)) then -10.0 else 0.0)
      + ByUsStrategy(p, -10.0, -12.5)
      + (if Played(p, ChinaPlays(ChinaStrategy.Redirect)) then 5.0 else 0.0)
    case ChinaPlays(c) =>
      if c == ChinaStrategy.Redirect then 25.0
      else ByUsStrategy(p, -21.6, -10.0) + (if c == ChinaStrategy.Retaliate then -20.0 else 0.0)
    case EmPlays(m) =>
      (match m
       case Redirect => 25.0 + (if Played(p, ChinaPlays(ChinaStrategy.Redirect)) then 10.0 else 0.0)
       case AdoptCrypto => -10.0
       case StatusQuo => ByUsStrategy(p, -27.0, -12.5))
    case CryptoPlays(k) =>
      var direction := match k case Invest => 1.0 case Sell => -1.0 case Hold => 0.0;
      var instability := ByUsStrategy(p, 0.1, 0.25)
        + (if Played(p, EuPlays(EuStrategy.Retaliate)) then 0.2 else 0.0)
        + (if Played(p, ChinaPlays(ChinaStrategy.Retaliate)) then 0.34 else 0.0);
      direction * (45.0 + instability * 10.0)
  }

  lemma PlayIsValidPrior(p: map<Agent, Strategy>)
    requires IsProfile(p)
    ensures ValidPrior(Play(p))
  {
    forall b | b in Play(p) ensures Shaped(b, Play(p)[b]) {
      GeneratedIsShaped(p[b]);
    }
  }

  /** The US tariff vector seen through a profile: rate i of the strategy played, or absent. */
  lemma UsTariffOfProfile(p: map<Agent, Strategy>, i: nat)
    requires IsProfile(p) && i < 3
    ensures ValidPrior(Play(p))
    ensures UsTariff(Play(p), i) ==
      if Played(p, UsPlays(Escalate)) then Some([0.1, 0.54, 0.2][i])
      else if Played(p, UsPlays(Moderate)) then Some(0.25)
      else if Played(p, UsPlays(Negotiate)) then Some(0.0)
      else None
  {
    PlayIsValidPrior(p);
    if US in p {
      match p[US]
      case UsPlays(u) =>
    }
  }

  /** The opponent lookups of the payoff functions, seen through a profile. */
  lemma LookupsOfProfile(p: map<Agent, Strategy>)
    requires IsProfile(p)
    ensures NonZero(CounterTariffsOf(Play(p), China)) <==> Played(p, ChinaPlays(ChinaStrategy.Retaliate))
    ensures OrZero(CounterTariffsOf(Play(p), China)) == if Played(p, ChinaPlays(ChinaStrategy.Retaliate)) then 0.34 else 0.0
    ensures OrZero(CounterTariffsOf(Play(p), EU)) == if Played(p, EuPlays(EuStrategy.Retaliate)) then 0.2 else 0.0
    ensures Truthy(TradeShiftOf(Play(p), China)) <==> Played(p, ChinaPlays(ChinaStrategy.Redirect))
    ensures Truthy(LngLeverageOf(Play(p), US)) <==> Played(p, UsPlays(Escalate))
  {
    if China in p {
      match p[China] case ChinaPlays(c) =>
    }
    if EU in p {
      match p[EU] case EuPlays(e) =>
    }
    if US in p {
      match p[US] case UsPlays(u) =>
    }
  }

  lemma UsMatrix(u: UsStrategy, p: map<Agent, Strategy>)
    requires IsProfile(p)
    ensures Shaped(US, Generate(UsPlays(u))) && ValidPrior(Play(p))
    ensures UsPayoff(Generate(UsPlays(u)), Play(p)) == MatrixPayoff(UsPlays(u), p)
  {
    GeneratedIsShaped(UsPlays(u));
    PlayIsValidPrior(p);
    LookupsOfProfile(p);
    match u
    case Escalate => RevenueOfThree(0.1, 0.54, 0.2);
    case Moderate => RevenueOfThree(0.25, 0.25, 0.25);
    case Negotiate => RevenueOfThree(0.0, 0.0, 0.0);
  }

  lemma EuMatrix(e: EuStrategy, p: map<Agent, Strategy>)
    requires IsProfile(p)
    ensures Shaped(EU, Generate(EuPlays(e))) && ValidPrior(Play(p))
    ensures EuPayoff(Generate(EuPlays(e)), Play(p)) == MatrixPayoff(EuPlays(e), p)
  {
    GeneratedIsShaped(EuPlays(e));
    PlayIsValidPrior(p);
    LookupsOfProfile(p);
    UsTariffOfProfile(p, 2);
  }

  lemma ChinaMatrix(c: ChinaStrategy, p: map<Agent, Strategy>)
    requires IsProfile(p)
    ensures Shaped(China, Generate(ChinaPlays(c))) && ValidPrior(Play(p))
    ensures ChinaPayoff(Generate(ChinaPlays(c)), Play(p)) == MatrixPayoff(ChinaPlays(c), p)
  {
    GeneratedIsShaped(ChinaPlays(c));
    PlayIsValidPrior(p);
    UsTariffOfProfile(p, 1);
  }

  lemma EmMatrix(m: EmStrategy, p: map<Agent, Strategy>)
    requires IsProfile(p)
    ensures Shaped(EM, Generate(EmPlays(m))) && ValidPrior(Play(p))
    ensures EmPayoff(Generate(EmPlays(m)), Play(p)) == MatrixPayoff(EmPlays(m), p)
  {
    GeneratedIsShaped(EmPlays(m));
    PlayIsValidPrior(p);
    LookupsOfProfile(p);
    UsTariffOfProfile(p, 1);
  }

  lemma CryptoMatrix(k: CryptoStrategy, p: map<Agent, Strategy>)
    requires IsProfile(p)
    ensures Shaped(Crypto, Generate(CryptoPlays(k))) && ValidPrior(Play(p))
    ensures CryptoPayoff(Generate(CryptoPlays(k)), Play(p)) == MatrixPayoff(CryptoPlays(k), p)
  {
    GeneratedIsShaped(CryptoPlays(k));
    PlayIsValidPrior(p);
    LookupsOfProfile(p);
    UsTariffOfProfile(p, 0);
  }

  /** Each payoff function, applied to the action of strategy `s` and to the actions of profile `p`, agrees with the normal form. */
  lemma PayoffMatrix(s: Strategy, p: map<Agent, Strategy>)
    requires IsProfile(p)
    ensures Shaped(AgentOf(s), Generate(s)) && ValidPrior(Play(p))
    ensures Payoff(AgentOf(s), Generate(s), Play(p)) == MatrixPayoff(s, p)
  {
    match s
    case UsPlays(u) => UsMatrix(u, p);
    case EuPlays(e) => EuMatrix(e, p);
    case ChinaPlays(c) => ChinaMatrix(c, p);
    case EmPlays(m) => EmMatrix(m, p);
    case CryptoPlays(k) => CryptoMatrix(k, p);
  }

  /**
   * In the first round the previous action map is empty `{}`: every opponent
   * lookup falls back to 0 or false and only an agent's own action counts.
   */
  lemma RoundZeroPayoffs(s: Strategy)
    ensures ValidPrior(map[]) && Shaped(AgentOf(s), Generate(s))
    ensures Payoff(AgentOf(s), Generate(s), map[]) ==
      match s
      case UsPlays(Escalate) => 126.8
      case UsPlays(Moderate) => 87.0
      case UsPlays(Negotiate) => 0.5
      case EuPlays(Accept) => -30.0
      case EuPlays(_) => 0.0
      case ChinaPlays(Retaliate) => -20.0
      case ChinaPlays(Redirect) => 25.0
      case ChinaPlays(Ignore) => 0.0
      case EmPlays(Redirect) => 25.0
      case EmPlays(AdoptCrypto) => -10.0
      case EmPlays(StatusQuo) => 0.0
      case CryptoPlays(Invest) => 45.0
      case CryptoPlays(Sell) => -45.0
      case CryptoPlays(Hold) => 0.0
  {
    var empty: map<Agent, Strategy> := map[];
    assert Play(empty) == map[];
    PayoffMatrix(s, empty);
  }

  /** Dropping the emerging markets and the crypto market from a prior map changes none of the opponent lookups. */
  lemma LookupsIgnoreEmAndCrypto(prior: map<Agent, Action>)
    requires ValidPrior(prior)
    ensures ValidPrior(prior - {EM, Crypto})
    ensures UsTariff(prior, 0) == UsTariff(prior - {EM, Crypto}, 0)
    ensures UsTariff(prior, 1) == UsTariff(prior - {EM, Crypto}, 1)
    ensures UsTariff(prior, 2) == UsTariff(prior - {EM, Crypto}, 2)
    ensures forall b :: b != EM && b != Crypto ==>
      CounterTariffsOf(prior, b) == CounterTariffsOf(prior - {EM, Crypto}, b) &&
      TradeShiftOf(prior, b) == TradeShiftOf(prior - {EM, Crypto}, b) &&
      LngLeverageOf(prior, b) == LngLeverageOf(prior - {EM, Crypto}, b)
  {
    var rest := prior - {EM, Crypto};
    assert ValidPrior(rest) by {
      forall b | b in rest ensures Shaped(b, rest[b]) {
        assert rest[b] == prior[b];
      }
    }
    forall b | b != EM && b != Crypto
      ensures CounterTariffsOf(prior, b) == CounterTariffsOf(rest, b) && TradeShiftOf(prior, b) == TradeShiftOf(rest, b)
      ensures LngLeverageOf(prior, b) == LngLeverageOf(rest, b)
    {
      assert b in rest <==> b in prior;
      if b in prior {
        assert rest[b] == prior[b];
      }
    }
  }

  /** The emerging markets' and the crypto market's actions never enter any payoff. */
  lemma PayoffIgnoresEmAndCrypto(a: Agent, act: Action, prior: map<Agent, Action>)
    requires Shaped(a, act) && ValidPrior(prior)
    ensures ValidPrior(prior - {EM, Crypto})
    ensures Payoff(a, act, prior) == Payoff(a, act, prior - {EM, Crypto})
  {
    LookupsIgnoreEmAndCrypto(prior);
    var rest := prior - {EM, Crypto};
    match a
    case US => assert UsPayoff(act, prior) == UsPayoff(act, rest);
    case EU => assert EuPayoff(act, prior) == EuPayoff(act, rest);
    case China => assert ChinaPayoff(act, prior) == ChinaPayoff(act, rest);
    case EM => assert EmPayoff(act, prior) == EmPayoff(act, rest);
    case Crypto => assert CryptoPayoff(act, prior) == CryptoPayoff(act, rest);
  }
}
