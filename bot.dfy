/**
 * The per-account bot (src/index.ts, class ElseBotNew): account set-up, the
 * websocket hook, the realtime merge, and one iteration of the tap-and-act
 * loop with its randomized choice of action.
 *
 * Every REST answer, clock reading and random draw is a parameter; the
 * requests the bot issues are logged in `requests`. The pure Step functions
 * give the effect of each action on the account record, and the methods of
 * the class are proved to have exactly that effect. For the item purchases
 * the step functions are ItemStep, AttemptItems and Actions; what they
 * guarantee (enabled, affordable items; an unchanged record when nothing is
 * found; every attempt made when the searches have enough rounds) is proved
 * about them as lemmas.
 */
module Bot {
  import opened Wrappers
  import opened Json
  import opened Config
  import opened Utils
  import opened Records
  import opened Base
  import opened Users
  import opened Boosts
  import opened Categories
  import opened WebSocket

  /** `config.maxLifetime * 1000`: how long a login or token is reused, in milliseconds. */
  const MaxLifetimeMs := MaxLifetime * 1000

  /** The energy below which an iteration considers spending actions. */
  const ActionEnergyThreshold := 150

  /** The balance an item purchase needs to exceed. */
  const ItemBalanceThreshold := 10_000

  /** The income below which item purchases are tried three times as often. */
  const LowIncome := 10_000

  /** The account record at one moment: what `accountData` holds. */
  datatype State = State(account: Account, realtime: RealtimeData)

  /** The record after an action, and the requests the action issued. */
  datatype Step = Step(state: State, sent: seq<Sent>)

  /** initializeAccountData: the session's id, nothing else known yet. */
  function InitialAccount(session: SessionData): Account {
    Account(session.id, session, None, None, 0, 0, None)
  }

  const ZeroRealtime := RealtimeData(0, 0, 0, 0, 0, 0, 0, 0, 0, "", 0)

  /** getRequestData: the request context of an account. */
  function RequestConfig(acc: Account): BaseConfig {
    BaseConfig(acc.session.userAgent, Config.Domain, acc.startupData, Config.Origin, Some(acc.userId), acc.jwt, acc.session.proxy)
  }

  /** The client every request of an account is issued with. */
  function ClientOf(acc: Account): (c: Client)
    ensures c.userId == acc.userId && c.jwt == acc.jwt && c.startupData == acc.startupData
    ensures c.domain == Config.Domain && c.origin == Config.Origin && c.userAgent == acc.session.userAgent
    ensures c.proxy == (if Held(acc.session.proxy) then acc.session.proxy.value else "")
  {
    NewClient(RequestConfig(acc))
  }

  /** The request context does not depend on the profile. */
  lemma ClientIgnoresProfile(acc: Account, info: Option<UserInfo>)
    ensures ClientOf(acc.(info := info)) == ClientOf(acc)
  {
  }

  /** A credential is reused when it is held and was renewed less than MaxLifetimeMs ago. */
  predicate Current(credential: Option<string>, lastRenewAt: int, now: int) {
    Held(credential) && lastRenewAt + MaxLifetimeMs > now
  }

  /**
   * updateUserInfo: ask for the profile and keep it when the call succeeds;
   * nothing else changes.
   */
  function UserInfoStep(s: State, me: Response<UserBody>): (r: Step)
    ensures r.sent == [Sent(ClientOf(s.account), MePath(ClientOf(s.account)), map[])]
    ensures r.state.realtime == s.realtime
    ensures r.state.account.info ==
      (if me.Response? && me.body.Parsed? && !Truthy(me.body.error) then Some(me.body.content.data) else s.account.info)
    ensures r.state.account.(info := s.account.info) == s.account
  {
    var call := Me(ClientOf(s.account), me);
    var info := if call.result.Some? then Some(call.result.value.data) else s.account.info;
    Step(State(s.account.(info := info), s.realtime), call.sent)
  }

  /**
   * accountStartup once its guards pass: the startup call's realtime payload
   * is merged, its token is adopted (no token when the call fails), the
   * renewal time is set; then the profile is fetched and the user config is
   * requested with the new token.
   */
  function StartupStep(s: State, renewedAt: int, startup: Response<StartupBody>, me: Response<UserBody>, config: Response<Value>): (r: Step)
    ensures var st := Settle(startup, false, TruthyError);
      && r.state.account.jwt == (if st.Some? then Some(st.value.data.jwt) else None)
      && r.state.account.lastRenewAt == renewedAt
      && r.state.realtime == MergeOpt(s.realtime, if st.Some? then st.value.realtimeData else None)
    ensures r.state.account.(jwt := s.account.jwt, lastRenewAt := s.account.lastRenewAt, info := s.account.info) == s.account
    ensures r.state == UserInfoStep(State(r.state.account.(info := s.account.info), r.state.realtime), me).state
    ensures var c := ClientOf(s.account); var c' := ClientOf(r.state.account);
      r.sent == [Sent(c, StartupPath(c), map[]), Sent(c', MePath(c'), map[]), Sent(c', ConfigPath(c'), map[])]
  {
    var call := Startup(ClientOf(s.account), startup);
    var jwt := if call.result.Some? then Some(call.result.value.data.jwt) else None;
    var renewed := State(
      s.account.(jwt := jwt, lastRenewAt := renewedAt),
      MergeOpt(s.realtime, if call.result.Some? then call.result.value.realtimeData else None));
    var profile := UserInfoStep(renewed, me);
    ClientIgnoresProfile(renewed.account, profile.state.account.info);
    var cfg := GetUserConfig(ClientOf(renewed.account), config);
    Step(profile.state, call.sent + profile.sent + cfg.sent)
  }

  /** getDaily: claim the daily reward, merge its payload, then refresh the profile. */
  function DailyStep(s: State, daily: Response<DailyBody>, me: Response<UserBody>): (r: Step)
    ensures var call := Users.GetDaily(ClientOf(s.account), daily);
      && r.state.realtime == MergeOpt(s.realtime, if call.result.Some? then call.result.value.realtimeData else None)
      && r.sent == call.sent + [Sent(ClientOf(s.account), MePath(ClientOf(s.account)), map[])]
    ensures |r.sent| == (if Held(s.account.jwt) then 2 else 1)
    ensures r.state.account.(info := s.account.info) == s.account
    ensures r.state == UserInfoStep(State(s.account, r.state.realtime), me).state
  {
    var call := Users.GetDaily(ClientOf(s.account), daily);
    var merged := State(s.account, MergeOpt(s.realtime, if call.result.Some? then call.result.value.realtimeData else None));
    var profile := UserInfoStep(merged, me);
    Step(profile.state, call.sent + profile.sent)
  }

  /**
   * tankFull: refill the energy, merge the payload, and copy the new cooldown
   * and refill count into the profile when there is a profile and the answer
   * carries them.
   */
  function TankFullStep(s: State, tank: Response<FullTankBody>): (r: Step)
    ensures var call := SetFulltank(ClientOf(s.account), tank);
      && r.sent == call.sent
      && r.state.realtime == MergeOpt(s.realtime, if call.result.Some? then call.result.value.realtimeData else None)
      && r.state.account.info ==
        (if s.account.info.Some? && call.result.Some? && call.result.value.data.Some?
         then Some(s.account.info.value.(fullEnergy := call.result.value.data.value))
         else s.account.info)
    ensures r.state.account.(info := s.account.info) == s.account
    ensures !Held(s.account.jwt) ==> r == Step(s, [])
    ensures r.state.account.info != s.account.info ==>
      tank.Response? && tank.body.Parsed? && tank.body.content.realtimeData.Some? && tank.body.content.data.Some?
  {
    var call := SetFulltank(ClientOf(s.account), tank);
    var rt := MergeOpt(s.realtime, if call.result.Some? then call.result.value.realtimeData else None);
    var info :=
      if s.account.info.Some? && call.result.Some? && call.result.value.data.Some?
      then Some(s.account.info.value.(fullEnergy := call.result.value.data.value))
      else s.account.info;
    Step(State(s.account.(info := info), rt), call.sent)
  }

  /** buyBoost's `sample(["energy-limit", "multitap"])`. */
  function PickBoost(d: Draw): (b: BoostKind)
    ensures b == (if d.num * 2 < d.den then EnergyLimit else Multitap)
  {
    ScaledDraw(d, 2);
    [EnergyLimit, Multitap][(d.num * 2) / d.den]
  }

  /** The purchase half of buyBoost: request the level, merge the payload, refresh the profile. */
  function BoostPurchaseStep(s: State, kind: BoostKind, levelToBuy: int, resp: Response<BoostBody>, me: Response<UserBody>): (r: Step)
    ensures var c := ClientOf(s.account);
      r.sent == IncreaseBoost(c, kind, levelToBuy, resp).sent + [Sent(c, MePath(c), map[])]
    ensures var call := IncreaseBoost(ClientOf(s.account), kind, levelToBuy, resp);
      r.state.realtime == MergeOpt(s.realtime, if call.result.Some? then call.result.value.realtimeData else None)
    ensures r.state.account.(info := s.account.info) == s.account
    ensures r.state == UserInfoStep(State(s.account, r.state.realtime), me).state
  {
    var call := IncreaseBoost(ClientOf(s.account), kind, levelToBuy, resp);
    var merged := State(s.account, MergeOpt(s.realtime, if call.result.Some? then call.result.value.realtimeData else None));
    var profile := UserInfoStep(merged, me);
    Step(profile.state, call.sent + profile.sent)
  }

  /**
   * buyBoost: without a profile the destructuring throws (None); otherwise
   * the sampled boost is bought at its next level, only when its price is
   * below the balance. An unaffordable boost changes nothing and sends nothing.
   */
  function BoostStep(s: State, pick: Draw, resp: Response<BoostBody>, me: Response<UserBody>): (r: Option<Step>)
    ensures r.None? <==> s.account.info.None?
    ensures r.Some? ==> var b := s.account.info.value.boost.Of(PickBoost(pick));
      && (b.price >= s.realtime.balance ==> r.value == Step(s, []))
      && (b.price < s.realtime.balance ==> r.value == BoostPurchaseStep(s, PickBoost(pick), b.level + 1, resp, me))
  {
    if s.account.info.None? then None
    else
      var kind := PickBoost(pick);
      var b := s.account.info.value.boost.Of(kind);
      if b.price < s.realtime.balance then Some(BoostPurchaseStep(s, kind, b.level + 1, resp, me))
      else Some(Step(s, []))
  }

  /** shouldTankFull: a known cooldown that has passed, and a one-in-ten roll. */
  function ShouldTankFull(now: int, cooldown: Option<int>, roll: Draw): (r: bool)
    ensures r <==> cooldown.Some? && cooldown.value < now && roll.num * 10 < roll.den
  {
    cooldown.Some? && cooldown.value < now && RandomRoll(None, roll)
  }

  /** shouldBuyCategoryItem: a roll tripled for a low income, and a balance above 10 000. */
  function ShouldBuyCategoryItem(rt: RealtimeData, roll: Draw): (r: bool)
    ensures r <==>
      (rt.balance > ItemBalanceThreshold && roll.num * 10 < (if rt.pph < LowIncome then 3 else 1) * roll.den)
  {
    RandomRoll(Some(if rt.pph < LowIncome then 3 else 1), roll) && rt.balance > ItemBalanceThreshold
  }

  /** A low income never makes an item purchase less likely: every roll that buys at a high income buys at a low one. */
  lemma LowIncomeBuysMoreOften(rt: RealtimeData, pph: nat, roll: Draw)
    requires rt.pph >= LowIncome && pph < LowIncome
    ensures ShouldBuyCategoryItem(rt, roll) ==> ShouldBuyCategoryItem(rt.(pph := pph), roll)
  {
    RandomRollMonotone(1, 3, roll);
  }

  /** shouldBuyBoost: a one-in-ten roll. */
  function ShouldBuyBoost(roll: Draw): (r: bool)
    ensures r <==> roll.num * 10 < roll.den
  {
    RandomRoll(None, roll)
  }

  datatype Action = Refill | ItemPurchase | BoostPurchase | NoAction

  /** The three draws performActions rolls. */
  datatype Rolls = Rolls(tank: Draw, item: Draw, boost: Draw)

  /** performActions' chain: refill first, then items, then a boost, at most one of them. */
  function ChooseAction(now: int, s: State, rolls: Rolls): (a: Action)
    ensures a == Refill <==> ShouldTankFull(now, Cooldown(s), rolls.tank)
    ensures a == ItemPurchase <==> !ShouldTankFull(now, Cooldown(s), rolls.tank) && ShouldBuyCategoryItem(s.realtime, rolls.item)
    ensures a == BoostPurchase <==>
      !ShouldTankFull(now, Cooldown(s), rolls.tank) && !ShouldBuyCategoryItem(s.realtime, rolls.item) && ShouldBuyBoost(rolls.boost)
  {
    if ShouldTankFull(now, Cooldown(s), rolls.tank) then Refill
    else if ShouldBuyCategoryItem(s.realtime, rolls.item) then ItemPurchase
    else if ShouldBuyBoost(rolls.boost) then BoostPurchase
    else NoAction
  }

  /** `accountData?.info?.full_energy?.cooldown`. */
  function Cooldown(s: State): Option<int> {
    if s.account.info.Some? then Some(s.account.info.value.fullEnergy.cooldown) else None
  }

  /** Without a profile the refill is never chosen, and a roll that passes all three checks picks the boost, which throws. */
  lemma NoProfileMeansBoostThrows(now: int, s: State, rolls: Rolls, pick: Draw, resp: Response<BoostBody>, me: Response<UserBody>)
    requires s.account.info.None?
    requires s.realtime.balance <= ItemBalanceThreshold && ShouldBuyBoost(rolls.boost)
    ensures ChooseAction(now, s, rolls) == BoostPurchase
    ensures BoostStep(s, pick, resp, me).None?
  {
  }

  /** formatTime's result. */
  datatype Clock = Clock(minutes: int, seconds: int)

  /** JavaScript's `%` for a positive divisor: the remainder takes the dividend's sign. */
  function JsRem(a: int, b: int): (r: int)
    requires b > 0
    ensures a >= 0 ==> 0 <= r < b
    ensures a < 0 ==> -b < r <= 0
    ensures a >= 0 ==> (a / b) * b + r == a
  {
    if a >= 0 then a % b else -((-a) % b)
  }

  /** formatTime: whole seconds split into minutes and seconds. */
  function FormatTime(time: int): (r: Clock)
    ensures time >= 0 ==> 0 <= r.seconds < 60 && r.minutes * 60 + r.seconds == time / 1000
    ensures time < 0 ==> -60 < r.seconds <= 0
  {
    var totalSeconds := time / 1000;
    Clock(totalSeconds / 60, JsRem(totalSeconds, 60))
  }

  /** A long sleep is logged as less than fifty minutes. */
  lemma LongSleepUnderFiftyMinutes(d: Draw)
    ensures 0 <= FormatTime(RandLongRunDelay(d)).minutes < 50
  {
    var t := RandLongRunDelay(d);
    var c := FormatTime(t);
    assert c.minutes * 60 + c.seconds == t / 1000 < 3000;
  }

  /** One item purchase attempt's scripted inputs: the search rounds and the purchase answer. */
  datatype Purchase = Purchase(rounds: seq<Round>, answer: Response<PurchaseBody>)

  /** The realtime payload of a purchase answer, if any. */
  function PurchasePayload(r: Option<PurchaseBody>): Option<Payload> {
    if r.Some? then r.value.realtimeData else None
  }

  /** Everything one loop iteration reads from outside: clocks, draws and server answers. */
  datatype Cycle = Cycle(
    tapNow: int, tapDraw: Draw,
    runDraw: Draw, longDraw: Draw,
    now: int, rolls: Rolls,
    daily: Response<DailyBody>, dailyProfile: Response<UserBody>,
    tank: Response<FullTankBody>,
    itemCount: Draw, firstPurchase: Purchase, secondPurchase: Purchase,
    boostPick: Draw, boost: Response<BoostBody>, boostProfile: Response<UserBody>)

  /** `accountData.info?.is_got_dar === false`: a profile that says the daily reward is not claimed yet. */
  predicate ClaimsDaily(s: State) {
    s.account.info.Some? && !s.account.info.value.isGotDar
  }

  /** The daily claim performActions starts with, when the profile says it is due. */
  function DailyPart(s: State, cy: Cycle): Step {
    if ClaimsDaily(s) then DailyStep(s, cy.daily, cy.dailyProfile) else Step(s, [])
  }

  /** The record performActions chooses its action on: after the daily claim when there is one. */
  function Decided(s: State, cy: Cycle): State {
    DailyPart(s, cy).state
  }

  /** A search that cannot run out of scripted rounds: a stable catalog with more rounds than categories. */
  predicate Exhaustive(p: Purchase) {
    StableCatalog(p.rounds) && |p.rounds| > |Ids(Listing(p.rounds[0]).value)|
  }

  /** How performActions ended: with its `done` flag, by throwing, or with an item search still running. */
  datatype ActionsEnd = Completed(done: bool) | ActionsThrew | ActionsStalled

  /** How one loop iteration ended. */
  datatype IterationEnd = Slept(delay: int) | Threw | Stalled

  /** One item purchase attempt: how its search ended, and its effect on the record with the requests it issued. */
  datatype Attempt = Attempt(end: SearchEnd, step: Step)

  /**
   * buyCategoryItem: search and buy with the current balance, then merge the
   * purchase answer's payload. Only a found item is bought: it is enabled,
   * cheaper than the balance, and its purchase is the last request. Without
   * one the record is unchanged and only GETs were sent, the first of them
   * the category listing.
   */
  function ItemStep(s: State, p: Purchase): (r: Attempt)
    ensures r.step.state.account == s.account
    ensures var c := ClientOf(s.account);
      r.end.Found? ==>
        && !r.end.item.disabled && r.end.item.price < s.realtime.balance
        && |r.step.sent| > 0
        && r.step.sent[|r.step.sent| - 1] == Sent(c, PurchasePath, Post(PurchaseRequestBody(c, r.end.item.id, r.end.item.nextLevel)))
        && r.step.state.realtime ==
           MergeOpt(s.realtime, PurchasePayload(PurchaseItem(c, r.end.item.id, r.end.item.nextLevel, p.answer).result))
    ensures !r.end.Found? ==> r.step.state == s && OnlyGets(r.step.sent)
    ensures |p.rounds| > 0 ==>
      |r.step.sent| > 0 && r.step.sent[0] == Sent(ClientOf(s.account), CategoriesPath(ClientOf(s.account)), map[])
    ensures Exhaustive(p) ==> !r.end.Searching?
  {
    SearchConcludes(ClientOf(s.account), s.realtime.balance, p.rounds);
    var b := FindAndBuyOutcome(ClientOf(s.account), s.realtime.balance, p.rounds, p.answer);
    Attempt(b.end, Step(State(s.account, MergeOpt(s.realtime, PurchasePayload(b.response))), b.sent))
  }

  /** A run of purchase attempts: their search outcomes, the record after them, and the requests issued. */
  datatype Attempts = Attempts(ends: seq<SearchEnd>, state: State, sent: seq<Sent>)

  /** One run of attempts followed by another. */
  function Then(a: Attempts, b: Attempts): Attempts {
    Attempts(a.ends + b.ends, b.state, a.sent + b.sent)
  }

  /**
   * The attempts of buyCategoryItemLoop, one per scripted purchase, each on
   * the record the previous one left. The run stops early only after a
   * search that outlasted its rounds, where the source would still be
   * searching.
   */
  function AttemptItems(s: State, ps: seq<Purchase>): (r: Attempts)
    ensures |r.ends| <= |ps| && (ps != [] ==> |r.ends| >= 1)
    decreases |ps|
  {
    if ps == [] then Attempts([], s, [])
    else
      var a := ItemStep(s, ps[0]);
      if a.end.Searching? then Attempts([a.end], a.step.state, a.step.sent)
      else
        var rest := AttemptItems(a.step.state, ps[1..]);
        Attempts([a.end] + rest.ends, rest.state, a.step.sent + rest.sent)
  }

  lemma ThenAssoc(a: Attempts, b: Attempts, c: Attempts)
    ensures Then(a, Then(b, c)) == Then(Then(a, b), c)
  {
    AppendAssoc(a.ends, b.ends, c.ends);
    AppendAssoc(a.sent, b.sent, c.sent);
  }

  lemma AppendAssoc<T>(a: seq<T>, b: seq<T>, c: seq<T>)
    ensures a + (b + c) == (a + b) + c
  {
  }

  /** A run of no attempts changes nothing. */
  lemma AttemptsNone(s: State)
    ensures AttemptItems(s, []) == Attempts([], s, [])
  {
  }

  /** AttemptItems makes its first attempt, and goes on after it unless that search is still running. */
  lemma AttemptsUnfold(s: State, ps: seq<Purchase>)
    requires ps != []
    ensures var a := ItemStep(s, ps[0]);
      var first := Attempts([a.end], a.step.state, a.step.sent);
      AttemptItems(s, ps) == if a.end.Searching? then first else Then(first, AttemptItems(a.step.state, ps[1..]))
  {
  }

  /** One more attempt of a run: the attempts made so far take it in, and the rest follow it unless its search is still running. */
  lemma AttemptsAdvance(s: State, ps: seq<Purchase>, sofar: Attempts, i: nat, here: State)
    requires i < |ps| && AttemptItems(s, ps) == Then(sofar, AttemptItems(here, ps[i..]))
    ensures var a := ItemStep(here, ps[i]);
      var done := Attempts([a.end], a.step.state, a.step.sent);
      AttemptItems(s, ps) ==
        if a.end.Searching? then Then(sofar, done) else Then(Then(sofar, done), AttemptItems(a.step.state, ps[i + 1..]))
  {
    hide ItemStep;
    var a := ItemStep(here, ps[i]);
    var done := Attempts([a.end], a.step.state, a.step.sent);
    assert ps[i..][0] == ps[i] && ps[i..][1..] == ps[i + 1..];
    AttemptsUnfold(here, ps[i..]);
    if !a.end.Searching? {
      ThenAssoc(sofar, done, AttemptItems(a.step.state, ps[i + 1..]));
    }
  }

  /**
   * Every attempt but the last concluded, and fewer attempts than purchases
   * follow only a search still running.
   */
  lemma {:induction false} AttemptsShape(s: State, ps: seq<Purchase>)
    ensures var r := AttemptItems(s, ps);
      && (forall k :: 0 <= k < |r.ends| - 1 ==> !r.ends[k].Searching?)
      && (|r.ends| < |ps| ==> r.ends[|r.ends| - 1].Searching?)
    decreases |ps|
  {
    hide ItemStep;
    if ps != [] {
      var a := ItemStep(s, ps[0]);
      var r := AttemptItems(s, ps);
      if !a.end.Searching? {
        AttemptsShape(a.step.state, ps[1..]);
        var rest := AttemptItems(a.step.state, ps[1..]);
        assert r.ends == [a.end] + rest.ends;
        if |r.ends| < |ps| {
          assert r.ends[|r.ends| - 1] == rest.ends[|rest.ends| - 1];
        }
      }
    }
  }

  /** When no search can run out of rounds, every attempt is made and the last one concludes. */
  lemma {:induction false} AttemptsComplete(s: State, ps: seq<Purchase>)
    requires forall k :: 0 <= k < |ps| ==> Exhaustive(ps[k])
    ensures var r := AttemptItems(s, ps);
      |r.ends| == |ps| && (ps != [] ==> !r.ends[|r.ends| - 1].Searching?)
    decreases |ps|
  {
    hide ItemStep;
    if ps != [] {
      var a := ItemStep(s, ps[0]);
      assert Exhaustive(ps[0]);
      assert forall k :: 0 <= k < |ps| - 1 ==> ps[1..][k] == ps[k + 1];
      AttemptsComplete(a.step.state, ps[1..]);
      var rest := AttemptItems(a.step.state, ps[1..]);
      var r := AttemptItems(s, ps);
      assert r.ends == [a.end] + rest.ends;
      if rest.ends != [] {
        assert r.ends[|r.ends| - 1] == rest.ends[|rest.ends| - 1];
      }
    }
  }

  /** Found items are enabled, the first below the starting balance, and the account part never changes. */
  lemma {:induction false} AttemptsFound(s: State, ps: seq<Purchase>)
    ensures var r := AttemptItems(s, ps);
      && (forall k :: 0 <= k < |r.ends| && r.ends[k].Found? ==> !r.ends[k].item.disabled)
      && (|r.ends| > 0 && r.ends[0].Found? ==> r.ends[0].item.price < s.realtime.balance)
      && r.state.account == s.account
    decreases |ps|
  {
    hide ItemStep;
    if ps != [] {
      var a := ItemStep(s, ps[0]);
      if !a.end.Searching? {
        AttemptsFound(a.step.state, ps[1..]);
        var rest := AttemptItems(a.step.state, ps[1..]);
        assert AttemptItems(s, ps).ends == [a.end] + rest.ends;
      }
    }
  }

  /** With nothing found the record is unchanged and only GETs were sent. */
  lemma {:induction false} AttemptsNothingFound(s: State, ps: seq<Purchase>)
    ensures var r := AttemptItems(s, ps);
      (forall e :: e in r.ends ==> !e.Found?) ==> r.state == s && OnlyGets(r.sent)
    decreases |ps|
  {
    hide ItemStep;
    if ps != [] {
      var a := ItemStep(s, ps[0]);
      var r := AttemptItems(s, ps);
      if forall e :: e in r.ends ==> !e.Found? {
        AttemptsUnfold(s, ps);
        assert a.end in r.ends;
        if !a.end.Searching? {
          var rest := AttemptItems(a.step.state, ps[1..]);
          AttemptsNothingFound(a.step.state, ps[1..]);
          AppendGets(a.step.sent, rest.sent);
        }
      }
    }
  }

  /** The first request of a run of attempts is the category listing of the first search. */
  lemma AttemptsStart(s: State, ps: seq<Purchase>)
    requires ps != [] && |ps[0].rounds| > 0
    ensures var r := AttemptItems(s, ps);
      |r.sent| > 0 && r.sent[0] == Sent(ClientOf(s.account), CategoriesPath(ClientOf(s.account)), map[])
  {
    hide ItemStep;
    AttemptsUnfold(s, ps);
  }

  /** The purchases `for (let i = 0; i < randomI; i++)` works through: the first script, then the second for every later attempt. */
  function ItemPlan(count: int, first: Purchase, second: Purchase): seq<Purchase> {
    seq(if count < 0 then 0 else count, k => if k == 0 then first else second)
  }

  /** What AttemptItems guarantees about a plan of one or two attempts. */
  lemma PlanFacts(s: State, count: int, first: Purchase, second: Purchase)
    requires 1 <= count <= 2
    ensures var ends := AttemptItems(s, ItemPlan(count, first, second)).ends;
      && 1 <= |ends| <= count
      && (forall k :: 0 <= k < |ends| - 1 ==> !ends[k].Searching?)
      && (|ends| < count ==> ends[|ends| - 1].Searching?)
      && (Exhaustive(first) && Exhaustive(second) ==> |ends| == count && forall k :: 0 <= k < |ends| ==> !ends[k].Searching?)
      && (forall k :: 0 <= k < |ends| && ends[k].Found? ==> !ends[k].item.disabled)
      && (ends[0].Found? ==> ends[0].item.price < s.realtime.balance)
    ensures var r := AttemptItems(s, ItemPlan(count, first, second));
      && r.state.account == s.account
      && ((forall k :: 0 <= k < |r.ends| ==> !r.ends[k].Found?) ==> r.state.realtime == s.realtime)
  {
    var plan := ItemPlan(count, first, second);
    AttemptsShape(s, plan);
    AttemptsFound(s, plan);
    AttemptsNothingFound(s, plan);
    if Exhaustive(first) && Exhaustive(second) {
      assert forall k :: 0 <= k < |plan| ==> Exhaustive(plan[k]);
      AttemptsComplete(s, plan);
    }
  }

  /** What performActions ends with, and its effect on the record with the requests it issued. */
  datatype ActionsResult = ActionsResult(outcome: ActionsEnd, step: Step)

  /**
   * performActions' effect: the daily claim when it is due, then the action
   * ChooseAction picks on the record after the claim, its requests after the
   * claim's. `done` is set by the claim and by any action; a boost without a
   * profile throws and leaves the record as the claim left it; an item
   * search that outlasts its rounds leaves the actions stalled.
   */
  function Actions(s: State, cy: Cycle): (r: ActionsResult)
    ensures var a := ChooseAction(cy.now, Decided(s, cy), cy.rolls);
      && (r.outcome.Completed? ==> (r.outcome.done <==> ClaimsDaily(s) || a != NoAction))
      && (r.outcome.ActionsThrew? <==> a == BoostPurchase && Decided(s, cy).account.info.None?)
      && (r.outcome.ActionsStalled? ==> a == ItemPurchase)
      && (r.outcome.ActionsThrew? || a == NoAction ==> r.step == DailyPart(s, cy))
    ensures var d := DailyPart(s, cy).sent; |r.step.sent| >= |d| && r.step.sent[..|d|] == d
  {
    var d := DailyPart(s, cy);
    var a := ChooseAction(cy.now, d.state, cy.rolls);
    var done := ClaimsDaily(s) || a != NoAction;
    match a
    case Refill =>
      var t := TankFullStep(d.state, cy.tank);
      ActionsResult(Completed(done), Step(t.state, d.sent + t.sent))
    case ItemPurchase =>
      var items := AttemptItems(d.state, ItemPlan(RandInt(1, 3, cy.itemCount), cy.firstPurchase, cy.secondPurchase));
      ActionsResult(
        if items.ends[|items.ends| - 1].Searching? then ActionsStalled else Completed(done),
        Step(items.state, d.sent + items.sent))
    case BoostPurchase =>
      var b := BoostStep(d.state, cy.boostPick, cy.boost, cy.boostProfile);
      if b.None? then ActionsResult(ActionsThrew, d)
      else ActionsResult(Completed(done), Step(b.value.state, d.sent + b.value.sent))
    case NoAction =>
      ActionsResult(Completed(done), d)
  }

  /** The bot's own bookkeeping fields, which the source sets in the constructor and never writes again. */
  datatype Bookkeeping = Bookkeeping(totalPlaced: int, lastClaimedAt: int, isPaused: bool, nextClaimDelay: int, nextRunDelay: int)

  /** The ElseBotNew object. */
  class ElseBot {
    var accountData: AccountData
    var totalPlaced: int
    var lastClaimedAt: int
    var isPaused: bool
    var nextClaimDelay: int
    var nextRunDelay: int
    const maxLifetime: int
    var tapApi: TapWebSocket?
    /** The REST requests issued so far, oldest first. */
    var requests: seq<Sent>

    function Snapshot(): State
      reads this, accountData
    {
      State(accountData.account, accountData.realtime)
    }

    /** The bookkeeping fields; `isPaused` is the guard of `loop`. */
    function Books(): Bookkeeping
      reads this
    {
      Bookkeeping(totalPlaced, lastClaimedAt, isPaused, nextClaimDelay, nextRunDelay)
    }

    /** The constructor: a zeroed record for the session, no socket, the configured lifetime. */
    constructor (session: SessionData)
      ensures fresh(accountData)
      ensures accountData.account == InitialAccount(session) && accountData.realtime == ZeroRealtime
      ensures totalPlaced == 0 && lastClaimedAt == 0 && !isPaused && nextClaimDelay == 0
      ensures nextRunDelay == RunDelayOnStart * 1000 && maxLifetime == MaxLifetimeMs
      ensures tapApi == null && requests == []
    {
      accountData := new AccountData(InitialAccount(session), ZeroRealtime);
      totalPlaced := 0;
      lastClaimedAt := 0;
      isPaused := false;
      nextClaimDelay := 0;
      nextRunDelay := RunDelayOnStart * 1000;
      maxLifetime := MaxLifetimeMs;
      tapApi := null;
      requests := [];
    }

    /**
     * initAccountData: keep a current login; otherwise store a new record
     * with the login obtained (None when obtaining it failed) and the
     * renewal time.
     */
    method InitAccountData(now: int, login: Option<string>, renewedAt: int)
      modifies this
      ensures Books() == old(Books())
      ensures var acc := old(accountData.account);
        if Current(acc.startupData, acc.lastRenewAt, now) then accountData == old(accountData)
        else
          && fresh(accountData) && accountData.realtime == old(accountData.realtime)
          && accountData.account == acc.(startupData := login, lastRenewAt := renewedAt)
      ensures tapApi == old(tapApi) && requests == old(requests)
    {
      var acc := accountData.account;
      if !Current(acc.startupData, acc.lastRenewAt, now) {
        accountData := new AccountData(acc.(startupData := login, lastRenewAt := renewedAt), accountData.realtime);
      }
    }

    /**
     * accountStartup: skip an account without a login, keep a current token;
     * otherwise store a new record with StartupStep's effect.
     */
    method AccountStartup(now: int, renewedAt: int, startup: Response<StartupBody>, me: Response<UserBody>, config: Response<Value>)
      modifies this
      ensures Books() == old(Books())
      ensures var acc := old(accountData.account);
        if !Held(acc.startupData) || Current(acc.jwt, acc.lastRenewAt, now) then
          accountData == old(accountData) && requests == old(requests)
        else
          var step := StartupStep(old(Snapshot()), renewedAt, startup, me, config);
          fresh(accountData) && Snapshot() == step.state && requests == old(requests) + step.sent
      ensures tapApi == old(tapApi)
    {
      var acc := accountData.account;
      if Held(acc.startupData) && !Current(acc.jwt, acc.lastRenewAt, now) {
        var step := StartupStep(Snapshot(), renewedAt, startup, me, config);
        accountData := new AccountData(step.state.account, step.state.realtime);
        requests := requests + step.sent;
      }
    }

    /**
     * initWs: skip an account without a token; otherwise create the socket
     * client on this very record (shared, not copied) and connect.
     */
    method InitWs(now: int)
      modifies this
      ensures var acc := accountData.account;
        if !Held(acc.jwt) then tapApi == old(tapApi)
        else
          && fresh(tapApi) && tapApi.accountData == accountData
          && tapApi.userId == acc.userId && tapApi.jwt == acc.jwt.value
          && tapApi.ws == Socket(WsUrl(acc.jwt.value, acc.userId), Connecting)
          && tapApi.lastActivityTime == now && tapApi.sent == []
      ensures accountData == old(accountData) && requests == old(requests)
      ensures Books() == old(Books())
    {
      if Held(accountData.account.jwt) {
        var socket := new TapWebSocket(RequestConfig(accountData.account), accountData, now);
        socket.SetConnections();
        tapApi := socket;
      }
    }

    /**
     * updateRealtimeData: copy the payload's keys onto the record one by one,
     * in order; an absent payload changes nothing.
     */
    method UpdateRealtimeData(data: Option<Payload>)
      modifies accountData
      ensures accountData.realtime == MergeOpt(old(accountData.realtime), data)
      ensures accountData.account == old(accountData.account)
    {
      if data.Some? {
        var p := data.value;
        for i := 0 to |p|
          invariant accountData.realtime == Merge(old(accountData.realtime), p[..i])
          invariant accountData.account == old(accountData.account)
        {
          assert p[..i + 1][..i] == p[..i];
          accountData.realtime := Write(accountData.realtime, p[i]);
        }
        assert p[..|p|] == p;
      }
    }

    /** A socket message, with the bot's updateRealtimeData as the update callback. */
    method OnWsMessage(now: int, m: Inbound)
      requires tapApi != null
      modifies tapApi, accountData
      ensures tapApi.lastActivityTime == now
      ensures tapApi.ws == (if Classify(m).Reconnect? then Socket(WsUrl(tapApi.jwt, tapApi.userId), Connecting) else old(tapApi.ws))
      ensures tapApi.reqId == old(tapApi.reqId) && tapApi.sent == old(tapApi.sent)
      ensures tapApi.pingMonitor == old(tapApi.pingMonitor) && tapApi.orphanedPingMonitors == old(tapApi.orphanedPingMonitors)
      ensures tapApi.energyTimers == old(tapApi.energyTimers)
      ensures accountData.realtime ==
        (if Classify(m).Update? then Merge(old(accountData.realtime), Classify(m).payload) else old(accountData.realtime))
      ensures accountData.account == old(accountData.account)
    {
      var e := tapApi.OnMessage(now, m);
      if e.Update? {
        UpdateRealtimeData(Some(e.payload));
      }
    }

    method UpdateUserInfo(me: Response<UserBody>)
      modifies this, accountData
      ensures Books() == old(Books())
      ensures var step := UserInfoStep(old(Snapshot()), me);
        accountData == old(accountData) && Snapshot() == step.state && requests == old(requests) + step.sent
      ensures tapApi == old(tapApi)
    {
      var step := UserInfoStep(Snapshot(), me);
      requests := requests + step.sent;
      accountData.account := step.state.account;
    }

    method GetDaily(daily: Response<DailyBody>, me: Response<UserBody>)
      modifies this, accountData
      ensures Books() == old(Books())
      ensures var step := DailyStep(old(Snapshot()), daily, me);
        accountData == old(accountData) && Snapshot() == step.state && requests == old(requests) + step.sent
      ensures tapApi == old(tapApi)
    {
      var call := Users.GetDaily(ClientOf(accountData.account), daily);
      requests := requests + call.sent;
      UpdateRealtimeData(if call.result.Some? then call.result.value.realtimeData else None);
      UpdateUserInfo(me);
    }

    method TankFull(tank: Response<FullTankBody>)
      modifies this, accountData
      ensures Books() == old(Books())
      ensures var step := TankFullStep(old(Snapshot()), tank);
        accountData == old(accountData) && Snapshot() == step.state && requests == old(requests) + step.sent
      ensures tapApi == old(tapApi)
    {
      var call := SetFulltank(ClientOf(accountData.account), tank);
      requests := requests + call.sent;
      UpdateRealtimeData(if call.result.Some? then call.result.value.realtimeData else None);
      var info := accountData.account.info;
      if info.Some? && call.result.Some? && call.result.value.data.Some? {
        accountData.account := accountData.account.(info := Some(info.value.(fullEnergy := call.result.value.data.value)));
      }
    }

    /** buyBoost; `threw` is the TypeError of a missing profile, which leaves everything as it was. */
    method BuyBoost(pick: Draw, resp: Response<BoostBody>, me: Response<UserBody>) returns (threw: bool)
      modifies this, accountData
      ensures Books() == old(Books())
      ensures var step := BoostStep(old(Snapshot()), pick, resp, me);
        && accountData == old(accountData)
        && (threw <==> step.None?)
        && (step.None? ==> Snapshot() == old(Snapshot()) && requests == old(requests))
        && (step.Some? ==> Snapshot() == step.value.state && requests == old(requests) + step.value.sent)
      ensures tapApi == old(tapApi)
    {
      var info := accountData.account.info;
      if info.None? {
        return true;
      }
      threw := false;
      var kind := PickBoost(pick);
      var b := info.value.boost.Of(kind);
      if b.price < accountData.realtime.balance {
        var call := IncreaseBoost(ClientOf(accountData.account), kind, b.level + 1, resp);
        requests := requests + call.sent;
        UpdateRealtimeData(if call.result.Some? then call.result.value.realtimeData else None);
        UpdateUserInfo(me);
      }
    }

    /** buyCategoryItem: the record and the requests get ItemStep's effect. */
    method BuyCategoryItem(p: Purchase) returns (end: SearchEnd)
      modifies this, accountData
      ensures Books() == old(Books())
      ensures var a := ItemStep(old(Snapshot()), p);
        end == a.end && Snapshot() == a.step.state && requests == old(requests) + a.step.sent
      ensures var c := ClientOf(old(accountData.account));
        end.Found? ==>
          && !end.item.disabled && end.item.price < old(accountData.realtime.balance)
          && |requests| > |old(requests)|
          && requests[|requests| - 1] == Sent(c, PurchasePath, Post(PurchaseRequestBody(c, end.item.id, end.item.nextLevel)))
      ensures end == Search(ClientOf(old(accountData.account)), old(accountData.realtime.balance), p.rounds).end
      ensures !end.Found? ==> accountData.realtime == old(accountData.realtime) && OnlyGets(requests[|old(requests)|..])
      ensures var c := ClientOf(old(accountData.account));
        |p.rounds| > 0 ==> |requests| > |old(requests)| && requests[|old(requests)|] == Sent(c, CategoriesPath(c), map[])
      ensures Exhaustive(p) ==> !end.Searching?
      ensures accountData == old(accountData) && accountData.account == old(accountData.account)
      ensures tapApi == old(tapApi)
    {
      var c := ClientOf(accountData.account);
      var response, sent;
      end, response, sent := FindAndBuy(c, accountData.realtime.balance, p.rounds, p.answer);
      requests := requests + sent;
      assert requests[|old(requests)|..] == sent;
      UpdateRealtimeData(PurchasePayload(response));
    }

    /**
     * The `for` loop of buyCategoryItemLoop: up to `count` attempts, the first
     * with the first script and every later one with the second, stopping
     * early only after a search still running. The record and the requests
     * get AttemptItems' effect.
     */
    method BuyItems(count: int, first: Purchase, second: Purchase) returns (ends: seq<SearchEnd>)
      modifies this, accountData
      ensures Books() == old(Books())
      ensures var r := AttemptItems(old(Snapshot()), ItemPlan(count, first, second));
        ends == r.ends && Snapshot() == r.state && requests == old(requests) + r.sent
      ensures accountData == old(accountData) && tapApi == old(tapApi)
    {
      hide ItemStep;
      hide AttemptItems;
      ghost var plan := ItemPlan(count, first, second);
      ghost var s0 := Snapshot();
      ghost var sofar := Attempts([], s0, []);
      ends := [];
      while |ends| < count && (ends == [] || !ends[|ends| - 1].Searching?)
        invariant |ends| <= |plan| && |plan| == if count < 0 then 0 else count
        invariant sofar.ends == ends && sofar.state == Snapshot() && requests == old(requests) + sofar.sent
        invariant ends == [] || !ends[|ends| - 1].Searching? ==>
          AttemptItems(s0, plan) == Then(sofar, AttemptItems(Snapshot(), plan[|ends|..]))
        invariant ends != [] && ends[|ends| - 1].Searching? ==> AttemptItems(s0, plan) == sofar
        invariant accountData == old(accountData) && tapApi == old(tapApi) && Books() == old(Books())
        decreases count - |ends|
      {
        ghost var before := Snapshot();
        ghost var requested := requests;
        var p := if ends == [] then first else second;
        assert p == plan[|ends|];
        var end := BuyCategoryItem(p);
        ghost var a := ItemStep(before, p);
        ghost var done := Attempts([end], Snapshot(), a.step.sent);
        assert done == Attempts([a.end], a.step.state, a.step.sent);
        assert requests == old(requests) + Then(sofar, done).sent by {
          assert requests == requested + a.step.sent;
          AppendAssoc(old(requests), sofar.sent, a.step.sent);
        }
        AttemptsAdvance(s0, plan, sofar, |ends|, before);
        sofar := Then(sofar, done);
        ends := ends + [end];
      }
      if ends == [] || !ends[|ends| - 1].Searching? {
        assert plan[|ends|..] == [];
        AttemptsNone(Snapshot());
      }
    }

    /**
     * buyCategoryItemLoop: `randInt(1, 3)` attempts, that is one or two, with
     * `ends[k]` the outcome of attempt k; the record and the requests get
     * AttemptItems' effect. Every attempt but the last concluded, and all
     * `count` attempts are made when both searches have enough rounds.
     */
    method BuyCategoryItemLoop(countDraw: Draw, first: Purchase, second: Purchase) returns (count: int, ends: seq<SearchEnd>)
      modifies this, accountData
      ensures Books() == old(Books())
      ensures count == RandInt(1, 3, countDraw) && 1 <= count <= 2
      ensures var r := AttemptItems(old(Snapshot()), ItemPlan(count, first, second));
        ends == r.ends && Snapshot() == r.state && requests == old(requests) + r.sent
      ensures 1 <= |ends| <= count
      ensures forall k :: 0 <= k < |ends| - 1 ==> !ends[k].Searching?
      ensures |ends| < count ==> ends[|ends| - 1].Searching?
      ensures Exhaustive(first) && Exhaustive(second) ==> |ends| == count && forall k :: 0 <= k < |ends| ==> !ends[k].Searching?
      ensures forall k :: 0 <= k < |ends| && ends[k].Found? ==> !ends[k].item.disabled
      ensures ends[0].Found? ==> ends[0].item.price < old(accountData.realtime.balance)
      ensures (forall k :: 0 <= k < |ends| ==> !ends[k].Found?) ==> accountData.realtime == old(accountData.realtime)
      ensures accountData == old(accountData) && accountData.account == old(accountData.account)
      ensures tapApi == old(tapApi)
    {
      hide ItemStep;
      count := RandInt(1, 3, countDraw);
      ends := BuyItems(count, first, second);
      PlanFacts(old(Snapshot()), count, first, second);
    }

    /**
     * performActions: claim the daily reward when the profile says it is not
     * claimed yet, then run the action ChooseAction picks on the record as it
     * is after the claim. `done` is set by the claim and by any action.
     */
    method PerformActions(cy: Cycle) returns (outcome: ActionsEnd, daily: bool, action: Action, ghost decidedOn: State)
      modifies this, accountData
      ensures Books() == old(Books())
      ensures daily <==> ClaimsDaily(old(Snapshot()))
      ensures decidedOn == Decided(old(Snapshot()), cy)
      ensures action == ChooseAction(cy.now, decidedOn, cy.rolls)
      ensures outcome.Completed? ==> (outcome.done <==> daily || action != NoAction)
      ensures outcome.ActionsThrew? <==> action == BoostPurchase && decidedOn.account.info.None?
      ensures outcome.ActionsStalled? ==> action == ItemPurchase
      ensures action == NoAction ==> Snapshot() == decidedOn
      ensures action == Refill ==> Snapshot() == TankFullStep(decidedOn, cy.tank).state
      ensures action == BoostPurchase ==>
        Snapshot() == (if decidedOn.account.info.None? then decidedOn
                       else BoostStep(decidedOn, cy.boostPick, cy.boost, cy.boostProfile).value.state)
      ensures action == ItemPurchase ==> Snapshot().account == decidedOn.account
      ensures var r := Actions(old(Snapshot()), cy);
        outcome == r.outcome && Snapshot() == r.step.state && requests == old(requests) + r.step.sent
      ensures accountData == old(accountData) && tapApi == old(tapApi)
    {
      hide ItemStep;
      hide AttemptItems;
      ghost var d := DailyPart(old(Snapshot()), cy);
      var info := accountData.account.info;
      daily := info.Some? && !info.value.isGotDar;
      if daily {
        GetDaily(cy.daily, cy.dailyProfile);
      } else {
        assert requests == old(requests) + [];
      }
      assert requests == old(requests) + d.sent;
      var current := Snapshot();
      decidedOn := current;
      action := ChooseAction(cy.now, current, cy.rolls);
      outcome := Completed(daily || action != NoAction);
      match action {
        case Refill =>
          TankFull(cy.tank);
          AppendAssoc(old(requests), d.sent, TankFullStep(current, cy.tank).sent);
        case ItemPurchase =>
          var count, ends := BuyCategoryItemLoop(cy.itemCount, cy.firstPurchase, cy.secondPurchase);
          AppendAssoc(old(requests), d.sent, AttemptItems(current, ItemPlan(count, cy.firstPurchase, cy.secondPurchase)).sent);
          if ends[|ends| - 1].Searching? {
            outcome := ActionsStalled;
          }
        case BoostPurchase =>
          var threw := BuyBoost(cy.boostPick, cy.boost, cy.boostProfile);
          var b := BoostStep(current, cy.boostPick, cy.boost, cy.boostProfile);
          if b.Some? {
            AppendAssoc(old(requests), d.sent, b.value.sent);
          }
          if threw {
            outcome := ActionsThrew;
          }
        case NoAction =>
      }
    }

    /**
     * One iteration of loop(): tap, then, when the energy is below 150,
     * performActions, whose outcome is `actions`; the sleep is a run delay
     * unless the actions completed without doing anything, in which case it
     * is a long delay. A throw ends the loop.
     */
    method LoopIteration(cy: Cycle) returns (end: IterationEnd, actions: Option<ActionsEnd>)
      modifies this, accountData, tapApi
      ensures Books() == old(Books())
      ensures tapApi == old(tapApi) && accountData == old(accountData)
      ensures tapApi != null ==>
        var plan := PlanTap(old(tapApi.ws).Socket?, old(tapApi.accountData.realtime.ppc), old(tapApi.accountData.realtime.ptc), cy.tapDraw);
        var r := FirstReqId(old(tapApi.reqId), cy.tapNow);
        if !plan.Send? then
          tapApi.sent == old(tapApi.sent) && tapApi.reqId == old(tapApi.reqId)
        else if old(tapApi.ws).state == Connecting then
          tapApi.sent == old(tapApi.sent) && tapApi.reqId == Some(r + 1)
        else
          tapApi.reqId == Some(r + 2) &&
          tapApi.sent == old(tapApi.sent) + (if old(tapApi.ws).state == Open then [Click("0", r), Click(Decimal(plan.points), r + 1)] else [])
      ensures tapApi != null ==>
        && tapApi.ws == old(tapApi.ws) && tapApi.lastActivityTime == old(tapApi.lastActivityTime)
        && tapApi.pingMonitor == old(tapApi.pingMonitor) && tapApi.orphanedPingMonitors == old(tapApi.orphanedPingMonitors)
        && tapApi.energyTimers == old(tapApi.energyTimers)
      ensures actions.Some? <==> old(accountData.realtime.ptc) < ActionEnergyThreshold
      ensures actions.None? ==> Snapshot() == old(Snapshot()) && requests == old(requests)
      ensures actions.Some? ==> var r := Actions(old(Snapshot()), cy);
        actions.value == r.outcome && Snapshot() == r.step.state && requests == old(requests) + r.step.sent
      ensures end == match actions
        case None => Slept(RandRunDelay(cy.runDraw))
        case Some(Completed(done)) => Slept(if done then RandRunDelay(cy.runDraw) else RandLongRunDelay(cy.longDraw))
        case Some(ActionsThrew) => Threw
        case Some(ActionsStalled) => Stalled
      ensures var a := ChooseAction(cy.now, Decided(old(Snapshot()), cy), cy.rolls);
        actions.Some? && a == NoAction ==> Snapshot() == Decided(old(Snapshot()), cy)
      ensures end == Slept(RandLongRunDelay(cy.longDraw)) <==>
        && old(accountData.realtime.ptc) < ActionEnergyThreshold
        && !ClaimsDaily(old(Snapshot()))
        && ChooseAction(cy.now, old(Snapshot()), cy.rolls) == NoAction
    {
      hide ItemStep;
      hide AttemptItems;
      if tapApi != null {
        tapApi.Tap(cy.tapNow, cy.tapDraw);
      }
      var delay := RandRunDelay(cy.runDraw);
      actions := None;
      if accountData.realtime.ptc < ActionEnergyThreshold {
        var outcome, daily, action, decidedOn := PerformActions(cy);
        actions := Some(outcome);
        if outcome.ActionsThrew? {
          return Threw, actions;
        }
        if outcome.ActionsStalled? {
          return Stalled, actions;
        }
        if !outcome.done {
          delay := RandLongRunDelay(cy.longDraw);
        }
      }
      end := Slept(delay);
    }
  }
}
