/**
 * The account records (src/types/users.ts, src/types/bot.ts) and the
 * field-by-field merge of a realtime payload into them.
 */
module Records {
  import opened Wrappers

  /** The numeric realtime quantities pushed by the server and returned by REST calls. */
  datatype RealtimeData = RealtimeData(
    balance: nat, lvl: nat, ppc: nat, pph: nat, pps: nat, ptc: nat,
    ptcRps: nat, ptcTotal: nat, pst: nat, uid: string, ms: nat)

  /** The numeric keys of RealtimeData (uid, the one string key, is an Entry of its own). */
  datatype Key = Balance | Lvl | Ppc | Pph | Pps | Ptc | PtcRps | PtcTotal | Pst | Ms

  /** One own key of a payload object, with its value. */
  datatype Entry = Count(key: Key, value: nat) | Uid(uid: string)

  /** A realtime payload as Object.keys lists it: its entries in key order. */
  type Payload = seq<Entry>

  function Get(rt: RealtimeData, k: Key): nat {
    match k
    case Balance => rt.balance
    case Lvl => rt.lvl
    case Ppc => rt.ppc
    case Pph => rt.pph
    case Pps => rt.pps
    case Ptc => rt.ptc
    case PtcRps => rt.ptcRps
    case PtcTotal => rt.ptcTotal
    case Pst => rt.pst
    case Ms => rt.ms
  }

  /** `accountData[key] = value`: the one key changes, nothing else does. */
  function Set(rt: RealtimeData, k: Key, v: nat): (r: RealtimeData)
    ensures Get(r, k) == v
    ensures forall k' :: k' != k ==> Get(r, k') == Get(rt, k')
    ensures r.uid == rt.uid
  {
    match k
    case Balance => rt.(balance := v)
    case Lvl => rt.(lvl := v)
    case Ppc => rt.(ppc := v)
    case Pph => rt.(pph := v)
    case Pps => rt.(pps := v)
    case Ptc => rt.(ptc := v)
    case PtcRps => rt.(ptcRps := v)
    case PtcTotal => rt.(ptcTotal := v)
    case Pst => rt.(pst := v)
    case Ms => rt.(ms := v)
  }

  function Write(rt: RealtimeData, e: Entry): RealtimeData {
    match e
    case Count(k, v) => Set(rt, k, v)
    case Uid(u) => rt.(uid := u)
  }

  /** The value a payload holds for a key: its last entry for that key, if any. */
  function Latest(p: Payload, k: Key): Option<nat> {
    if p == [] then None
    else if p[|p| - 1].Count? && p[|p| - 1].key == k then Some(p[|p| - 1].value)
    else Latest(p[..|p| - 1], k)
  }

  function LatestUid(p: Payload): Option<string> {
    if p == [] then None
    else if p[|p| - 1].Uid? then Some(p[|p| - 1].uid)
    else LatestUid(p[..|p| - 1])
  }

  /**
   * The effect of copying every entry of a payload onto the record in order:
   * exactly the keys the payload holds are overwritten, with the payload's
   * value; every other field keeps its value.
   */
  function Merge(rt: RealtimeData, p: Payload): (r: RealtimeData)
    ensures forall k :: Get(r, k) == Latest(p, k).GetOr(Get(rt, k))
    ensures r.uid == LatestUid(p).GetOr(rt.uid)
  {
    if p == [] then rt else Write(Merge(rt, p[..|p| - 1]), p[|p| - 1])
  }

  /** Merging an absent payload (`response?.realtimeData` undefined) changes nothing. */
  function MergeOpt(rt: RealtimeData, p: Option<Payload>): (r: RealtimeData)
    ensures p.None? ==> r == rt
    ensures p.Some? ==> r == Merge(rt, p.value)
  {
    if p.Some? then Merge(rt, p.value) else rt
  }

  /** Two records that agree on every key are the same record. */
  lemma SameFields(a: RealtimeData, b: RealtimeData)
    requires forall k :: Get(a, k) == Get(b, k)
    requires a.uid == b.uid
    ensures a == b
  {
    assert Get(a, Balance) == Get(b, Balance) && Get(a, Lvl) == Get(b, Lvl);
    assert Get(a, Ppc) == Get(b, Ppc) && Get(a, Pph) == Get(b, Pph);
    assert Get(a, Pps) == Get(b, Pps) && Get(a, Ptc) == Get(b, Ptc);
    assert Get(a, PtcRps) == Get(b, PtcRps) && Get(a, PtcTotal) == Get(b, PtcTotal);
    assert Get(a, Pst) == Get(b, Pst) && Get(a, Ms) == Get(b, Ms);
  }

  /** Applying the same payload twice is the same as applying it once. */
  lemma MergeIdempotent(rt: RealtimeData, p: Payload)
    ensures Merge(Merge(rt, p), p) == Merge(rt, p)
  {
    var once := Merge(rt, p);
    var twice := Merge(once, p);
    forall k ensures Get(twice, k) == Get(once, k) {
    }
    SameFields(twice, once);
  }

  datatype FullEnergy = FullEnergy(count: int, cooldown: int)

  datatype BoostInfo = BoostInfo(level: int, price: int, profit: int)

  datatype BoostKind = EnergyLimit | Multitap

  /** The boost names the server knows: "energy-limit" and "multitap". */
  function BoostName(b: BoostKind): string {
    match b
    case EnergyLimit => "energy-limit"
    case Multitap => "multitap"
  }

  datatype Boosts = Boosts(multitap: BoostInfo, energyLimit: BoostInfo) {
    function Of(b: BoostKind): BoostInfo {
      match b
      case Multitap => multitap
      case EnergyLimit => energyLimit
    }
  }

  /** The profile (`info`) fields the decision loop reads; the rest of UserInfo is not modelled. */
  datatype UserInfo = UserInfo(fullEnergy: FullEnergy, boost: Boosts, isGotDar: bool)

  /** A session descriptor: the account id, its browser user agent and its proxy. */
  datatype SessionData = SessionData(id: int, userAgent: string, proxy: Option<string>)

  datatype Account = Account(
    userId: int,
    session: SessionData,
    jwt: Option<string>,
    startupData: Option<string>,
    lastRenewAt: int,
    lastErrorAt: int,
    info: Option<UserInfo>)

  /**
   * The `accountData` object: an Account and its RealtimeData in one mutable
   * record, shared by reference between the bot and its websocket.
   */
  class AccountData {
    var account: Account
    var realtime: RealtimeData

    constructor (account: Account, realtime: RealtimeData)
      ensures this.account == account && this.realtime == realtime
    {
      this.account := account;
      this.realtime := realtime;
    }
  }
}
