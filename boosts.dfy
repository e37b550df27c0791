/** Boost purchase (src/api/boosts.ts): local token check, one POST, the shared response policy. */
module Boosts {
  import opened Wrappers
  import opened Json
  import opened Records
  import opened Base

  datatype BoostBody = BoostBody(data: BoostInfo, realtimeData: Option<Payload>)

  const BoostPath := "/api/v1/user/boost"

  /** The JSON body `{ boost, levelToBuy, userId }`. */
  function BoostRequestBody(c: Client, boost: BoostKind, levelToBuy: int): Value {
    Obj(map["boost" := Str(BoostName(boost)), "levelToBuy" := Num(levelToBuy), "userId" := Num(c.userId)])
  }

  /**
   * increaseBoost: without a token it fails before any request; otherwise it
   * POSTs the boost and the level to buy. Status 500, an unparsable body, a
   * truthy error, or an answer without realtimeData (whose success log throws
   * reading `realtimeData.ptc`) yield no result.
   */
  function IncreaseBoost(c: Client, boost: BoostKind, levelToBuy: int, resp: Response<BoostBody>): (r: Call<BoostBody>)
    ensures !Held(c.jwt) ==> r.sent == [] && r.result.None?
    ensures Held(c.jwt) ==> r.sent == [Sent(c, BoostPath, Post(BoostRequestBody(c, boost, levelToBuy)))]
    ensures r.result.Some? <==>
      (Held(c.jwt) && resp.Response? && resp.status != 500 && resp.body.Parsed? && !Truthy(resp.body.error)
       && resp.body.content.realtimeData.Some?)
    ensures r.result.Some? ==> r.result.value == resp.body.content
  {
    if !Held(c.jwt) then Call([], None)
    else
      var data := Settle(resp, true, TruthyError);
      Call([Sent(c, BoostPath, Post(BoostRequestBody(c, boost, levelToBuy)))],
           if data.Some? && data.value.realtimeData.None? then None else data)
  }
}
