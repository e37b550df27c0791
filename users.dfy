/**
 * The user endpoints (src/api/users.ts). Each is one request, a check and a
 * return; every failure becomes an absent result, and the two mutating
 * endpoints fail locally, with no request, when no token is held.
 */
module Users {
  import opened Wrappers
  import opened Json
  import opened Records
  import opened Base

  datatype StartupInfo = StartupInfo(accumulatedPoints: int, justCreated: bool, jwt: string)

  /** GET /api/v1/user/startup answers. */
  datatype StartupBody = StartupBody(data: StartupInfo, realtimeData: Option<Payload>)

  /** GET /api/v1/user answers. */
  datatype UserBody = UserBody(data: UserInfo, realtimeData: Option<Payload>)

  /** POST /api/v1/user/set-full-tank answers; `data` may be null. */
  datatype FullTankBody = FullTankBody(data: Option<FullEnergy>, realtimeData: Option<Payload>)

  /** POST /api/v1/user/get-daily answers. */
  datatype DailyBody = DailyBody(data: bool, realtimeData: Option<Payload>)

  /** startup: the raw startup data is appended to the query as it is (`null` when there is none). */
  function StartupPath(c: Client): string {
    "/api/v1/user/startup?" + Render(c.startupData)
  }

  function Startup(c: Client, resp: Response<StartupBody>): (r: Call<StartupBody>)
    ensures r.sent == [Sent(c, StartupPath(c), map[])]
    ensures r.result == Settle(resp, false, TruthyError)
  {
    Call([Sent(c, StartupPath(c), map[])], Settle(resp, false, TruthyError))
  }

  function MePath(c: Client): string {
    "/api/v1/user?userId=" + Decimal(c.userId)
  }

  /** me: no status check, a truthy error fails. */
  function Me(c: Client, resp: Response<UserBody>): (r: Call<UserBody>)
    ensures r.sent == [Sent(c, MePath(c), map[])]
    ensures r.result.Some? <==> resp.Response? && resp.body.Parsed? && !Truthy(resp.body.error)
    ensures r.result.Some? ==> r.result.value == resp.body.content
  {
    Call([Sent(c, MePath(c), map[])], Settle(resp, false, TruthyError))
  }

  function ConfigPath(c: Client): string {
    "/api/v1/config?userId=" + Decimal(c.userId)
  }

  /** getUserConfig: status 500 fails, then a truthy error fails. The content is opaque here. */
  function GetUserConfig<T>(c: Client, resp: Response<T>): (r: Call<T>)
    ensures r.sent == [Sent(c, ConfigPath(c), map[])]
    ensures r.result.Some? <==>
      resp.Response? && resp.status != 500 && resp.body.Parsed? && !Truthy(resp.body.error)
    ensures r.result.Some? ==> r.result.value == resp.body.content
  {
    Call([Sent(c, ConfigPath(c), map[])], Settle(resp, true, TruthyError))
  }

  function TasksPath(c: Client): string {
    "/api/v1/task?userId=" + Decimal(c.userId) + "&page=1&perPage=100"
  }

  /** getTasks: status 500 fails, and so does any body that has an error key, even a null one. */
  function GetTasks<T>(c: Client, resp: Response<T>): (r: Call<T>)
    ensures r.sent == [Sent(c, TasksPath(c), map[])]
    ensures r.result.Some? <==>
      resp.Response? && resp.status != 500 && resp.body.Parsed? && resp.body.error == Undefined
    ensures r.result.Some? ==> r.result.value == resp.body.content
  {
    Call([Sent(c, TasksPath(c), map[])], Settle(resp, true, ErrorKeyPresent))
  }

  const FullTankPath := "/api/v1/user/set-full-tank"

  /**
   * setFulltank: no token, no request; otherwise a POST of `{ userId }`.
   * Status 500 and a truthy error fail, and so does an answer without
   * realtimeData, whose success log then throws reading `realtimeData.ptc`.
   */
  function SetFulltank(c: Client, resp: Response<FullTankBody>): (r: Call<FullTankBody>)
    ensures !Held(c.jwt) ==> r.sent == [] && r.result.None?
    ensures Held(c.jwt) ==> r.sent == [Sent(c, FullTankPath, Post(UserIdBody(c)))]
    ensures r.result.Some? <==>
      (Held(c.jwt) && resp.Response? && resp.status != 500 && resp.body.Parsed? && !Truthy(resp.body.error)
       && resp.body.content.realtimeData.Some?)
    ensures r.result.Some? ==> r.result.value == resp.body.content
  {
    if !Held(c.jwt) then Call([], None)
    else
      var data := Settle(resp, true, TruthyError);
      Call([Sent(c, FullTankPath, Post(UserIdBody(c)))],
           if data.Some? && data.value.realtimeData.None? then None else data)
  }

  const DailyPath := "/api/v1/user/get-daily"

  /** getDaily: the same shape as setFulltank, on the daily-reward endpoint, with the same throwing log. */
  function GetDaily(c: Client, resp: Response<DailyBody>): (r: Call<DailyBody>)
    ensures !Held(c.jwt) ==> r.sent == [] && r.result.None?
    ensures Held(c.jwt) ==> r.sent == [Sent(c, DailyPath, Post(UserIdBody(c)))]
    ensures r.result.Some? <==>
      (Held(c.jwt) && resp.Response? && resp.status != 500 && resp.body.Parsed? && !Truthy(resp.body.error)
       && resp.body.content.realtimeData.Some?)
    ensures r.result.Some? ==> r.result.value == resp.body.content
  {
    if !Held(c.jwt) then Call([], None)
    else
      var data := Settle(resp, true, TruthyError);
      Call([Sent(c, DailyPath, Post(UserIdBody(c)))],
           if data.Some? && data.value.realtimeData.None? then None else data)
  }

  /** A body whose error is null passes getUserConfig's check but fails getTasks'. */
  lemma TasksRejectNullError<T>(c: Client, resp: Response<T>)
    requires resp.Response? && resp.status != 500 && resp.body.Parsed? && resp.body.error == Null
    ensures GetUserConfig(c, resp).result.Some? && GetTasks(c, resp).result.None?
  {
  }
}
