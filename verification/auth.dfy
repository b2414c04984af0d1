/**
 * The GitHub device authorization flow of `GitHubAuth` (the OAuth 2.0 Device
 * Authorization Grant of RFC 8628): requesting a device code, interpreting the
 * token endpoint's answers, fetching the user, and keeping the credentials in
 * the browser's storage areas.
 *
 * Every network answer is a parameter. The storage areas are a class whose
 * fields the operations update; whether each storage call succeeds is a
 * parameter as well.
 */
module Auth {
  import opened Common

  // ---------------------------------------------------------------------------
  // Device code request
  // ---------------------------------------------------------------------------

  /** The OAuth application's client id, and the placeholder it replaced. */
  const ClientId: string := "Ov23liF5VVlXCN41NE79"
  const Placeholder: string := "YOUR_GITHUB_OAUTH_CLIENT_ID"

  const NotConfigured: string := "GitHub OAuth Client ID not configured. Please follow the setup instructions in README.md"
  const MissingFields: string := "Invalid response from GitHub: missing required fields"

  /** The JSON fields of the device code endpoint's answer that the flow reads. */
  datatype DeviceCodeBody = DeviceCodeBody(
    error: Option<string>, errorDescription: Option<string>,
    deviceCode: Option<string>, userCode: Option<string>, verificationUri: Option<string>,
    expiresIn: Option<int>, interval: Option<int>)

  /** The POST to the device code endpoint: it threw (network, or a body that is not JSON), or it answered. */
  datatype DeviceCodeReply =
    | DeviceCodeThrew(message: string)
    | DeviceCodeReplied(status: nat, text: string, body: DeviceCodeBody)

  /** What `startDeviceFlow` resolves to. */
  datatype DeviceFlow = DeviceFlow(
    deviceCode: string, userCode: string, verificationUri: string,
    expiresIn: Option<int>, interval: Option<int>)

  predicate Configured(clientId: string) {
    clientId != [] && clientId != Placeholder
  }

  /** `data.error_description || data.error`. */
  function Reason(description: Option<string>, error: Option<string>): string {
    if Truthy(description) then description.value else error.GetOr("")
  }

  /**
   * `startDeviceFlow()`: a configured client id, a 2xx answer, no `error`
   * field and all three of `device_code`, `user_code` and `verification_uri`
   * are needed to proceed; each failure has its own message. The permission
   * request before the POST is left out: its outcome, even a refusal, is
   * swallowed by its own `catch`.
   */
  function StartDeviceFlow(clientId: string, reply: DeviceCodeReply): (r: Result<DeviceFlow>)
    ensures !Configured(clientId) ==> r == Failure(NotConfigured)
    ensures r.Success? <==>
      && Configured(clientId)
      && reply.DeviceCodeReplied? && 200 <= reply.status <= 299
      && !Truthy(reply.body.error)
      && Truthy(reply.body.deviceCode) && Truthy(reply.body.userCode) && Truthy(reply.body.verificationUri)
    ensures r.Success? ==> r.value == DeviceFlow(
      reply.body.deviceCode.value, reply.body.userCode.value, reply.body.verificationUri.value,
      reply.body.expiresIn, reply.body.interval)
    ensures Configured(clientId) && reply.DeviceCodeReplied? && !(200 <= reply.status <= 299) ==>
      r == Failure("GitHub API error (" + Decimal(reply.status) + "): " + reply.text)
  {
    if !Configured(clientId) then Failure(NotConfigured)
    else
      match reply
      case DeviceCodeThrew(message) => Failure(message)
      case DeviceCodeReplied(status, text, body) =>
        if !(200 <= status <= 299) then Failure("GitHub API error (" + Decimal(status) + "): " + text)
        else if Truthy(body.error) then Failure("GitHub error: " + Reason(body.errorDescription, body.error))
        else if !Truthy(body.deviceCode) || !Truthy(body.userCode) || !Truthy(body.verificationUri) then
          Failure(MissingFields)
        else Success(DeviceFlow(body.deviceCode.value, body.userCode.value, body.verificationUri.value,
                                body.expiresIn, body.interval))
  }

  /** The shipped client id is not the placeholder, so the flow always reaches GitHub. */
  lemma {:induction false} ShippedClientIdConfigured()
    ensures Configured(ClientId)
  {
    assert ClientId[0] == 'O' != Placeholder[0];
  }

  // ---------------------------------------------------------------------------
  // Token polling
  // ---------------------------------------------------------------------------

  /** The token endpoint's answer: it threw, or the `access_token`, `error` and `error_description` fields. */
  datatype TokenReply =
    | TokenThrew(message: string)
    | TokenReplied(accessToken: Option<string>, error: Option<string>, errorDescription: Option<string>)

  /** What one poll decides: the token, another poll after a delay in milliseconds, or a failure. */
  datatype PollStep = Granted(token: string) | Wait(delayMs: nat) | Denied(reason: string)

  const Pending: string := "authorization_pending"
  const SlowDown: string := "slow_down"

  /**
   * One poll of the token endpoint, shared by `pollForToken` and the
   * background poller: a token ends the flow; `authorization_pending` waits
   * `interval` seconds and `slow_down` waits five seconds more (section 3.5 of
   * RFC 8628), for this one poll only; anything else fails.
   */
  function ClassifyPoll(reply: TokenReply, interval: nat): (step: PollStep)
    ensures step.Granted? <==> reply.TokenReplied? && Truthy(reply.accessToken)
    ensures step.Granted? ==> step.token == reply.accessToken.value
    ensures step.Wait? <==>
      reply.TokenReplied? && !Truthy(reply.accessToken) && reply.error in {Some(Pending), Some(SlowDown)}
    ensures step.Wait? && reply.error == Some(Pending) ==> step.delayMs == interval * 1000
    ensures step.Wait? && reply.error == Some(SlowDown) ==> step.delayMs == (interval + 5) * 1000
    ensures step.Denied? && reply.TokenThrew? ==> step.reason == reply.message
  {
    match reply
    case TokenThrew(message) => Denied(message)
    case TokenReplied(token, error, description) =>
      if Truthy(token) then Granted(token.value)
      else if error == Some(Pending) then Wait(interval * 1000)
      else if error == Some(SlowDown) then Wait((interval + 5) * 1000)
      else Denied(Reason(description, error))
  }

  /** How the promise of `pollForToken` settles, with the delays it waited between polls. */
  datatype PollResult =
    | Resolved(token: string, waits: seq<nat>)
    | Rejected(reason: string, waits: seq<nat>)
    | Unsettled(waits: seq<nat>)

  function Waited(delay: nat, r: PollResult): PollResult {
    match r
    case Resolved(t, w) => Resolved(t, [delay] + w)
    case Rejected(m, w) => Rejected(m, [delay] + w)
    case Unsettled(w) => Unsettled([delay] + w)
  }

  /**
   * `pollForToken(deviceCode, interval)` given the answers to its successive
   * polls: it polls until an answer other than "pending" or "slow down",
   * which settles the promise; while every answer so far asks to wait, it
   * is still unsettled.
   */
  function PollForToken(replies: seq<TokenReply>, interval: nat): (r: PollResult)
    ensures |r.waits| <= |replies|
    ensures forall k | 0 <= k < |r.waits| ::
      ClassifyPoll(replies[k], interval).Wait? && r.waits[k] == ClassifyPoll(replies[k], interval).delayMs
    ensures r.Unsettled? <==> |r.waits| == |replies|
    ensures r.Resolved? ==> ClassifyPoll(replies[|r.waits|], interval) == Granted(r.token)
    ensures r.Rejected? ==> ClassifyPoll(replies[|r.waits|], interval) == Denied(r.reason)
    decreases |replies|
  {
    if replies == [] then Unsettled([])
    else
      match ClassifyPoll(replies[0], interval)
      case Granted(token) => Resolved(token, [])
      case Denied(reason) => Rejected(reason, [])
      case Wait(delay) => Waited(delay, PollForToken(replies[1..], interval))
  }

  /**
   * A "slow down" answer lengthens only the wait right after it: the next
   * "pending" answer waits the original interval again, where section 3.5 of
   * RFC 8628 asks for the increase to apply to all later requests.
   */
  lemma {:induction false} SlowDownIsForgotten(interval: nat, rest: seq<TokenReply>)
    ensures var r := PollForToken([TokenReplied(None, Some(SlowDown), None), TokenReplied(None, Some(Pending), None)] + rest, interval);
      |r.waits| >= 2 && r.waits[0] == (interval + 5) * 1000 && r.waits[1] == interval * 1000
  {
    var replies := [TokenReplied(None, Some(SlowDown), None), TokenReplied(None, Some(Pending), None)] + rest;
    var r := PollForToken(replies, interval);
    assert ClassifyPoll(replies[0], interval).Wait?;
    assert ClassifyPoll(replies[1], interval).Wait?;
    assert |r.waits| >= 1;
    assert |r.waits| >= 2;
  }

  // ---------------------------------------------------------------------------
  // The user
  // ---------------------------------------------------------------------------

  /** The fields of the `/user` answer the extension uses. */
  datatype UserInfo = UserInfo(login: Option<string>)

  /** The body of the `/user` answer: JSON with the user's fields, or text that `response.json()` rejects with an error. */
  datatype UserBody = Json(info: UserInfo) | NotJson(error: string)

  /** GET `/user` with the token: it threw, or its status and body. */
  datatype UserReply = UserThrew(message: string) | UserReplied(status: nat, body: UserBody)

  /** `response.ok`. */
  predicate UserOk(reply: UserReply) {
    reply.UserReplied? && 200 <= reply.status <= 299
  }

  /** A 2xx answer whose body parses: the only case in which the user's fields are known. */
  predicate UserFetched(reply: UserReply) {
    UserOk(reply) && reply.body.Json?
  }

  /** `getUserInfo(token)`: the JSON body of a 2xx answer, an HTTP error otherwise; a body that does not parse rethrows. */
  function GetUserInfo(reply: UserReply): (r: Result<UserInfo>)
    ensures r.Success? <==> UserFetched(reply)
    ensures r.Success? ==> r.value == reply.body.info
    ensures reply.UserReplied? && !UserOk(reply) ==> r.error == "HTTP error! status: " + Decimal(reply.status)
    ensures UserOk(reply) && reply.body.NotJson? ==> r.error == reply.body.error
  {
    match reply
    case UserThrew(message) => Failure(message)
    case UserReplied(status, body) =>
      if !(200 <= status <= 299) then Failure("HTTP error! status: " + Decimal(status))
      else
        match body
        case Json(info) => Success(info)
        case NotJson(error) => Failure(error)
  }

  /** `validateToken(token)`: the same request, judged on `response.ok` alone; an exception counts as invalid. */
  function ValidateToken(reply: UserReply): (valid: bool)
    ensures valid ==> reply.UserReplied?
    ensures GetUserInfo(reply).Success? ==> valid
  {
    UserOk(reply)
  }

  /**
   * A token is valid whenever the user it belongs to can be fetched with it,
   * and, as long as the answer's body is JSON, only then.
   */
  lemma ValidWhenUserFetched(reply: UserReply)
    ensures ValidateToken(reply) <==> reply.UserReplied? && 200 <= reply.status <= 299
    ensures GetUserInfo(reply).Success? ==> ValidateToken(reply)
    ensures reply.UserReplied? && reply.body.Json? ==> (ValidateToken(reply) <==> GetUserInfo(reply).Success?)
  {
  }

  /**
   * An answer that is not JSON (a proxy's HTML page, say) validates the token
   * exactly when its status is 2xx, although `getUserInfo` throws either way:
   * with the parse error on 2xx, with the HTTP status otherwise.
   */
  lemma {:induction false} ValidWithoutUser(status: nat, error: string)
    ensures ValidateToken(UserReplied(status, NotJson(error))) <==> 200 <= status <= 299
    ensures 200 <= status <= 299 ==> GetUserInfo(UserReplied(status, NotJson(error))) == Failure(error)
    ensures !(200 <= status <= 299) ==> GetUserInfo(UserReplied(status, NotJson(error))).Failure?
  {
  }

  // ---------------------------------------------------------------------------
  // Credentials in storage
  // ---------------------------------------------------------------------------

  /**
   * The three keys `github_token`, `github_username` and `github_user_info`
   * as one record: every write sets all three and every removal removes all three.
   */
  datatype AuthRecord = AuthRecord(token: string, username: Option<string>, userInfo: UserInfo)

  /** The `github_token` and `github_username` fields of what `loadAuth` resolves to. */
  datatype Credentials = Credentials(token: Option<string>, username: Option<string>)

  /** The object `saveAuth(token, userInfo)` writes. */
  function Record(token: string, info: UserInfo): AuthRecord {
    AuthRecord(token, info.login, info)
  }

  /** The credentials a storage area holds; an empty area reads as `{}`. */
  function View(area: Option<AuthRecord>): Credentials {
    match area
    case None => Credentials(None, None)
    case Some(a) => Credentials(Some(a.token), a.username)
  }

  /** Whether each storage area accepts the call made at a given moment. */
  datatype Availability = Availability(sync: bool, local: bool)

  /** The two storage areas' contents. */
  datatype Areas = Areas(sync: Option<AuthRecord>, local: Option<AuthRecord>)

  /** `saveAuth`: write to `storage.sync`; only if that throws, write to `storage.local`. */
  function Saved(areas: Areas, record: AuthRecord, up: Availability): Areas {
    if up.sync then areas.(sync := Some(record))
    else if up.local then areas.(local := Some(record))
    else areas
  }

  /** `loadAuth`: read `storage.sync`; only if that throws, read `storage.local`; if both throw, `{}`. */
  function Loaded(areas: Areas, up: Availability): Credentials {
    if up.sync then View(areas.sync)
    else if up.local then View(areas.local)
    else View(None)
  }

  /** `clearAuth`: remove from each area independently, ignoring failures. */
  function Cleared(areas: Areas, up: Availability): Areas {
    Areas(if up.sync then None else areas.sync, if up.local then None else areas.local)
  }

  /** Credentials saved while `storage.sync` works are read back while it works. */
  lemma ReadBackFromSync(areas: Areas, record: AuthRecord, atSave: Availability, atLoad: Availability)
    requires atSave.sync && atLoad.sync
    ensures Loaded(Saved(areas, record, atSave), atLoad) == View(Some(record))
  {
  }

  /** Credentials that fell back to `storage.local` are read back only while `storage.sync` keeps failing. */
  lemma ReadBackFromLocal(areas: Areas, record: AuthRecord, atSave: Availability, atLoad: Availability)
    requires !atSave.sync && atSave.local
    ensures !atLoad.sync && atLoad.local ==> Loaded(Saved(areas, record, atSave), atLoad) == View(Some(record))
    ensures atLoad.sync ==> Loaded(Saved(areas, record, atSave), atLoad) == Loaded(areas, atLoad)
  {
  }

  /** A fallback save is invisible once `storage.sync` works again: with nothing there, the user reads as signed out. */
  lemma {:induction false} FallbackSaveLost(record: AuthRecord, atSave: Availability, atLoad: Availability)
    requires !atSave.sync && atSave.local && atLoad.sync
    ensures Loaded(Saved(Areas(None, None), record, atSave), atLoad) == Credentials(None, None)
    ensures !Truthy(Loaded(Saved(Areas(None, None), record, atSave), atLoad).token)
  {
    ReadBackFromLocal(Areas(None, None), record, atSave, atLoad);
  }

  /** After a logout that reached both areas nothing can be read back, whichever area works. */
  lemma {:induction false} ClearedReadsEmpty(areas: Areas, atClear: Availability, atLoad: Availability)
    requires atClear.sync && atClear.local
    ensures Loaded(Cleared(areas, atClear), atLoad) == Credentials(None, None)
  {
    var c := Cleared(areas, atClear);
    assert c.sync == None && c.local == None;
  }

  /** A logout whose `storage.sync` removal failed still reads back the old credentials from there. */
  lemma {:induction false} FailedSyncRemovalKeepsCredentials(areas: Areas, atClear: Availability, atLoad: Availability)
    requires !atClear.sync && atLoad.sync
    ensures Loaded(Cleared(areas, atClear), atLoad) == View(areas.sync)
  {
  }

  /** A failed save (both areas throw) changes nothing and is reported to the caller. */
  lemma FailedSaveChangesNothing(areas: Areas, record: AuthRecord, up: Availability)
    requires !up.sync && !up.local
    ensures Saved(areas, record, up) == areas
  {
  }

  /** The `storage.sync` and `storage.local` areas as the shared extension uses them. */
  class BrowserStorage {
    var sync: Option<AuthRecord>
    var local: Option<AuthRecord>

    function Contents(): Areas
      reads this
    {
      Areas(sync, local)
    }

    constructor(initial: Areas)
      ensures Contents() == initial
    {
      sync := initial.sync;
      local := initial.local;
    }

    /** `saveAuth(token, userInfo)`: `saved` is false when it rethrows. */
    method SaveAuth(token: string, info: UserInfo, up: Availability) returns (saved: bool)
      modifies this
      ensures Contents() == Saved(old(Contents()), Record(token, info), up)
      ensures saved <==> up.sync || up.local
    {
      var record := AuthRecord(token, info.login, info);
      if up.sync {
        sync := Some(record);
        return true;
      }
      if up.local {
        local := Some(record);
        return true;
      }
      return false;
    }

    /** `loadAuth()`. */
    method LoadAuth(up: Availability) returns (c: Credentials)
      ensures c == Loaded(Contents(), up)
    {
      var result: Option<AuthRecord> := None;
      if up.sync {
        result := sync;
      } else if up.local {
        result := local;
      }
      c := match result
           case None => Credentials(None, None)
           case Some(a) => Credentials(Some(a.token), a.username);
    }

    /** `clearAuth()`. */
    method ClearAuth(up: Availability)
      modifies this
      ensures Contents() == Cleared(old(Contents()), up)
    {
      if up.sync {
        sync := None;
      }
      if up.local {
        local := None;
      }
    }
  }
}
