/**
 * The background script of the shared extension: `BackgroundAuth`, which
 * keeps polling GitHub's token endpoint after the popup closes, and the
 * toolbar icon decision of `IconManager`.
 *
 * Each run of the `poll` closure is one atomic step whose network answers
 * and storage availability are given by a `PollRound`. The state the steps
 * change is the poller's (`polling`, the armed timer, the interval the
 * closure captured), the notifications sent to the popup, the repository
 * creation requests made, and the storage areas.
 */
module Background {
  import opened Common
  import opened Auth
  import Push

  /** The answers one run of `poll` receives: token endpoint, `/user`, the repository GET and POST, and storage. */
  datatype PollRound = PollRound(token: TokenReply, user: UserReply, lookup: Fetch, create: Fetch, storage: Availability)

  /** The `auth-complete` message sent to the popup. */
  datatype Notice = AuthComplete(token: string, user: UserInfo)

  /**
   * The poller's observable state: `polling`, the delay of the armed timer
   * (`pollInterval`, `None` for null), the interval captured by `poll`, and
   * what it has sent so far.
   */
  datatype Poller = Poller(polling: bool, timer: Option<nat>, interval: nat, notices: seq<Notice>, created: seq<NewRepository>)

  const BackgroundDescription: string := "Coding solutions automatically synced from dotpush extension - https://dotpush.ca/"

  /** A stopped poller never has a timer armed. */
  predicate Consistent(p: Poller) {
    !p.polling ==> p.timer.None?
  }

  /** `stopPolling()`. */
  function Stopped(p: Poller): Poller {
    p.(polling := false, timer := None)
  }

  /** `startPolling(deviceCode, clientId, interval = 5)` before its first poll: any previous polling is stopped. */
  function Started(p: Poller, interval: Option<nat>): Poller {
    p.(polling := true, timer := None, interval := interval.GetOr(5))
  }

  function Requested(check: RepositoryCheck): seq<NewRepository> {
    match check.createRequested
    case None => []
    case Some(request) => [request]
  }

  /**
   * One run of `poll`: nothing when polling has stopped; on a token, fetch
   * the user and, if that succeeds, make sure `code-sync` exists (ignoring
   * the outcome), save the credentials (ignoring a failure) and notify the
   * popup, then stop in any case; re-arm the timer on "pending" or "slow
   * down"; stop on anything else.
   */
  function PollOnce(p: Poller, areas: Areas, round: PollRound): (r: (Poller, Areas))
    ensures p.notices <= r.0.notices && |r.0.notices| <= |p.notices| + 1
    ensures |r.0.notices| > |p.notices| ==> !r.0.polling && r.0.timer.None?
    ensures r.0.polling <==> p.polling && ClassifyPoll(round.token, p.interval).Wait?
    ensures r.1 != areas ==> |r.0.notices| > |p.notices|
  {
    if !p.polling then (p, areas)
    else
      match ClassifyPoll(round.token, p.interval)
      case Wait(delay) => (p.(timer := Some(delay)), areas)
      case Denied(_) => (Stopped(p), areas)
      case Granted(token) =>
        if !UserFetched(round.user) then (Stopped(p), areas)
        else
          var info := round.user.body.info;
          var repo := EnsureRepository(Push.SharedRepository, BackgroundDescription, round.lookup, round.create);
          (Stopped(p.(notices := p.notices + [AuthComplete(token, info)], created := p.created + Requested(repo))),
           Saved(areas, Record(token, info), round.storage))
  }

  /** The runs of `poll` for a sequence of rounds (the first run and each timer that fires). */
  function Run(p: Poller, areas: Areas, rounds: seq<PollRound>): (Poller, Areas)
    decreases |rounds|
  {
    if rounds == [] then (p, areas)
    else
      var (q, b) := PollOnce(p, areas, rounds[0]);
      Run(q, b, rounds[1..])
  }

  // ---------------------------------------------------------------------------
  // Properties of the poller
  // ---------------------------------------------------------------------------

  /** Every run of `poll` keeps a stopped poller free of timers. */
  lemma {:induction false} PollKeepsConsistent(p: Poller, areas: Areas, round: PollRound)
    requires Consistent(p)
    ensures Consistent(PollOnce(p, areas, round).0)
  {
  }

  /** A "pending" or "slow down" answer keeps polling and arms the timer with the corresponding delay, changing nothing else. */
  lemma {:induction false} WaitRearms(p: Poller, areas: Areas, round: PollRound)
    requires p.polling && ClassifyPoll(round.token, p.interval).Wait?
    ensures PollOnce(p, areas, round) == (p.(timer := Some(ClassifyPoll(round.token, p.interval).delayMs)), areas)
  {
  }

  /**
   * A granted token with a known user: polling stops, the popup is told
   * exactly once, and the credentials land where `saveAuth` would put them,
   * so that they read back while `storage.sync` works.
   */
  lemma {:induction false} GrantSignsIn(p: Poller, areas: Areas, round: PollRound)
    requires p.polling && round.token.TokenReplied? && Truthy(round.token.accessToken) && UserFetched(round.user)
    ensures var (q, b) := PollOnce(p, areas, round);
      && !q.polling && q.timer.None?
      && q.notices == p.notices + [AuthComplete(round.token.accessToken.value, round.user.body.info)]
      && b == Saved(areas, Record(round.token.accessToken.value, round.user.body.info), round.storage)
      && (round.storage.sync ==> Loaded(b, round.storage) == View(Some(Record(round.token.accessToken.value, round.user.body.info))))
  {
    if round.storage.sync {
      ReadBackFromSync(areas, Record(round.token.accessToken.value, round.user.body.info), round.storage, round.storage);
    }
  }

  /** The popup is told the sign-in completed even when neither storage area took the credentials. */
  lemma {:induction false} NotifiesDespiteFailedSave(p: Poller, areas: Areas, round: PollRound)
    requires p.polling && round.token.TokenReplied? && Truthy(round.token.accessToken) && UserFetched(round.user)
    requires !round.storage.sync && !round.storage.local
    ensures var (q, b) := PollOnce(p, areas, round);
      |q.notices| == |p.notices| + 1 && b == areas
  {
  }

  /**
   * A granted token whose `/user` answer is 2xx but not JSON makes
   * `userResponse.json()` throw into the `catch`: polling stops, the popup
   * hears nothing and nothing is saved.
   */
  lemma {:induction false} UnreadableUserStops(p: Poller, areas: Areas, round: PollRound)
    requires p.polling && round.token.TokenReplied? && Truthy(round.token.accessToken)
    requires UserOk(round.user) && round.user.body.NotJson?
    ensures var (q, b) := PollOnce(p, areas, round);
      q == Stopped(p) && b == areas
  {
  }

  /** Once polling has stopped, no further run of `poll` changes anything. */
  lemma {:induction false} StoppedStaysStill(p: Poller, areas: Areas, rounds: seq<PollRound>)
    requires !p.polling
    ensures Run(p, areas, rounds) == (p, areas)
    decreases |rounds|
  {
    if rounds != [] {
      StoppedStaysStill(p, areas, rounds[1..]);
    }
  }

  /** However many runs follow, a poller notifies the popup at most once, and stops right after doing so. */
  lemma {:induction false} NotifiesAtMostOnce(p: Poller, areas: Areas, rounds: seq<PollRound>)
    ensures var (q, _) := Run(p, areas, rounds);
      && p.notices <= q.notices
      && |q.notices| <= |p.notices| + 1
      && (|q.notices| == |p.notices| + 1 ==> !q.polling)
    decreases |rounds|
  {
    if rounds != [] {
      var (q, b) := PollOnce(p, areas, rounds[0]);
      if !p.polling {
        StoppedStaysStill(p, areas, rounds);
      } else if |q.notices| == |p.notices| {
        assert q.notices == p.notices;
        NotifiesAtMostOnce(q, b, rounds[1..]);
      } else {
        assert !q.polling;
        StoppedStaysStill(q, b, rounds[1..]);
      }
    }
  }

  /** A run of answers that all ask to wait leaves the poller polling with the last delay armed. */
  lemma {:induction false} PendingKeepsPolling(p: Poller, areas: Areas, rounds: seq<PollRound>)
    requires p.polling
    requires forall k | 0 <= k < |rounds| :: ClassifyPoll(rounds[k].token, p.interval).Wait?
    ensures var (q, b) := Run(p, areas, rounds);
      q.polling && b == areas && q.notices == p.notices && q.interval == p.interval
      && (rounds != [] ==> q.timer == Some(ClassifyPoll(rounds[|rounds| - 1].token, p.interval).delayMs))
    decreases |rounds|
  {
    if rounds != [] {
      var (q, b) := PollOnce(p, areas, rounds[0]);
      assert q == p.(timer := Some(ClassifyPoll(rounds[0].token, p.interval).delayMs)) && b == areas;
      assert forall k | 0 <= k < |rounds[1..]| :: ClassifyPoll(rounds[1..][k].token, q.interval).Wait? by {
        assert forall k | 0 <= k < |rounds[1..]| :: rounds[1..][k] == rounds[k + 1];
      }
      PendingKeepsPolling(q, b, rounds[1..]);
      if |rounds| > 1 {
        assert rounds[1..][|rounds[1..]| - 1] == rounds[|rounds| - 1];
      }
    }
  }

  // ---------------------------------------------------------------------------
  // The poller object
  // ---------------------------------------------------------------------------

  class BackgroundAuth {
    var polling: bool
    var timer: Option<nat>
    var interval: nat
    var notices: seq<Notice>
    var created: seq<NewRepository>

    function State(): Poller
      reads this
    {
      Poller(polling, timer, interval, notices, created)
    }

    predicate Valid()
      reads this
    {
      Consistent(State())
    }

    constructor()
      ensures State() == Poller(false, None, 5, [], [])
      ensures Valid()
    {
      polling := false;
      timer := None;
      interval := 5;
      notices := [];
      created := [];
    }

    /** `stopPolling()`: clears the flag and any armed timer. */
    method StopPolling()
      modifies this
      ensures State() == Stopped(old(State()))
      ensures Valid()
    {
      polling := false;
      if timer.Some? {
        timer := None;
      }
    }

    /** One run of the `poll` closure. */
    method Poll(round: PollRound, storage: BrowserStorage)
      requires Valid()
      modifies this, storage
      ensures (State(), storage.Contents()) == PollOnce(old(State()), old(storage.Contents()), round)
      ensures Valid()
    {
      if !polling {
        return;
      }
      var step := ClassifyPoll(round.token, interval);
      match step {
        case Wait(delay) =>
          timer := Some(delay);
        case Denied(_) =>
          StopPolling();
        case Granted(token) =>
          if UserFetched(round.user) {
            var info := round.user.body.info;
            var repo := EnsureRepository(Push.SharedRepository, BackgroundDescription, round.lookup, round.create);
            if repo.createRequested.Some? {
              created := created + [repo.createRequested.value];
            }
            assert created == old(created) + Requested(repo);
            var _ := storage.SaveAuth(token, info, round.storage);
            notices := notices + [AuthComplete(token, info)];
            assert token == round.token.accessToken.value;
          }
          StopPolling();
      }
    }

    /** `startPolling(deviceCode, clientId, interval)`, which polls once straight away. */
    method StartPolling(requestedInterval: Option<nat>, first: PollRound, storage: BrowserStorage)
      requires Valid()
      modifies this, storage
      ensures (State(), storage.Contents()) == PollOnce(Started(old(State()), requestedInterval), old(storage.Contents()), first)
      ensures Valid()
    {
      if polling {
        StopPolling();
      }
      polling := true;
      timer := None;
      interval := requestedInterval.GetOr(5);
      assert State() == Started(old(State()), requestedInterval);
      assert storage.Contents() == old(storage.Contents());
      Poll(first, storage);
    }
  }

  // ---------------------------------------------------------------------------
  // Toolbar icon
  // ---------------------------------------------------------------------------

  /** The icon set and title `IconManager.updateIcon` gives a tab. */
  datatype Icon = Icon(active: bool, path: string, title: string)

  /** `updateIcon(tabId, url)`: the active icon exactly on pages whose URL mentions leetcode.com. */
  function IconFor(url: Option<string>): (icon: Icon)
    ensures icon.active <==> Truthy(url) && Contains(url.value, "leetcode.com")
    ensures icon.active ==> icon.path == "icons/icon-128.png" && icon.title == "dotpush - Ready to sync!"
    ensures !icon.active ==> icon.path == "icons/inactive-128.png" && icon.title == "dotpush - Navigate to LeetCode"
  {
    if Truthy(url) && Contains(url.value, "leetcode.com") then
      Icon(true, "icons/icon-128.png", "dotpush - Ready to sync!")
    else Icon(false, "icons/inactive-128.png", "dotpush - Navigate to LeetCode")
  }

  /** `includes` finds every prefix of a string it finds. */
  lemma {:induction false} ContainsLonger(s: string, part: string, longer: string)
    requires Contains(s, longer) && part <= longer
    ensures Contains(s, part)
    decreases |s|
  {
    if !(longer <= s) {
      ContainsLonger(s[1..], part, longer);
    }
  }

  /** Every page the popup finds a problem slug on gets the active icon. */
  lemma {:induction false} ProblemPagesAreActive(url: string)
    requires Push.SlugMatch(url).Some?
    ensures IconFor(Some(url)).active
    decreases |url|
  {
    if Push.ProblemsPath <= url && |url| > |Push.ProblemsPath| && url[|Push.ProblemsPath|] != '/' {
      assert "leetcode.com" <= Push.ProblemsPath;
      ContainsLonger(url, "leetcode.com", Push.ProblemsPath);
    } else {
      ProblemPagesAreActive(url[1..]);
      assert Contains(url[1..], "leetcode.com");
    }
  }
}
