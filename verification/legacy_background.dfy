/**
 * The background poller of leetcode-sync/background.js. It differs from the
 * shared one in what happens after a token arrives: the repository is
 * `leetcode-sync`, the credentials go to `storage.sync` only, and a failing
 * write throws into the poll's `catch`, which stops polling without telling
 * the popup. There is no toolbar icon logic in this variant.
 */
module LegacyBackground {
  import opened Common
  import opened Auth
  import opened LegacyAuth
  import opened Background
  import Push

  const LegacyBackgroundDescription: string := "LeetCode solutions automatically synced from DotPush extension"

  /** One run of `poll`, with `storage.sync` as the only area. */
  function LegacyPollOnce(p: Poller, area: Option<AuthRecord>, round: PollRound): (r: (Poller, Option<AuthRecord>))
    ensures p.notices <= r.0.notices && |r.0.notices| <= |p.notices| + 1
    ensures |r.0.notices| > |p.notices| ==> !r.0.polling && r.0.timer.None?
    ensures r.0.polling <==> p.polling && ClassifyPoll(round.token, p.interval).Wait?
    ensures r.1 != area ==> |r.0.notices| > |p.notices|
  {
    if !p.polling then (p, area)
    else
      match ClassifyPoll(round.token, p.interval)
      case Wait(delay) => (p.(timer := Some(delay)), area)
      case Denied(_) => (Stopped(p), area)
      case Granted(token) =>
        if !UserFetched(round.user) then (Stopped(p), area)
        else
          var info := round.user.body.info;
          var repo := EnsureRepository(Push.LegacyRepository, LegacyBackgroundDescription, round.lookup, round.create);
          var afterRepo := p.(created := p.created + Requested(repo));
          if round.storage.sync then
            (Stopped(afterRepo.(notices := afterRepo.notices + [AuthComplete(token, info)])), Some(Record(token, info)))
          else (Stopped(afterRepo), area)
  }

  function LegacyRun(p: Poller, area: Option<AuthRecord>, rounds: seq<PollRound>): (Poller, Option<AuthRecord>)
    decreases |rounds|
  {
    if rounds == [] then (p, area)
    else
      var (q, b) := LegacyPollOnce(p, area, rounds[0]);
      LegacyRun(q, b, rounds[1..])
  }

  /** Every run of `poll` keeps a stopped poller free of timers. */
  lemma {:induction false} LegacyPollKeepsConsistent(p: Poller, area: Option<AuthRecord>, round: PollRound)
    requires Consistent(p)
    ensures Consistent(LegacyPollOnce(p, area, round).0)
  {
  }

  /**
   * Here a notification always comes with saved credentials: whenever the
   * popup is told, `loadAuth` then reads back the token just granted.
   */
  lemma {:induction false} NoticeMeansSaved(p: Poller, area: Option<AuthRecord>, round: PollRound)
    ensures var (q, b) := LegacyPollOnce(p, area, round);
      |q.notices| > |p.notices| ==>
        && round.token.TokenReplied? && Truthy(round.token.accessToken) && UserFetched(round.user)
        && q.notices == p.notices + [AuthComplete(round.token.accessToken.value, round.user.body.info)]
        && SyncLoaded(b, true) == Some(Credentials(Some(round.token.accessToken.value), round.user.body.info.login))
  {
  }

  /** A failing `storage.sync` write stops polling silently, leaving the area as it was. */
  lemma {:induction false} FailedSaveIsSilent(p: Poller, area: Option<AuthRecord>, round: PollRound)
    requires p.polling && round.token.TokenReplied? && Truthy(round.token.accessToken) && UserFetched(round.user)
    requires !round.storage.sync
    ensures var (q, b) := LegacyPollOnce(p, area, round);
      !q.polling && q.notices == p.notices && b == area
  {
  }

  /** Once polling has stopped, no further run of `poll` changes anything. */
  lemma {:induction false} LegacyStoppedStaysStill(p: Poller, area: Option<AuthRecord>, rounds: seq<PollRound>)
    requires !p.polling
    ensures LegacyRun(p, area, rounds) == (p, area)
    decreases |rounds|
  {
    if rounds != [] {
      LegacyStoppedStaysStill(p, area, rounds[1..]);
    }
  }

  /** However many runs follow, the popup is told at most once and polling stops once it has been. */
  lemma {:induction false} LegacyNotifiesAtMostOnce(p: Poller, area: Option<AuthRecord>, rounds: seq<PollRound>)
    ensures var (q, _) := LegacyRun(p, area, rounds);
      && p.notices <= q.notices
      && |q.notices| <= |p.notices| + 1
      && (|q.notices| == |p.notices| + 1 ==> !q.polling)
    decreases |rounds|
  {
    if rounds != [] {
      var (q, b) := LegacyPollOnce(p, area, rounds[0]);
      if !p.polling {
        LegacyStoppedStaysStill(p, area, rounds);
      } else if |q.notices| == |p.notices| {
        assert q.notices == p.notices;
        LegacyNotifiesAtMostOnce(q, b, rounds[1..]);
      } else {
        assert !q.polling;
        LegacyStoppedStaysStill(q, b, rounds[1..]);
      }
    }
  }

  /** On the same answers, with `storage.sync` working, both pollers stop in the same way and notify the same. */
  lemma {:induction false} PollersAgreeWhileSyncWorks(p: Poller, areas: Areas, round: PollRound)
    requires round.storage.sync
    ensures var (q, b) := PollOnce(p, areas, round);
      var (lq, lb) := LegacyPollOnce(p, areas.sync, round);
      q.polling == lq.polling && q.timer == lq.timer && q.notices == lq.notices && b.sync == lb
  {
  }

  class LegacyBackgroundAuth {
    var polling: bool
    var timer: Option<nat>
    var interval: nat
    var notices: seq<Notice>
    var created: seq<NewRepository>

    function State(): Poller
      reads this
    {
      Poller(polling, timer, interval, notices, created)
    }

    predicate Valid()
      reads this
    {
      Consistent(State())
    }

    constructor()
      ensures State() == Poller(false, None, 5, [], [])
      ensures Valid()
    {
      polling := false;
      timer := None;
      interval := 5;
      notices := [];
      created := [];
    }

    /** `stopPolling()`. */
    method StopPolling()
      modifies this
      ensures State() == Stopped(old(State()))
      ensures Valid()
    {
      polling := false;
      if timer.Some? {
        timer := None;
      }
    }

    /** One run of the `poll` closure. */
    method Poll(round: PollRound, storage: SyncStorage)
      requires Valid()
      modifies this, storage
      ensures (State(), storage.sync) == LegacyPollOnce(old(State()), old(storage.sync), round)
      ensures Valid()
    {
      if !polling {
        return;
      }
      var step := ClassifyPoll(round.token, interval);
      match step {
        case Wait(delay) =>
          timer := Some(delay);
        case Denied(_) =>
          StopPolling();
        case Granted(token) =>
          if UserFetched(round.user) {
            var info := round.user.body.info;
            var repo := EnsureRepository(Push.LegacyRepository, LegacyBackgroundDescription, round.lookup, round.create);
            if repo.createRequested.Some? {
              created := created + [repo.createRequested.value];
            }
            assert created == old(created) + Requested(repo);
            if round.storage.sync {
              storage.SaveAuth(token, info, true);
              notices := notices + [AuthComplete(token, info)];
            }
            assert token == round.token.accessToken.value;
          }
          StopPolling();
      }
    }

    /** `startPolling(deviceCode, clientId, interval)`, which polls once straight away. */
    method StartPolling(requestedInterval: Option<nat>, first: PollRound, storage: SyncStorage)
      requires Valid()
      modifies this, storage
      ensures (State(), storage.sync) == LegacyPollOnce(Started(old(State()), requestedInterval), old(storage.sync), first)
      ensures Valid()
    {
      if polling {
        StopPolling();
      }
      polling := true;
      timer := None;
      interval := requestedInterval.GetOr(5);
      assert State() == Started(old(State()), requestedInterval);
      Poll(first, storage);
    }
  }
}
