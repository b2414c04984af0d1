/**
 * The credential storage of `GitHubAuth` in leetcode-sync/auth.js: only
 * `storage.sync`, through the callback interface, so a failing call never
 * throws; it leaves the area as it was and hands the callback no result.
 * The device flow, token polling, user lookup and token check of that file
 * are the ones in `Auth`, line for line.
 */
module LegacyAuth {
  import opened Common
  import opened Auth

  /** `saveAuth`: writes `storage.sync` when it works; resolves either way. */
  function SyncSaved(area: Option<AuthRecord>, record: AuthRecord, works: bool): Option<AuthRecord> {
    if works then Some(record) else area
  }

  /** `loadAuth`: the stored keys, or `undefined` (`None`) when the read fails. */
  function SyncLoaded(area: Option<AuthRecord>, works: bool): Option<Credentials> {
    if works then Some(View(area)) else None
  }

  /** `clearAuth`: removes the keys when `storage.sync` works. */
  function SyncCleared(area: Option<AuthRecord>, works: bool): Option<AuthRecord> {
    if works then None else area
  }

  /** What was saved is what is loaded, as long as `storage.sync` works at both times. */
  lemma {:induction false} SyncReadBack(area: Option<AuthRecord>, record: AuthRecord)
    ensures SyncLoaded(SyncSaved(area, record, true), true) == Some(View(Some(record)))
  {
  }

  /** A failed save goes unnoticed by the caller and leaves the previous credentials (or none) in place. */
  lemma {:induction false} FailedSaveUnnoticed(area: Option<AuthRecord>, record: AuthRecord)
    ensures SyncSaved(area, record, false) == area
    ensures SyncLoaded(SyncSaved(area, record, false), true) == Some(View(area))
  {
  }

  /** After a successful logout the credentials read as absent. */
  lemma {:induction false} SyncClearedReadsEmpty(area: Option<AuthRecord>)
    ensures SyncLoaded(SyncCleared(area, true), true) == Some(Credentials(None, None))
  {
  }

  /**
   * With `storage.sync` working throughout, the shared extension's storage
   * reads back exactly what this one does, whatever `storage.local` holds.
   */
  lemma {:induction false} AgreesWithSharedWhileSyncWorks(areas: Areas, record: AuthRecord, up: Availability)
    requires up.sync
    ensures Some(Loaded(Saved(areas, record, up), up)) == SyncLoaded(SyncSaved(areas.sync, record, true), true)
    ensures Some(Loaded(Cleared(areas, up), up)) == SyncLoaded(SyncCleared(areas.sync, true), true)
  {
  }

  /** The `storage.sync` area as the leetcode-sync extension uses it. */
  class SyncStorage {
    var sync: Option<AuthRecord>

    constructor(initial: Option<AuthRecord>)
      ensures sync == initial
    {
      sync := initial;
    }

    /** `saveAuth(token, userInfo)`. */
    method SaveAuth(token: string, info: UserInfo, works: bool)
      modifies this
      ensures sync == SyncSaved(old(sync), Record(token, info), works)
    {
      if works {
        sync := Some(AuthRecord(token, info.login, info));
      }
    }

    /** `loadAuth()`. */
    method LoadAuth(works: bool) returns (result: Option<Credentials>)
      ensures result == SyncLoaded(sync, works)
    {
      if !works {
        return None;
      }
      result := match sync
                case None => Some(Credentials(None, None))
                case Some(a) => Some(Credentials(Some(a.token), a.username));
    }

    /** `clearAuth()`. */
    method ClearAuth(works: bool)
      modifies this
      ensures sync == SyncCleared(old(sync), works)
    {
      if works {
        sync := None;
      }
    }
  }
}
