/** Clients of the provider that drive it through whole sessions and state
    what the callers of the context see at the end. */
module Scenarios {
  import opened Wrappers
  import opened Ledger
  import opened UserDataContext

  /** A first sign-in of a user the database does not know, then
      `addPoints(50)`, `withdrawPoints(80)`, `withdrawPoints(30)` and three
      `incrementCaptchasSolved()`, every write resolving: the default record
      is created, the over-withdrawal is turned away, and the shown and
      stored ledgers end equal. */
  method NewUserSession(uid: string, now: int)
    returns (shown: Option<UserData>, message: Option<string>, stored: Option<UserData>, cached: Option<CacheEntry>)
    ensures shown == Some(UserData(20, 3, Some(now)))
    ensures message == Some(InsufficientPoints)
    ensures stored == shown
    ensures cached == Some(Snapshot(DefaultUserData))
  {
    var p := new UserDataProvider(map[], map[]);
    var run, awaiting := p.RunEffect(Some(uid));
    p.ResumeFetch(run, uid, true, true);
    assert p.userData == Some(DefaultUserData) && p.InSync();
    p.AddPoints(50, now, now, true);
    p.WithdrawPoints(80, true);
    assert p.userData == Some(UserData(50, 0, Some(now)));
    p.WithdrawPoints(30, true);
    p.IncrementCaptchasSolved(true);
    p.IncrementCaptchasSolved(true);
    p.IncrementCaptchasSolved(true);
    shown, message := p.userData, p.error;
    stored := if uid in p.remote then Some(p.remote[uid]) else None;
    cached := if uid in p.cache then Some(p.cache[uid]) else None;
  }

  /** The user switches from `a` to `b` while `a`'s read is pending, and
      `a`'s read resolves first: `a`'s record is never shown, though the
      stale run still caches it; `b`'s load then shows `b`'s record. */
  method SwitchUserMidLoad(a: string, b: string, ra: UserData, rb: UserData)
    returns (afterStale: Option<UserData>, afterFresh: Option<UserData>, cachedA: Option<CacheEntry>)
    requires a != b
    ensures afterStale == None
    ensures afterFresh == Some(rb)
    ensures cachedA == Some(Snapshot(ra))
  {
    var p := new UserDataProvider(map[a := ra, b := rb], map[]);
    var runA, _ := p.RunEffect(Some(a));
    var runB, _ := p.RunEffect(Some(b));
    p.ResumeFetch(runA, a, true, true);
    afterStale := p.userData;
    p.ResumeFetch(runB, b, true, true);
    afterFresh := p.userData;
    cachedA := if a in p.cache then Some(p.cache[a]) else None;
  }

  /** A signed-in user with a cached ledger whose read fails: the cached
      ledger stays shown with the load error, and loading ends. */
  method CachedThenReadFails(uid: string, c: UserData, r: UserData)
    returns (shown: Option<UserData>, message: Option<string>, stillLoading: bool)
    ensures shown == Some(c)
    ensures message == Some(LoadFailed)
    ensures !stillLoading
  {
    var p := new UserDataProvider(map[uid := r], map[uid := Snapshot(c)]);
    var run, _ := p.RunEffect(Some(uid));
    p.ResumeFetch(run, uid, false, true);
    shown, message, stillLoading := p.userData, p.error, p.loading;
  }
}
