/** The user-data provider: the component state `userData`, `loading` and
    `error`, the signed-in user, the database and the device cache it reads
    and writes, and the load effect that runs whenever the user changes. */
module UserDataContext {
  import opened Wrappers
  import opened Ledger

  /** An entry of the device cache under `userData_{uid}`: a stored ledger,
      or text that does not parse as one. */
  datatype CacheEntry = Snapshot(data: UserData) | Malformed

  class UserDataProvider {
    /** The signed-in user's uid, as the session provider last reported it. */
    var currentUser: Option<string>
    var userData: Option<UserData>
    var loading: bool
    var error: Option<string>
    /** The database: the record under `users/{uid}`. */
    var remote: map<string, UserData>
    /** The device cache: the entry under `userData_{uid}`. */
    var cache: map<string, CacheEntry>
    /** The run of the load effect whose `isMounted` flag is still true;
        every later run and the unmount clean it up. */
    var effectRun: nat
    /** The load runs whose database read is still outstanding, each with
        the uid its closure captured. */
    ghost var pending: map<nat, string>

    /** Every outstanding read belongs to a run that has started, and the
        latest run, while its read is outstanding, is for the signed-in user. */
    ghost predicate Valid()
      reads this
    {
      (forall r :: r in pending ==> r <= effectRun) &&
      (effectRun in pending ==> currentUser == Some(pending[effectRun]))
    }

    /** The provider as first rendered, over the given database and cache. */
    constructor (remote0: map<string, UserData>, cache0: map<string, CacheEntry>)
      ensures currentUser == None && userData == None && loading && error == None
      ensures remote == remote0 && cache == cache0 && effectRun == 0
      ensures Valid() && pending == map[]
    {
      currentUser := None;
      userData := None;
      loading := true;
      error := None;
      remote := remote0;
      cache := cache0;
      effectRun := 0;
      pending := map[];
    }

    /** The `isMounted` flag of load-effect run `run`. */
    predicate IsMounted(run: nat)
      reads this
    {
      run == effectRun
    }

    /** A user is signed in and a ledger is shown: the guard the three
        operations pass before doing anything. */
    predicate Loaded()
      reads this
    {
      currentUser.Some? && userData.Some?
    }

    /** The shown ledger and message, while one is loaded. */
    function Shown(): View
      reads this
      requires userData.Some?
    {
      View(userData.value, error)
    }

    /** The shown ledger is the database's record of the signed-in user. */
    predicate InSync()
      reads this
    {
      Loaded() && currentUser.value in remote && remote[currentUser.value] == userData.value
    }

    /** The effect cleanup: the running load's `isMounted` becomes false. */
    method Unmount()
      requires Valid()
      modifies this
      ensures Valid() && pending == old(pending)
      ensures effectRun == old(effectRun) + 1
      ensures currentUser == old(currentUser) && userData == old(userData) && loading == old(loading)
      ensures error == old(error) && remote == old(remote) && cache == old(cache)
    {
      effectRun := effectRun + 1;
    }

    /** The session reports `user`: the previous load effect is cleaned up and
        a new one runs `fetchUserData` up to its first `await`. It returns the
        new run and whether a database read is now pending. */
    method RunEffect(user: Option<string>) returns (run: nat, awaiting: bool)
      requires Valid()
      modifies this
      ensures Valid()
      ensures awaiting ==> user.Some?
      ensures pending == if awaiting then old(pending)[run := user.value] else old(pending)
      ensures effectRun == old(effectRun) + 1 && run == effectRun && IsMounted(run)
      ensures currentUser == user && remote == old(remote) && cache == old(cache)
      // no user: the ledger is cleared and loading ends
      ensures user.None? ==>
        userData == None && !loading && error == old(error) && !awaiting
      // nothing cached: the previous ledger stays shown while the read is pending
      ensures user.Some? && user.value !in cache ==>
        userData == old(userData) && loading && error == old(error) && awaiting
      // a cached ledger is shown at once, provisionally
      ensures user.Some? && user.value in cache && cache[user.value].Snapshot? ==>
        userData == Some(cache[user.value].data) && loading && error == old(error) && awaiting
      // a cache entry that does not parse ends the load with an error
      ensures user.Some? && user.value in cache && cache[user.value].Malformed? ==>
        userData == old(userData) && !loading && error == Some(LoadFailed) && !awaiting
    {
      effectRun := effectRun + 1;
      run := effectRun;
      currentUser := user;
      if user.None? {
        userData := None;
        loading := false;
        awaiting := false;
        return;
      }
      loading := true;
      var uid := user.value;
      if uid in cache {
        match cache[uid]
        case Snapshot(d) =>
          userData := Some(d);
        case Malformed =>
          error := Some(LoadFailed);
          loading := false;
          awaiting := false;
          return;
      }
      awaiting := true;
      pending := pending[run := uid];
    }

    /** The rest of `fetchUserData` for run `run`, whose read of
        `users/{uid}` is outstanding, once that read resolves (`readOk`) or
        fails, and, when there is no record, once its write of the default
        record resolves (`writeOk`) or fails. Component state changes only while the run is mounted; the
        cache and the database are written either way. */
    method ResumeFetch(run: nat, uid: string, readOk: bool, writeOk: bool)
      requires Valid() && run in pending && pending[run] == uid
      modifies this
      ensures Valid() && pending == old(pending) - {run}
      ensures currentUser == old(currentUser) && effectRun == old(effectRun)
      // a stale run leaves the component state alone
      ensures !IsMounted(run) ==>
        userData == old(userData) && loading == old(loading) && error == old(error)
      ensures IsMounted(run) ==> !loading
      // the read fails: the shown ledger (cached or previous) stays, with an error
      ensures !readOk ==>
        remote == old(remote) && cache == old(cache) && userData == old(userData) &&
        error == (if IsMounted(run) then Some(LoadFailed) else old(error))
      // a record exists: it is adopted and cached, the database is untouched
      ensures readOk && uid in old(remote) ==>
        remote == old(remote) && cache == old(cache)[uid := Snapshot(remote[uid])] &&
        error == old(error) &&
        userData == (if IsMounted(run) then Some(remote[uid]) else old(userData))
      // no record and the default is written: it is stored, adopted and cached
      ensures readOk && uid !in old(remote) && writeOk ==>
        remote == old(remote)[uid := DefaultUserData] &&
        cache == old(cache)[uid := Snapshot(DefaultUserData)] &&
        error == old(error) &&
        userData == (if IsMounted(run) then Some(DefaultUserData) else old(userData))
      // no record and the write fails: nothing is stored, the error is set
      ensures readOk && uid !in old(remote) && !writeOk ==>
        remote == old(remote) && cache == old(cache) && userData == old(userData) &&
        error == (if IsMounted(run) then Some(LoadFailed) else old(error))
      // a mounted load that completes leaves the shown ledger equal to the stored one
      ensures IsMounted(run) && readOk && (uid in old(remote) || writeOk) ==>
        InSync() && cache[uid] == Snapshot(userData.value)
    {
      var mounted := IsMounted(run);
      if !readOk {
        if mounted { error := Some(LoadFailed); }
      } else if uid in remote {
        var freshData := remote[uid];
        if mounted { userData := Some(freshData); }
        cache := cache[uid := Snapshot(freshData)];
      } else if writeOk {
        remote := remote[uid := DefaultUserData];
        if mounted { userData := Some(DefaultUserData); }
        cache := cache[uid := Snapshot(DefaultUserData)];
      } else {
        if mounted { error := Some(LoadFailed); }
      }
      if mounted { loading := false; }
      pending := pending - {run};
    }

    /** `addPoints(amount)`: the new balance and the `sentAt` timestamp are
        written to the database; once that resolves, the local ledger gains
        `amount` and takes the `appliedAt` timestamp. */
    method AddPoints(amount: int, sentAt: int, appliedAt: int, writeOk: bool)
      requires Valid()
      modifies this
      ensures Valid() && pending == old(pending)
      ensures currentUser == old(currentUser) && loading == old(loading)
      ensures cache == old(cache) && effectRun == old(effectRun)
      // no user or no ledger: nothing happens
      ensures !old(Loaded()) ==>
        userData == old(userData) && error == old(error) && remote == old(remote)
      ensures old(Loaded()) && writeOk ==>
        var uid, d := currentUser.value, old(userData).value;
        remote == old(remote)[uid := Stored(old(remote), uid).(points := d.points + amount, lastCaptchaTime := Some(sentAt))] &&
        userData == Some(d.(points := d.points + amount, lastCaptchaTime := Some(appliedAt))) &&
        error == old(error)
      ensures old(Loaded()) && !writeOk ==>
        remote == old(remote) && userData == old(userData) && error == Some(AddFailed)
      // the same step as the pure model of a call
      ensures old(Loaded()) ==>
        Loaded() && Shown() == Call(old(Shown()), Op.AddPoints(amount, sentAt, appliedAt), writeOk) &&
        remote == Written(old(remote), currentUser.value, old(userData).value, Op.AddPoints(amount, sentAt, appliedAt), writeOk)
      ensures old(InSync()) && sentAt == appliedAt ==> InSync()
    {
      if currentUser.None? || userData.None? { return; }
      var uid, d := currentUser.value, userData.value;
      var updates := Patch(Some(d.points + amount), None, Some(Some(sentAt)));
      if !writeOk {
        error := Some(AddFailed);
        return;
      }
      remote := remote[uid := Merge(Stored(remote, uid), updates)];
      userData := Some(d.(points := d.points + amount, lastCaptchaTime := Some(appliedAt)));
    }

    /** `incrementCaptchasSolved()`: the counter plus one is written to the
        database; once that resolves, the local counter goes up by one. */
    method IncrementCaptchasSolved(writeOk: bool)
      requires Valid()
      modifies this
      ensures Valid() && pending == old(pending)
      ensures currentUser == old(currentUser) && loading == old(loading)
      ensures cache == old(cache) && effectRun == old(effectRun)
      ensures !old(Loaded()) ==>
        userData == old(userData) && error == old(error) && remote == old(remote)
      ensures old(Loaded()) && writeOk ==>
        var uid, d := currentUser.value, old(userData).value;
        remote == old(remote)[uid := Stored(old(remote), uid).(captchasSolved := d.captchasSolved + 1)] &&
        userData == Some(d.(captchasSolved := d.captchasSolved + 1)) &&
        error == old(error)
      ensures old(Loaded()) && !writeOk ==>
        remote == old(remote) && userData == old(userData) && error == Some(UpdateStatsFailed)
      ensures old(Loaded()) ==>
        Loaded() && Shown() == Call(old(Shown()), Op.IncrementCaptchasSolved, writeOk) &&
        remote == Written(old(remote), currentUser.value, old(userData).value, Op.IncrementCaptchasSolved, writeOk)
      ensures old(InSync()) ==> InSync()
    {
      if currentUser.None? || userData.None? { return; }
      var uid, d := currentUser.value, userData.value;
      var updates := Patch(None, Some(d.captchasSolved + 1), None);
      if !writeOk {
        error := Some(UpdateStatsFailed);
        return;
      }
      remote := remote[uid := Merge(Stored(remote, uid), updates)];
      userData := Some(d.(captchasSolved := d.captchasSolved + 1));
    }

    /** `withdrawPoints(amount)`: a withdrawal above the balance is turned
        away with "Insufficient points" and no write; otherwise the reduced
        balance is written and, once that resolves, taken locally. */
    method WithdrawPoints(amount: int, writeOk: bool)
      requires Valid()
      modifies this
      ensures Valid() && pending == old(pending)
      ensures currentUser == old(currentUser) && loading == old(loading)
      ensures cache == old(cache) && effectRun == old(effectRun)
      ensures !old(Loaded()) ==>
        userData == old(userData) && error == old(error) && remote == old(remote)
      ensures old(Loaded()) && old(userData).value.points < amount ==>
        remote == old(remote) && userData == old(userData) && error == Some(InsufficientPoints)
      ensures old(Loaded()) && amount <= old(userData).value.points && writeOk ==>
        var uid, d := currentUser.value, old(userData).value;
        remote == old(remote)[uid := Stored(old(remote), uid).(points := d.points - amount)] &&
        userData == Some(d.(points := d.points - amount)) &&
        userData.value.points >= 0 &&
        error == old(error)
      ensures old(Loaded()) && amount <= old(userData).value.points && !writeOk ==>
        remote == old(remote) && userData == old(userData) && error == Some(WithdrawFailed)
      ensures old(Loaded()) ==>
        Loaded() && Shown() == Call(old(Shown()), Op.WithdrawPoints(amount), writeOk) &&
        remote == Written(old(remote), currentUser.value, old(userData).value, Op.WithdrawPoints(amount), writeOk)
      ensures old(InSync()) ==> InSync()
    {
      if currentUser.None? || userData.None? { return; }
      var uid, d := currentUser.value, userData.value;
      if d.points < amount {
        error := Some(InsufficientPoints);
        return;
      }
      var updates := Patch(Some(d.points - amount), None, None);
      if !writeOk {
        error := Some(WithdrawFailed);
        return;
      }
      remote := remote[uid := Merge(Stored(remote, uid), updates)];
      userData := Some(d.(points := d.points - amount));
    }
  }
}
