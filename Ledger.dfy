/** The per-user ledger of the user-data context and the pure parts of its
    three operations: the `updates` object each sends to the database, the
    `prev => ...` updater each applies afterwards, and what one call does to
    the ledger and error message the component shows. */
module Ledger {
  import opened Wrappers

  /** The record kept under `users/{uid}` in the database and under
      `userData_{uid}` in the device cache. JavaScript numbers are modelled
      as unbounded integers. */
  datatype UserData = UserData(points: int, captchasSolved: int, lastCaptchaTime: Option<int>)

  /** The record written for a user the database has no record for. */
  const DefaultUserData := UserData(0, 0, None)

  // The messages the component stores in `error`.
  const LoadFailed := "Failed to load user data"
  const AddFailed := "Failed to add points"
  const UpdateStatsFailed := "Failed to update stats"
  const WithdrawFailed := "Failed to withdraw points"
  const InsufficientPoints := "Insufficient points"

  /** One call of a ledger operation. `addPoints` reads the clock twice:
      `sentAt` is the timestamp that goes into the database update,
      `appliedAt` the one its local updater stores. */
  datatype Op =
    | AddPoints(amount: int, sentAt: int, appliedAt: int)
    | IncrementCaptchasSolved
    | WithdrawPoints(amount: int)

  /** A partial update of a database record: the fields that are `Some` are
      written, the others are kept. */
  datatype Patch = Patch(points: Option<int>, captchasSolved: Option<int>, lastCaptchaTime: Option<Option<int>>)

  /** The database's merge of a partial update into a record. */
  function Merge(d: UserData, p: Patch): UserData {
    UserData(p.points.GetOr(d.points),
             p.captchasSolved.GetOr(d.captchasSolved),
             p.lastCaptchaTime.GetOr(d.lastCaptchaTime))
  }

  /** The `updates` object a call computes from the ledger it sees, or `None`
      when the call is turned away before any write (a withdrawal above the
      balance). Each operation writes only the fields it owns. */
  function UpdatesFor(d: UserData, op: Op): (r: Option<Patch>)
    ensures r.None? <==> op.WithdrawPoints? && d.points < op.amount
    ensures r.Some? ==> (r.value.points.Some? <==> !op.IncrementCaptchasSolved?)
    ensures r.Some? ==> (r.value.captchasSolved.Some? <==> op.IncrementCaptchasSolved?)
    ensures r.Some? ==> (r.value.lastCaptchaTime.Some? <==> op.AddPoints?)
  {
    match op
    case AddPoints(amount, sentAt, _) =>
      Some(Patch(Some(d.points + amount), None, Some(Some(sentAt))))
    case IncrementCaptchasSolved =>
      Some(Patch(None, Some(d.captchasSolved + 1), None))
    case WithdrawPoints(amount) =>
      if d.points < amount then None
      else Some(Patch(Some(d.points - amount), None, None))
  }

  /** The `prev => ...` updater a call hands to `setUserData` once its
      database write has resolved. */
  function Updated(prev: UserData, op: Op): (r: UserData)
    ensures r.captchasSolved != prev.captchasSolved <==> op.IncrementCaptchasSolved?
    ensures op.IncrementCaptchasSolved? ==> r.captchasSolved == prev.captchasSolved + 1
    ensures r.points != prev.points ==> !op.IncrementCaptchasSolved?
    ensures op.AddPoints? ==> r.points - prev.points == op.amount
    ensures op.WithdrawPoints? ==> prev.points - r.points == op.amount
    ensures r.lastCaptchaTime != prev.lastCaptchaTime ==> op.AddPoints?
    ensures op.AddPoints? ==> r.lastCaptchaTime == Some(op.appliedAt)
  {
    match op
    case AddPoints(amount, _, appliedAt) =>
      prev.(points := prev.points + amount, lastCaptchaTime := Some(appliedAt))
    case IncrementCaptchasSolved =>
      prev.(captchasSolved := prev.captchasSolved + 1)
    case WithdrawPoints(amount) =>
      prev.(points := prev.points - amount)
  }

  /** The message a call stores when its database write fails. */
  function FailureMessage(op: Op): (r: string)
    ensures r != InsufficientPoints && r != LoadFailed
    ensures r == AddFailed <==> op.AddPoints?
    ensures r == UpdateStatsFailed <==> op.IncrementCaptchasSolved?
    ensures r == WithdrawFailed <==> op.WithdrawPoints?
  {
    match op
    case AddPoints(_, _, _) => AddFailed
    case IncrementCaptchasSolved => UpdateStatsFailed
    case WithdrawPoints(_) => WithdrawFailed
  }

  /** What the component shows while a ledger is loaded. */
  datatype View = View(data: UserData, error: Option<string>)

  /** One call on a loaded ledger, with `writeOk` telling whether the awaited
      database update resolved. The ledger changes only after a write that
      resolved; a rejected or failed call changes only the message. */
  function Call(v: View, op: Op, writeOk: bool): (r: View)
    // the ledger changes only through a write that was issued and resolved
    ensures r.data != v.data ==> writeOk && UpdatesFor(v.data, op).Some?
    ensures writeOk && UpdatesFor(v.data, op).Some? ==> r == View(Updated(v.data, op), v.error)
    // a turned-away withdrawal and a failed write only set their message
    ensures UpdatesFor(v.data, op).None? ==> r == View(v.data, Some(InsufficientPoints))
    ensures !writeOk && UpdatesFor(v.data, op).Some? ==> r == View(v.data, Some(FailureMessage(op)))
    // the message is never cleared
    ensures v.error.Some? ==> r.error.Some?
  {
    match UpdatesFor(v.data, op)
    case None => v.(error := Some(InsufficientPoints))
    case Some(_) =>
      if writeOk then v.(data := Updated(v.data, op))
      else v.(error := Some(FailureMessage(op)))
  }

  /** The database record a call's write lands on; an update of a user with
      no record is merged into the default record. */
  function Stored(remote: map<string, UserData>, uid: string): UserData {
    if uid in remote then remote[uid] else DefaultUserData
  }

  /** The database after a call by `uid` whose ledger is `d`. */
  function Written(remote: map<string, UserData>, uid: string, d: UserData, op: Op, writeOk: bool): map<string, UserData> {
    match UpdatesFor(d, op)
    case None => remote
    case Some(p) => if writeOk then remote[uid := Merge(Stored(remote, uid), p)] else remote
  }

  /** Local and remote agree after a call exactly when the call does not
      stamp two different clock readings: the database merge of a call's
      `updates` object gives what its updater gives. */
  lemma WriteMatchesUpdater(d: UserData, op: Op)
    requires UpdatesFor(d, op).Some?
    ensures Merge(d, UpdatesFor(d, op).value) == Updated(d, op)
        <==> !(op.AddPoints? && op.sentAt != op.appliedAt)
  {
    if op.AddPoints? && op.sentAt != op.appliedAt {
      assert Merge(d, UpdatesFor(d, op).value).lastCaptchaTime != Updated(d, op).lastCaptchaTime;
    }
  }

  /** A write never changes any user's record but the caller's. */
  lemma WrittenTouchesOnlyCaller(remote: map<string, UserData>, uid: string, d: UserData, op: Op, writeOk: bool, other: string)
    requires other != uid
    ensures other in Written(remote, uid, d, op, writeOk) <==> other in remote
    ensures other in remote ==> Written(remote, uid, d, op, writeOk)[other] == remote[other]
  {
  }

  /** A withdrawal that is let through never leaves a negative balance, and
      one that would is turned away with no write. */
  lemma WithdrawalNeverOverdraws(v: View, amount: int, writeOk: bool)
    ensures v.data.points >= 0 ==> Call(v, WithdrawPoints(amount), writeOk).data.points >= 0
    ensures writeOk && amount <= v.data.points ==>
      Call(v, WithdrawPoints(amount), writeOk) == v.(data := v.data.(points := v.data.points - amount))
    ensures v.data.points < amount ==>
      Call(v, WithdrawPoints(amount), writeOk) == View(v.data, Some(InsufficientPoints))
  {
  }
}
