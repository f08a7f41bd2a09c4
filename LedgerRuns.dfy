/** Sequences of ledger calls made one after another on a loaded ledger, and
    what such a run adds up to: the balance, the solved counter, the last
    point-earning time and the error message. */
module LedgerRuns {
  import opened Wrappers
  import opened Ledger

  /** One call together with whether its database write resolved. */
  datatype Attempt = Attempt(op: Op, writeOk: bool)

  /** The view after the calls, made in order. */
  function Replay(v: View, calls: seq<Attempt>): View
    decreases |calls|
  {
    if calls == [] then v
    else Replay(Call(v, calls[0].op, calls[0].writeOk), calls[1..])
  }

  /** Every call of the run writes and its write resolves: no failure and no
      withdrawal above the balance it sees. */
  predicate AllSucceed(v: View, calls: seq<Attempt>)
    decreases |calls|
  {
    calls == [] ||
    (calls[0].writeOk && UpdatesFor(v.data, calls[0].op).Some? &&
     AllSucceed(Call(v, calls[0].op, calls[0].writeOk), calls[1..]))
  }

  /** Points credited by the resolved `addPoints` calls. */
  function Credited(calls: seq<Attempt>): int
    decreases |calls|
  {
    if calls == [] then 0
    else (if calls[0].writeOk && calls[0].op.AddPoints? then calls[0].op.amount else 0)
         + Credited(calls[1..])
  }

  /** Points debited by the resolved `withdrawPoints` calls. */
  function Debited(calls: seq<Attempt>): int
    decreases |calls|
  {
    if calls == [] then 0
    else (if calls[0].writeOk && calls[0].op.WithdrawPoints? then calls[0].op.amount else 0)
         + Debited(calls[1..])
  }

  /** Number of resolved `incrementCaptchasSolved` calls. */
  function Solved(calls: seq<Attempt>): nat
    decreases |calls|
  {
    if calls == [] then 0
    else (if calls[0] == Attempt(IncrementCaptchasSolved, true) then 1 else 0) + Solved(calls[1..])
  }

  /** The local timestamp of the last resolved `addPoints` call, or `t` when
      there is none. */
  function LastEarned(t: Option<int>, calls: seq<Attempt>): Option<int>
    decreases |calls|
  {
    if calls == [] then t
    else LastEarned(if calls[0].writeOk && calls[0].op.AddPoints? then Some(calls[0].op.appliedAt) else t,
                    calls[1..])
  }

  /** Every `addPoints` amount in the run is non-negative. */
  predicate NoNegativeCredit(calls: seq<Attempt>) {
    forall i :: 0 <= i < |calls| && calls[i].op.AddPoints? ==> calls[i].op.amount >= 0
  }

  /** The calls whose write resolved, in order. */
  function Resolved(calls: seq<Attempt>): (r: seq<Attempt>)
    ensures |r| <= |calls|
    decreases |calls|
  {
    if calls == [] then []
    else (if calls[0].writeOk then [calls[0]] else []) + Resolved(calls[1..])
  }

  /** When every call of a run succeeds, the balance ends at the starting
      balance plus what was added minus what was withdrawn, and the error
      message is left as it was. */
  lemma {:induction false} SucceedingRunBalance(v: View, calls: seq<Attempt>)
    requires AllSucceed(v, calls)
    ensures Replay(v, calls).data.points == v.data.points + Credited(calls) - Debited(calls)
    ensures Replay(v, calls).error == v.error
    decreases |calls|
  {
    if calls != [] {
      SucceedingRunBalance(Call(v, calls[0].op, calls[0].writeOk), calls[1..]);
    }
  }

  /** A non-negative balance stays non-negative through any run whose
      additions are non-negative, whatever fails or is turned away. */
  lemma {:induction false} RunKeepsBalanceNonNegative(v: View, calls: seq<Attempt>)
    requires v.data.points >= 0
    requires NoNegativeCredit(calls)
    ensures Replay(v, calls).data.points >= 0
    decreases |calls|
  {
    if calls != [] {
      var next := Call(v, calls[0].op, calls[0].writeOk);
      assert NoNegativeCredit(calls[1..]) by {
        forall i | 0 <= i < |calls[1..]| && calls[1..][i].op.AddPoints?
          ensures calls[1..][i].op.amount >= 0
        {
          assert calls[1..][i] == calls[i + 1];
        }
      }
      assert calls[0].op.AddPoints? ==> calls[0].op.amount >= 0;
      RunKeepsBalanceNonNegative(next, calls[1..]);
    }
  }

  /** The solved counter rises by exactly the number of resolved increments,
      so it never decreases. */
  lemma {:induction false} RunCountsSolved(v: View, calls: seq<Attempt>)
    ensures Replay(v, calls).data.captchasSolved == v.data.captchasSolved + Solved(calls)
    decreases |calls|
  {
    if calls != [] {
      RunCountsSolved(Call(v, calls[0].op, calls[0].writeOk), calls[1..]);
    }
  }

  /** The last point-earning time is set by resolved `addPoints` calls only:
      it ends at the local timestamp of the last of them, or as it was. */
  lemma {:induction false} RunLastCaptchaTime(v: View, calls: seq<Attempt>)
    ensures Replay(v, calls).data.lastCaptchaTime == LastEarned(v.data.lastCaptchaTime, calls)
    decreases |calls|
  {
    if calls != [] {
      RunLastCaptchaTime(Call(v, calls[0].op, calls[0].writeOk), calls[1..]);
    }
  }

  /** `n` resolved increments in a row add `n` to the counter and leave the
      balance and the last point-earning time alone. */
  lemma {:induction false} IncrementsAddN(v: View, n: nat)
    ensures Replay(v, seq(n, _ => Attempt(IncrementCaptchasSolved, true))).data
         == v.data.(captchasSolved := v.data.captchasSolved + n)
    decreases n
  {
    if n > 0 {
      var calls := seq(n, _ => Attempt(IncrementCaptchasSolved, true));
      assert calls[1..] == seq(n - 1, _ => Attempt(IncrementCaptchasSolved, true));
      IncrementsAddN(Call(v, IncrementCaptchasSolved, true), n - 1);
    }
  }

  /** Once an error message is set, no later call clears it. */
  lemma {:induction false} ErrorIsNeverCleared(v: View, calls: seq<Attempt>)
    requires v.error.Some?
    ensures Replay(v, calls).error.Some?
    decreases |calls|
  {
    if calls != [] {
      ErrorIsNeverCleared(Call(v, calls[0].op, calls[0].writeOk), calls[1..]);
    }
  }

  /** The ledger after a run does not depend on the message shown. */
  lemma {:induction false} LedgerIgnoresError(v: View, e: Option<string>, calls: seq<Attempt>)
    ensures Replay(v, calls).data == Replay(v.(error := e), calls).data
    decreases |calls|
  {
    if calls != [] {
      LedgerIgnoresError(Call(v, calls[0].op, calls[0].writeOk), Call(v.(error := e), calls[0].op, calls[0].writeOk).error, calls[1..]);
    }
  }

  /** A call whose write fails leaves no trace in the ledger: the run ends
      with the ledger of the same run with the failed calls left out. */
  lemma {:induction false} FailedWritesLeaveNoTrace(v: View, calls: seq<Attempt>)
    ensures Replay(v, calls).data == Replay(v, Resolved(calls)).data
    decreases |calls|
  {
    if calls != [] {
      var next := Call(v, calls[0].op, calls[0].writeOk);
      FailedWritesLeaveNoTrace(next, calls[1..]);
      if calls[0].writeOk {
        assert Resolved(calls) == [calls[0]] + Resolved(calls[1..]);
        assert ([calls[0]] + Resolved(calls[1..]))[1..] == Resolved(calls[1..]);
      } else {
        assert Resolved(calls) == Resolved(calls[1..]);
        LedgerIgnoresError(v, next.error, Resolved(calls[1..]));
      }
    }
  }
}
