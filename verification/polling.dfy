/** How the payer learns what became of a payment: one answer of the sidecar, and the loop
    that asks again until the time limit ends. */
module Polling {
  import opened Basics

  /** What came back for one `GET /x402/tx`. */
  datatype Http = Lost | Unread | Answered(status: int, body: Bytes)

  datatype TxAnswer = TxAnswer(found: bool, code: nat)

  /** `Accounts.TxStatus`: `Failed` stands for its error. */
  datatype Status = Failed | Told(found: bool, code: nat)

  function TxStatus(http: Http, read: Bytes -> Option<TxAnswer>): Status {
    if http.Answered? && http.status == 200 && read(http.body).Some? then
      Told(read(http.body).value.found, read(http.body).value.code)
    else
      Failed
  }

  /** One turn of the loop, as the world chooses it: the answer, how long it took, whether the
      context was cancelled by then or while the payer slept, and how much it overslept. */
  datatype Poll = Poll(status: Status, took: nat, cancelled: bool, woken: bool, late: nat)

  datatype Outcome = Unknown | Absent | InBlock(code: nat)

  /** `resolveWait` and `resolveInterval`. The loop ends because the interval is above 0. */
  datatype Timing = Timing(wait: nat, interval: nat)

  datatype Waited = Waited(outcome: Outcome, next: nat, end: nat)

  /** `waitForTx` from poll `k` on, at time `now` after it began; `seen` is its `outcome`. */
  function WaitFrom(t: Timing, polls: nat -> Poll, k: nat, now: nat, seen: Outcome): Waited
    requires t.interval > 0
    decreases if now < t.wait then t.wait - now else 0
  {
    var p := polls(k);
    var end := now + p.took;
    if p.status.Told? && p.status.found then Waited(InBlock(p.status.code), k + 1, end)
    else
      var outcome := if p.status.Told? then Absent else seen;
      if p.cancelled || end >= t.wait || p.woken then Waited(outcome, k + 1, end)
      else WaitFrom(t, polls, k + 1, end + t.interval + p.late, outcome)
  }

  function Wait(t: Timing, polls: nat -> Poll, k: nat): Waited
    requires t.interval > 0
  {
    WaitFrom(t, polls, k, 0, Unknown)
  }

  predicate Found(p: Poll) {
    p.status.Told? && p.status.found
  }

  predicate Denied(p: Poll) {
    p.status.Told? && !p.status.found
  }

  /** When poll `j` starts, if poll `k` starts at `now`. */
  function Start(t: Timing, polls: nat -> Poll, k: nat, now: nat, j: nat): nat
    requires k <= j
  {
    if j == k then now
    else Start(t, polls, k, now, j - 1) + polls(j - 1).took + t.interval + polls(j - 1).late
  }

  lemma {:induction false} StartShift(t: Timing, polls: nat -> Poll, k: nat, now: nat, j: nat)
    requires k < j
    ensures Start(t, polls, k, now, j)
         == Start(t, polls, k + 1, now + polls(k).took + t.interval + polls(k).late, j)
  {
    if j > k + 1 {
      StartShift(t, polls, k, now, j - 1);
    }
  }

  /** The polls before the last one found nothing, and left time and context to go on. */
  ghost predicate Continues(t: Timing, p: Poll, start: nat) {
    !Found(p) && !p.cancelled && !p.woken && start + p.took < t.wait
  }

  /** The same of poll `j`, if poll `k` starts at `now`. */
  ghost predicate RunsOn(t: Timing, polls: nat -> Poll, k: nat, now: nat, j: nat)
    requires k <= j
  {
    Continues(t, polls(j), Start(t, polls, k, now, j))
  }

  /** Why and when the loop stops: at the first find, or else when the time or the context ends. */
  lemma {:induction false} WaitStops(t: Timing, polls: nat -> Poll, k: nat, now: nat, seen: Outcome)
    requires t.interval > 0
    ensures k < WaitFrom(t, polls, k, now, seen).next
    ensures var r := WaitFrom(t, polls, k, now, seen); var last := polls(r.next - 1);
      && (forall j :: k <= j < r.next - 1 ==> RunsOn(t, polls, k, now, j))
      && r.end == Start(t, polls, k, now, r.next - 1) + last.took
      && (Found(last) || last.cancelled || last.woken || r.end >= t.wait)
    decreases if now < t.wait then t.wait - now else 0
  {
    var p := polls(k);
    if Continues(t, p, now) {
      var outcome := if p.status.Told? then Absent else seen;
      var now' := now + p.took + t.interval + p.late;
      var r := WaitFrom(t, polls, k, now, seen);
      assert r == WaitFrom(t, polls, k + 1, now', outcome);
      WaitStops(t, polls, k + 1, now', outcome);
      StartShift(t, polls, k, now, r.next - 1);
      forall j | k <= j < r.next - 1
        ensures RunsOn(t, polls, k, now, j)
      {
        if j > k {
          StartShift(t, polls, k, now, j);
          assert RunsOn(t, polls, k + 1, now', j);
        }
      }
    }
  }

  /** The loop reads no poll after the last one. */
  lemma {:induction false} WaitAgrees(t: Timing, a: nat -> Poll, b: nat -> Poll, k: nat, now: nat, seen: Outcome)
    requires t.interval > 0
    requires forall j :: k <= j < WaitFrom(t, a, k, now, seen).next ==> a(j) == b(j)
    ensures WaitFrom(t, b, k, now, seen) == WaitFrom(t, a, k, now, seen)
    decreases if now < t.wait then t.wait - now else 0
  {
    WaitStops(t, a, k, now, seen);
    var p := a(k);
    assert p == b(k);
    if Continues(t, p, now) {
      var outcome := if p.status.Told? then Absent else seen;
      WaitAgrees(t, a, b, k + 1, now + p.took + t.interval + p.late, outcome);
    }
  }

  lemma NoFindBefore(t: Timing, polls: nat -> Poll, k: nat, now: nat, seen: Outcome, j: nat)
    requires t.interval > 0 && k <= j < WaitFrom(t, polls, k, now, seen).next - 1
    ensures !Found(polls(j))
  {
    WaitStops(t, polls, k, now, seen);
    assert RunsOn(t, polls, k, now, j);
  }

  /** What the loop reports: a find, if the last poll is one; otherwise one denial, however
      early, is enough for `Absent`. */
  lemma {:induction false} WaitReports(t: Timing, polls: nat -> Poll, k: nat, now: nat, seen: Outcome)
    requires t.interval > 0 && !seen.InBlock?
    ensures k < WaitFrom(t, polls, k, now, seen).next
    ensures var r := WaitFrom(t, polls, k, now, seen); var last := polls(r.next - 1);
      && (r.outcome.InBlock? <==> Found(last))
      && (Found(last) ==> r.outcome.code == last.status.code)
      && (r.outcome.Absent? <==>
            !Found(last) && (seen.Absent? || exists j :: k <= j < r.next && Denied(polls(j))))
    decreases if now < t.wait then t.wait - now else 0
  {
    var p := polls(k);
    var r := WaitFrom(t, polls, k, now, seen);
    if Continues(t, p, now) {
      var outcome := if p.status.Told? then Absent else seen;
      var now' := now + p.took + t.interval + p.late;
      assert r == WaitFrom(t, polls, k + 1, now', outcome);
      WaitReports(t, polls, k + 1, now', outcome);
      if Denied(p) {
        assert outcome == Absent && Denied(polls(k)) && k < r.next;
      }
    } else {
      assert r.next == k + 1;
      if Denied(p) {
        assert Denied(polls(k));
      }
    }
  }

  /** The loop polls at least once, and at most `ceil(wait / interval) + 1` times. */
  lemma {:induction false} WaitIsBounded(t: Timing, polls: nat -> Poll, k: nat, now: nat, seen: Outcome)
    requires t.interval > 0
    ensures var n := WaitFrom(t, polls, k, now, seen).next - k;
      n == 1 || (n >= 2 && (n - 2) * t.interval < t.wait - now)
    decreases if now < t.wait then t.wait - now else 0
  {
    var p := polls(k);
    if Continues(t, p, now) {
      var outcome := if p.status.Told? then Absent else seen;
      var now' := now + p.took + t.interval + p.late;
      WaitIsBounded(t, polls, k + 1, now', outcome);
      var n := WaitFrom(t, polls, k + 1, now', outcome).next - (k + 1);
      assert (n - 1) * t.interval == (n - 2) * t.interval + t.interval;
    }
  }

  /** The defaults, in seconds: 12 and 2, hence 7 questions at most. */
  lemma DefaultsAskSevenTimesAtMost(polls: nat -> Poll, k: nat)
    ensures Wait(Timing(12, 2), polls, k).next - k <= 7
  {
    WaitIsBounded(Timing(12, 2), polls, k, 0, Unknown);
  }

  /** When the answer to poll `j` arrives, if poll `k` starts at 0. */
  function Received(t: Timing, polls: nat -> Poll, k: nat, j: nat): nat
    requires k <= j
  {
    Start(t, polls, k, 0, j) + polls(j).took
  }

  /** The polls fit a chain that takes the transaction at time `at`: whoever was told "not
      there" was told before that, by an answer that is less than `lag` older than its arrival. */
  ghost predicate Honest(t: Timing, polls: nat -> Poll, k: nat, next: nat, lag: nat, at: nat)
  {
    forall j :: k <= j < next && Denied(polls(j)) ==> Received(t, polls, k, j) < at + lag
  }

  /** Only the last answer of the loop can arrive when the time is over. */
  lemma LateAnswerIsLast(t: Timing, polls: nat -> Poll, k: nat, j: nat)
    requires t.interval > 0 && k <= j < Wait(t, polls, k).next
    ensures Received(t, polls, k, j) >= t.wait
       <==> j == Wait(t, polls, k).next - 1 && Wait(t, polls, k).end >= t.wait
  {
    WaitStops(t, polls, k, 0, Unknown);
    if j < Wait(t, polls, k).next - 1 {
      assert RunsOn(t, polls, k, 0, j);
    }
  }

  /** What an `Absent` is worth. Let the answers be at most `lag` old, and let the chain take a
      transaction in time for that, or never. Then the answers rule the transaction out exactly
      when the last question was answered and the loop went on to the end of the time. An
      `Absent` that rests on earlier denials only rules nothing out, and the loop reports it. */
  lemma AbsentIsFinal(t: Timing, polls: nat -> Poll, k: nat, lag: nat)
    requires t.interval > 0 && lag <= t.wait
    requires Wait(t, polls, k).outcome.Absent?
    ensures Wait(t, polls, k).next > k
    ensures var r := Wait(t, polls, k);
      (forall at: nat :: at + lag <= t.wait ==> !Honest(t, polls, k, r.next, lag, at))
      <==> polls(r.next - 1).status.Told? && r.end >= t.wait
  {
    WaitStops(t, polls, k, 0, Unknown);
    WaitReports(t, polls, k, 0, Unknown);
    var r := Wait(t, polls, k);
    var last := r.next - 1;
    if polls(last).status.Told? && r.end >= t.wait {
      assert Denied(polls(last)) && Received(t, polls, k, last) >= t.wait;
    } else {
      forall j | k <= j < r.next && Denied(polls(j))
        ensures Received(t, polls, k, j) < t.wait
      {
        LateAnswerIsLast(t, polls, k, j);
      }
      assert Honest(t, polls, k, r.next, lag, t.wait - lag);
    }
  }

  /** With a context that lives through the last turn, `Absent` keeps the promise of its comment
      exactly when the last question was answered. */
  lemma LiveAbsentIsFinal(t: Timing, polls: nat -> Poll, k: nat, lag: nat)
    requires t.interval > 0 && lag <= t.wait
    requires Wait(t, polls, k).outcome.Absent? && Wait(t, polls, k).next > k
    requires var last := polls(Wait(t, polls, k).next - 1); !last.cancelled && !last.woken
    ensures var r := Wait(t, polls, k);
      && ((forall at: nat :: at + lag <= t.wait ==> !Honest(t, polls, k, r.next, lag, at))
          <==> polls(r.next - 1).status.Told?)
      && ((exists j :: k <= j < r.next && Denied(polls(j)) && Received(t, polls, k, j) >= t.wait)
          <==> polls(r.next - 1).status.Told?)
  {
    WaitStops(t, polls, k, 0, Unknown);
    WaitReports(t, polls, k, 0, Unknown);
    AbsentIsFinal(t, polls, k, lag);
    var r := Wait(t, polls, k);
    if j :| k <= j < r.next && Denied(polls(j)) && Received(t, polls, k, j) >= t.wait {
      LateAnswerIsLast(t, polls, k, j);
    }
    if polls(r.next - 1).status.Told? {
      assert Denied(polls(r.next - 1)) && Received(t, polls, k, r.next - 1) >= t.wait;
    }
  }

  /** A stale answer: "not there" at the start, and no answer after it. */
  function StalePolls(j: nat): Poll {
    Poll(if j == 0 then Told(false, 0) else Failed, 0, false, false, 0)
  }

  /** With the default timing and a context that lives to the end, the loop reports `Absent`
      for a transaction that reached a block 1 second after the only answer. */
  lemma StaleAnswerIsReported()
    ensures Wait(Timing(12, 2), StalePolls, 0).outcome == Absent
    ensures Wait(Timing(12, 2), StalePolls, 0).end == 12
    ensures Honest(Timing(12, 2), StalePolls, 0, Wait(Timing(12, 2), StalePolls, 0).next, 0, 1)
  {
    var t := Timing(12, 2);
    assert WaitFrom(t, StalePolls, 6, 12, Absent) == Waited(Absent, 7, 12);
    assert WaitFrom(t, StalePolls, 4, 8, Absent) == WaitFrom(t, StalePolls, 5, 10, Absent);
    assert WaitFrom(t, StalePolls, 2, 4, Absent) == WaitFrom(t, StalePolls, 3, 6, Absent);
    assert Wait(t, StalePolls, 0) == WaitFrom(t, StalePolls, 1, 2, Absent);
  }

  /** Silence is never taken for an answer: `Unknown` means that every poll failed. */
  lemma {:induction false} SilenceIsUnknown(t: Timing, polls: nat -> Poll, k: nat)
    requires t.interval > 0
    ensures Wait(t, polls, k).outcome == Unknown
       <==> forall j :: k <= j < Wait(t, polls, k).next ==> polls(j).status.Failed?
  {
    WaitReports(t, polls, k, 0, Unknown);
    var r := Wait(t, polls, k);
    if r.outcome == Unknown {
      forall j | k <= j < r.next
        ensures polls(j).status.Failed?
      {
        if j < r.next - 1 {
          NoFindBefore(t, polls, k, 0, Unknown, j);
        }
        assert !Denied(polls(j));
      }
    } else if r.outcome.Absent? {
      var j :| k <= j < r.next && Denied(polls(j));
    }
  }

  /** Polls whose answers come from `GET /x402/tx`. */
  ghost predicate AnswersOf(polls: nat -> Poll, http: nat -> Http, read: Bytes -> Option<TxAnswer>) {
    forall j :: polls(j).status == TxStatus(http(j), read)
  }

  /** A sidecar with no such route, or one that never gives a readable 200, is silence. Any
      readable 200 ends it: then the payer decides. */
  lemma NoReadableAnswerIsUnknown(t: Timing, polls: nat -> Poll, http: nat -> Http,
                                  read: Bytes -> Option<TxAnswer>, k: nat)
    requires t.interval > 0 && AnswersOf(polls, http, read)
    ensures Wait(t, polls, k).outcome == Unknown
       <==> forall j :: k <= j < Wait(t, polls, k).next ==>
              !(http(j).Answered? && http(j).status == 200 && read(http(j).body).Some?)
  {
    SilenceIsUnknown(t, polls, k);
    forall j
      ensures polls(j).status.Failed? <==>
              !(http(j).Answered? && http(j).status == 200 && read(http(j).body).Some?)
    {
    }
  }

  /** A readable 200 that says what became of the transaction. */
  predicate Says(http: Http, read: Bytes -> Option<TxAnswer>, found: bool) {
    http.Answered? && http.status == 200 && read(http.body).Some? && read(http.body).value.found == found
  }

  /** What the answers decide. A transaction counts as in a block, with the code that the answer
      gives, exactly when the last answer is a readable 200 that says so; and as absent exactly
      when the last one is not, and some answer is a readable 200 that denies it. */
  lemma AnswersDecide(t: Timing, polls: nat -> Poll, http: nat -> Http,
                      read: Bytes -> Option<TxAnswer>, k: nat, code: nat)
    requires t.interval > 0 && AnswersOf(polls, http, read)
    ensures Wait(t, polls, k).next > k
    ensures var r := Wait(t, polls, k); var last := http(r.next - 1);
      && (r.outcome == InBlock(code) <==> Says(last, read, true) && read(last.body).value.code == code)
      && (r.outcome == Absent
          <==> !Says(last, read, true) && exists j :: k <= j < r.next && Says(http(j), read, false))
  {
    WaitStops(t, polls, k, 0, Unknown);
    WaitReports(t, polls, k, 0, Unknown);
    forall j
      ensures Found(polls(j)) <==> Says(http(j), read, true)
      ensures Found(polls(j)) ==> polls(j).status.code == read(http(j).body).value.code
      ensures Denied(polls(j)) <==> Says(http(j), read, false)
    {
    }
    var r := Wait(t, polls, k);
    if j :| k <= j < r.next && Denied(polls(j)) {
      assert Says(http(j), read, false);
    }
    if j :| k <= j < r.next && Says(http(j), read, false) {
      assert Denied(polls(j));
    }
  }
}
