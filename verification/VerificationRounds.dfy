/**
 What the verification of a recovery decides, read off the list of its rounds
 (agent/supervisor.go:401-475): three healthy rounds in a row before the time is up.
 */
module VerificationRounds {
  import opened Domain
  import opened WorkflowSpec

  /** Round j is the last one before k that reported a restart count. */
  ghost predicate ReportedLast(rounds: seq<Round>, j: int, k: int)
    requires k <= |rounds|
  {
    0 <= j < k && rounds[j].restarts.Some? && forall i :: j < i < k ==> rounds[i].restarts.None?
  }

  /** The restart count of round k, when it has one, is no higher than the last one reported before it. */
  ghost predicate NotRisen(rounds: seq<Round>, previous: Option<int>, k: nat)
    requires k < |rounds|
  {
    rounds[k].restarts.Some? ==>
      && (forall j :: ReportedLast(rounds, j, k) ==> rounds[k].restarts.value <= rounds[j].restarts.value)
      && (previous.Some? && (forall j :: 0 <= j < k ==> rounds[j].restarts.None?) ==> rounds[k].restarts.value <= previous.value)
  }

  ghost predicate Healthy(rounds: seq<Round>, previous: Option<int>, k: nat)
    requires k < |rounds|
  {
    rounds[k].success && NotRisen(rounds, previous, k)
  }

  ghost predicate HealthyFrom(rounds: seq<Round>, previous: Option<int>, first: int, last: nat)
    requires last < |rounds|
  {
    0 <= first && forall i :: first <= i <= last ==> Healthy(rounds, previous, i)
  }

  /** Three healthy rounds in a row end at k, counting `carried` healthy ones from before the first. */
  ghost predicate ThreeInARow(rounds: seq<Round>, previous: Option<int>, carried: nat, k: nat)
    requires k < |rounds|
  {
    HealthyFrom(rounds, previous, k - 2, k) || (carried + k + 1 >= 3 && HealthyFrom(rounds, previous, 0, k))
  }

  ghost predicate OutOfTime(rounds: seq<Round>, k: nat)
    requires k < |rounds|
  {
    rounds[k].remaining <= 0
  }

  ghost predicate ResolvedInTime(rounds: seq<Round>, previous: Option<int>, carried: nat) {
    exists k :: 0 <= k < |rounds| && ThreeInARow(rounds, previous, carried, k) && forall j :: 0 <= j < k ==> !OutOfTime(rounds, j)
  }

  ghost predicate TimeRanOut(rounds: seq<Round>, previous: Option<int>, carried: nat) {
    exists k :: 0 <= k < |rounds| && OutOfTime(rounds, k) && forall j :: 0 <= j <= k ==> !ThreeInARow(rounds, previous, carried, j)
  }

  // ---------------------------------------------------------------- one round at a time

  function PreviousAfter(r: Round, previous: Option<int>): Option<int> {
    if r.restarts.Some? then r.restarts else previous
  }

  lemma ReportedLater(rounds: seq<Round>, j: int, k: int)
    requires 1 <= k <= |rounds| && 1 <= j
    ensures ReportedLast(rounds, j, k) <==> ReportedLast(rounds[1..], j - 1, k - 1)
  {
    var rest := rounds[1..];
    if ReportedLast(rounds, j, k) {
      forall i | j - 1 < i < k - 1
        ensures rest[i].restarts.None?
      {
        assert rounds[i + 1].restarts.None?;
      }
    }
    if ReportedLast(rest, j - 1, k - 1) {
      forall i | j < i < k
        ensures rounds[i].restarts.None?
      {
        assert rest[i - 1].restarts.None?;
      }
    }
  }

  lemma FirstReport(rounds: seq<Round>, k: int)
    requires 1 <= k <= |rounds|
    ensures ReportedLast(rounds, 0, k) <==>
              rounds[0].restarts.Some? && forall i :: 0 <= i < k - 1 ==> rounds[1..][i].restarts.None?
  {
    if forall i :: 0 <= i < k - 1 ==> rounds[1..][i].restarts.None? {
      forall i | 0 < i < k
        ensures rounds[i].restarts.None?
      {
        assert rounds[1..][i - 1].restarts.None?;
      }
    }
  }

  /** Leaving the first round out, its restart count becomes the previous one. */
  lemma HealthyLater(rounds: seq<Round>, previous: Option<int>, k: nat)
    requires 1 <= k < |rounds|
    ensures Healthy(rounds, previous, k) <==> Healthy(rounds[1..], PreviousAfter(rounds[0], previous), k - 1)
  {
    var rest, after := rounds[1..], PreviousAfter(rounds[0], previous);
    FirstReport(rounds, k);
    forall j | 1 <= j
      ensures ReportedLast(rounds, j, k) <==> ReportedLast(rest, j - 1, k - 1)
    {
      ReportedLater(rounds, j, k);
    }
    assert (forall j :: 0 <= j < k ==> rounds[j].restarts.None?) <==>
           rounds[0].restarts.None? && forall j :: 0 <= j < k - 1 ==> rest[j].restarts.None? by {
      assert forall j :: 0 <= j < k - 1 ==> rest[j] == rounds[j + 1];
      assert forall j :: 1 <= j < k ==> rounds[j] == rest[j - 1];
    }
    if NotRisen(rounds, previous, k) {
      forall j | ReportedLast(rest, j, k - 1)
        ensures rest[k - 1].restarts.Some? ==> rest[k - 1].restarts.value <= rest[j].restarts.value
      {
        assert ReportedLast(rounds, j + 1, k);
      }
    }
    if NotRisen(rest, after, k - 1) {
      forall j | ReportedLast(rounds, j, k)
        ensures rounds[k].restarts.Some? ==> rounds[k].restarts.value <= rounds[j].restarts.value
      {
        if j > 0 {
          assert ReportedLast(rest, j - 1, k - 1);
        }
      }
    }
  }

  lemma HealthyFromLater(rounds: seq<Round>, previous: Option<int>, first: int, last: nat)
    requires 1 <= first && 1 <= last < |rounds|
    ensures HealthyFrom(rounds, previous, first, last)
            <==> HealthyFrom(rounds[1..], PreviousAfter(rounds[0], previous), first - 1, last - 1)
  {
    hide Healthy;
    var rest, after := rounds[1..], PreviousAfter(rounds[0], previous);
    forall i | 1 <= i < |rounds|
      ensures Healthy(rounds, previous, i) <==> Healthy(rest, after, i - 1)
    {
      HealthyLater(rounds, previous, i);
    }
    if HealthyFrom(rest, after, first - 1, last - 1) {
      forall i | first <= i <= last
        ensures Healthy(rounds, previous, i)
      {
        assert Healthy(rest, after, i - 1);
      }
    }
    if HealthyFrom(rounds, previous, first, last) {
      forall i | first - 1 <= i <= last - 1
        ensures Healthy(rest, after, i)
      {
        assert Healthy(rounds, previous, i + 1);
      }
    }
  }

  lemma AllHealthy(rounds: seq<Round>, previous: Option<int>, last: nat)
    requires last < |rounds|
    ensures HealthyFrom(rounds, previous, 0, last) <==>
              Healthy(rounds, previous, 0) && (last > 0 ==> HealthyFrom(rounds, previous, 1, last))
  {
    hide Healthy;
  }

  function CountAfter(rounds: seq<Round>, previous: Option<int>, carried: nat): nat
    requires rounds != []
  {
    var r := rounds[0];
    if r.success && (r.restarts.None? || previous.None? || r.restarts.value <= previous.value) then carried + 1 else 0
  }

  lemma FirstIsHealthy(rounds: seq<Round>, previous: Option<int>, carried: nat)
    requires rounds != []
    ensures CountAfter(rounds, previous, carried) == if Healthy(rounds, previous, 0) then carried + 1 else 0
  {
  }

  /** Leaving the first round out, its result is carried in. */
  lemma RowLater(rounds: seq<Round>, previous: Option<int>, carried: nat, k: nat)
    requires 1 <= k < |rounds|
    ensures ThreeInARow(rounds, previous, carried, k) <==>
              ThreeInARow(rounds[1..], PreviousAfter(rounds[0], previous), CountAfter(rounds, previous, carried), k - 1)
  {
    var rest, after := rounds[1..], PreviousAfter(rounds[0], previous);
    hide Healthy;
    FirstIsHealthy(rounds, previous, carried);
    AllHealthy(rounds, previous, k);
    HealthyFromLater(rounds, previous, 1, k);
    if k >= 3 {
      HealthyFromLater(rounds, previous, k - 2, k);
    }
    assert k >= 3 && HealthyFrom(rest, after, 0, k - 1) ==> HealthyFrom(rest, after, k - 3, k - 1);
  }

  lemma RowAtFirst(rounds: seq<Round>, previous: Option<int>, carried: nat)
    requires rounds != []
    ensures ThreeInARow(rounds, previous, carried, 0) <==> CountAfter(rounds, previous, carried) >= 3
  {
    hide Healthy;
    FirstIsHealthy(rounds, previous, carried);
    AllHealthy(rounds, previous, 0);
  }

  /** A first round that decides nothing leaves the decision to the others. */
  lemma DecidedLater(rounds: seq<Round>, previous: Option<int>, carried: nat)
    requires rounds != [] && !ThreeInARow(rounds, previous, carried, 0) && !OutOfTime(rounds, 0)
    ensures var rest, after, count := rounds[1..], PreviousAfter(rounds[0], previous), CountAfter(rounds, previous, carried);
            && (ResolvedInTime(rounds, previous, carried) <==> ResolvedInTime(rest, after, count))
            && (TimeRanOut(rounds, previous, carried) <==> TimeRanOut(rest, after, count))
  {
    hide ThreeInARow;
    var rest, after, count := rounds[1..], PreviousAfter(rounds[0], previous), CountAfter(rounds, previous, carried);
    forall k | 1 <= k < |rounds|
      ensures ThreeInARow(rounds, previous, carried, k) <==> ThreeInARow(rest, after, count, k - 1)
      ensures OutOfTime(rounds, k) <==> OutOfTime(rest, k - 1)
    {
      RowLater(rounds, previous, carried, k);
    }
    hide OutOfTime;
    if ResolvedInTime(rounds, previous, carried) {
      var k :| 0 <= k < |rounds| && ThreeInARow(rounds, previous, carried, k) && forall j :: 0 <= j < k ==> !OutOfTime(rounds, j);
      assert forall j :: 0 <= j < k - 1 ==> OutOfTime(rest, j) == OutOfTime(rounds, j + 1);
      assert ThreeInARow(rest, after, count, k - 1);
    }
    if ResolvedInTime(rest, after, count) {
      var k :| 0 <= k < |rest| && ThreeInARow(rest, after, count, k) && forall j :: 0 <= j < k ==> !OutOfTime(rest, j);
      assert forall j :: 1 <= j < k + 1 ==> OutOfTime(rounds, j) == OutOfTime(rest, j - 1);
      assert ThreeInARow(rounds, previous, carried, k + 1);
    }
    if TimeRanOut(rounds, previous, carried) {
      var k :| 0 <= k < |rounds| && OutOfTime(rounds, k) && forall j :: 0 <= j <= k ==> !ThreeInARow(rounds, previous, carried, j);
      assert forall j :: 0 <= j <= k - 1 ==> ThreeInARow(rest, after, count, j) == ThreeInARow(rounds, previous, carried, j + 1);
      assert OutOfTime(rest, k - 1);
    }
    if TimeRanOut(rest, after, count) {
      var k :| 0 <= k < |rest| && OutOfTime(rest, k) && forall j :: 0 <= j <= k ==> !ThreeInARow(rest, after, count, j);
      assert forall j :: 1 <= j <= k + 1 ==> ThreeInARow(rounds, previous, carried, j) == ThreeInARow(rest, after, count, j - 1);
      assert OutOfTime(rounds, k + 1);
    }
  }

  // ---------------------------------------------------------------- the verdict

  lemma NothingDecided(previous: Option<int>, carried: nat)
    ensures !ResolvedInTime([], previous, carried) && !TimeRanOut([], previous, carried)
  {
  }

  lemma DecidedAtFirst(rounds: seq<Round>, previous: Option<int>, carried: nat)
    requires rounds != []
    ensures ThreeInARow(rounds, previous, carried, 0) ==>
              ResolvedInTime(rounds, previous, carried) && !TimeRanOut(rounds, previous, carried)
    ensures !ThreeInARow(rounds, previous, carried, 0) && OutOfTime(rounds, 0) ==>
              TimeRanOut(rounds, previous, carried) && !ResolvedInTime(rounds, previous, carried)
  {
    hide ThreeInARow;
  }

  /**
   The verdict in closed form, whatever count is carried in: resolved exactly when three healthy
   rounds in a row end at some round before which no round ran out of time, failed exactly when
   a round runs out of time with no such row ending at or before it, and cancelled otherwise.
   Every round that was looked at counts as an attempt.
   */
  lemma {:induction false} VerdictIff(rounds: seq<Round>, previous: Option<int>, count: VerificationCount)
    ensures var (verdict, after) := Verify(rounds, previous, count);
            && (verdict == VerdictResolved <==> ResolvedInTime(rounds, previous, count.consecutive))
            && (verdict == VerdictFailed <==> TimeRanOut(rounds, previous, count.consecutive))
            && count.attempts <= after.attempts <= count.attempts + |rounds|
            && (verdict == VerdictCancelled ==> after.attempts == count.attempts + |rounds|)
  {
    if rounds == [] {
      NothingDecided(previous, count.consecutive);
    } else {
      hide ThreeInARow, OutOfTime, ResolvedInTime, TimeRanOut;
      var r := rounds[0];
      RowAtFirst(rounds, previous, count.consecutive);
      DecidedAtFirst(rounds, previous, count.consecutive);
      FirstRunsOut(rounds);
      if CountAfter(rounds, previous, count.consecutive) < 3 && r.remaining > 0 {
        DecidedLater(rounds, previous, count.consecutive);
        VerdictIff(rounds[1..], PreviousAfter(r, previous),
                   VerificationCount(CountAfter(rounds, previous, count.consecutive), count.attempts + 1));
      }
    }
  }

  lemma FirstRunsOut(rounds: seq<Round>)
    requires rounds != []
    ensures OutOfTime(rounds, 0) <==> rounds[0].remaining <= 0
  {
  }

  /** Rounds k-2, k-1 and k succeeded, and at none of them the restart count had risen. */
  ghost predicate HealthyTriple(rounds: seq<Round>, k: int) {
    2 <= k < |rounds| && Healthy(rounds, None, k - 2) && Healthy(rounds, None, k - 1) && Healthy(rounds, None, k)
  }

  lemma RowFromZero(rounds: seq<Round>, k: nat)
    requires k < |rounds|
    ensures ThreeInARow(rounds, None, 0, k) <==> HealthyTriple(rounds, k)
  {
    hide Healthy;
    assert HealthyFrom(rounds, None, k - 2, k) <==> HealthyTriple(rounds, k);
    assert k >= 2 && HealthyFrom(rounds, None, 0, k) ==> HealthyTriple(rounds, k);
  }

  lemma ResolvedFromZero(rounds: seq<Round>)
    ensures ResolvedInTime(rounds, None, 0)
            <==> exists k :: HealthyTriple(rounds, k) && forall j :: 0 <= j < k ==> rounds[j].remaining > 0
  {
    hide ThreeInARow, Healthy;
    if ResolvedInTime(rounds, None, 0) {
      var k :| 0 <= k < |rounds| && ThreeInARow(rounds, None, 0, k) && forall j :: 0 <= j < k ==> !OutOfTime(rounds, j);
      RowFromZero(rounds, k);
      forall j | 0 <= j < k
        ensures rounds[j].remaining > 0
      {
        assert !OutOfTime(rounds, j);
      }
    }
    if k :| HealthyTriple(rounds, k) && forall j :: 0 <= j < k ==> rounds[j].remaining > 0 {
      RowFromZero(rounds, k);
      assert ThreeInARow(rounds, None, 0, k) && forall j :: 0 <= j < k ==> !OutOfTime(rounds, j);
    }
  }

  lemma FailedFromZero(rounds: seq<Round>)
    ensures TimeRanOut(rounds, None, 0)
            <==> exists k :: 0 <= k < |rounds| && rounds[k].remaining <= 0 && forall j :: 0 <= j <= k ==> !HealthyTriple(rounds, j)
  {
    hide ThreeInARow, HealthyTriple;
    forall k | 0 <= k < |rounds|
      ensures ThreeInARow(rounds, None, 0, k) <==> HealthyTriple(rounds, k)
    {
      RowFromZero(rounds, k);
    }
    if k :| 0 <= k < |rounds| && rounds[k].remaining <= 0 && forall j :: 0 <= j <= k ==> !HealthyTriple(rounds, j) {
      assert OutOfTime(rounds, k) && forall j :: 0 <= j <= k ==> !ThreeInARow(rounds, None, 0, j);
    }
  }

  /** A verification that starts from zero: three healthy rounds of its own in a row, in time. */
  lemma VerdictFromZeroIff(rounds: seq<Round>, attempts: nat)
    ensures var verdict := Verify(rounds, None, VerificationCount(0, attempts)).0;
            && (verdict == VerdictResolved <==>
                  exists k :: HealthyTriple(rounds, k) && forall j :: 0 <= j < k ==> rounds[j].remaining > 0)
            && (verdict == VerdictFailed <==>
                  exists k :: 0 <= k < |rounds| && rounds[k].remaining <= 0 && forall j :: 0 <= j <= k ==> !HealthyTriple(rounds, j))
  {
    VerdictIff(rounds, None, VerificationCount(0, attempts));
    ResolvedFromZero(rounds);
    FailedFromZero(rounds);
    hide Verify, ResolvedInTime, TimeRanOut;
  }
}
