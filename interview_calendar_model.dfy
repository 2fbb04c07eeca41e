/** The InterviewCalendar document of Backend/models/InterviewCalendar.model.js: its milestones
    and daily-practice entries, field defaults and enums, the `daysRemaining` and
    `preparationDays` virtuals, and the `calculateProgress` and `getNextMilestone` methods. */
module InterviewCalendarModel {
  import opened Wrappers
  import opened Numeric
  import opened Collections
  import opened Sorting

  /** A local calendar day (what `toDateString` distinguishes), counted from any fixed origin. */
  type Day = int

  datatype Milestone = Milestone(
    title: string,
    description: string,
    targetDate: Time,
    completed: bool,
    completedAt: Option<Time>)

  /** One day's entry; `date` is the local day it was generated for. */
  datatype DailyPractice = DailyPractice(
    date: Day,
    recommendations: seq<string>,
    completed: bool,
    practicesDone: seq<string>)

  datatype InterviewType = Technical | Behavioral | SystemDesign | Mixed
  {
    /** The enum string stored in the document. */
    function Name(): string
    {
      match this
      case Technical => "technical"
      case Behavioral => "behavioral"
      case SystemDesign => "system-design"
      case Mixed => "mixed"
    }
  }
  datatype CalendarStatus = Active | Completed | Cancelled
  datatype Outcome = Pending | Passed | Failed | NoShow

  /** The schema bounds of `readinessScore`, [0, 100]. */
  predicate ReadinessInRange(score: real)
  {
    0.0 <= score <= 100.0
  }

  /** Schema default of `reminderDays`. */
  const DefaultReminderDays: seq<int> := [7, 3, 1]

  class InterviewCalendar {
    const user: nat
    const targetCompany: string
    const interviewDate: Time
    const role: string
    const interviewType: InterviewType
    const preparationStartDate: Time
    const readinessScore: real
    const notificationsEnabled: bool
    const reminderDays: seq<int>
    const status: CalendarStatus
    const outcome: Outcome
    var milestones: seq<Milestone>
    var dailyPractice: seq<DailyPractice>
    var lastUpdated: Time

    /** A new calendar with the schema defaults: preparation starts now, readiness 0, active,
        outcome pending, notifications on, reminders 7, 3 and 1 days ahead, no daily practice. */
    constructor (user: nat, targetCompany: string, interviewDate: Time, role: string,
                 interviewType: InterviewType, milestones: seq<Milestone>, now: Time)
      ensures this.user == user && this.targetCompany == targetCompany
      ensures this.interviewDate == interviewDate && this.role == role
      ensures this.interviewType == interviewType && this.milestones == milestones
      ensures preparationStartDate == now && lastUpdated == now
      ensures readinessScore == 0.0 && status == Active && outcome == Pending
      ensures notificationsEnabled && reminderDays == DefaultReminderDays
      ensures dailyPractice == []
    {
      this.user := user;
      this.targetCompany := targetCompany;
      this.interviewDate := interviewDate;
      this.role := role;
      this.interviewType := interviewType;
      preparationStartDate := now;
      readinessScore := 0.0;
      notificationsEnabled := true;
      reminderDays := DefaultReminderDays;
      status := Active;
      outcome := Pending;
      this.milestones := milestones;
      dailyPractice := [];
      lastUpdated := now;
    }
  }

  // ---- virtuals ----

  /** `daysRemaining`: the whole days from `now` to the interview, rounded up. */
  function DaysRemaining(interviewDate: Time, now: Time): (r: int)
    ensures (r - 1) * DAY_MS < interviewDate - now <= r * DAY_MS
  {
    CeilDiv(interviewDate - now, DAY_MS)
  }

  /** `preparationDays`: the whole days from the start of preparation to the interview, rounded up. */
  function PreparationDays(interviewDate: Time, preparationStartDate: Time): (r: int)
    ensures (r - 1) * DAY_MS < interviewDate - preparationStartDate <= r * DAY_MS
  {
    CeilDiv(interviewDate - preparationStartDate, DAY_MS)
  }

  /** Some days remain exactly while the interview is still ahead, and a day further away never
      leaves fewer days. */
  lemma DaysRemainingPositive(interviewDate: Time, now: Time, later: Time)
    requires now <= later
    ensures DaysRemaining(interviewDate, now) >= 1 <==> interviewDate > now
    ensures DaysRemaining(interviewDate, later) <= DaysRemaining(interviewDate, now)
  {
  }

  // ---- calculateProgress ----

  /** The number of completed milestones. */
  function CompletedCount(ms: seq<Milestone>): (r: nat)
    ensures r <= |ms|
    ensures r == |ms| <==> forall i :: 0 <= i < |ms| ==> ms[i].completed
  {
    if |ms| == 0 then 0
    else
      assert forall i :: 0 < i < |ms| ==> ms[i] == ms[1..][i - 1];
      (if ms[0].completed then 1 else 0) + CompletedCount(ms[1..])
  }

  /** `calculateProgress`: the rounded percentage of completed milestones, 0 with none. */
  function Progress(ms: seq<Milestone>): (r: int)
    ensures 0 <= r <= 100
    ensures |ms| == 0 || CompletedCount(ms) == 0 ==> r == 0
    ensures |ms| > 0 && (forall i :: 0 <= i < |ms| ==> ms[i].completed) ==> r == 100
  {
    if |ms| == 0 then 0 else Percent(CompletedCount(ms), |ms|)
  }

  /** `Math.round((c / n) * 100)`: the rounded percentage c of n. */
  function Percent(c: nat, n: nat): (r: int)
    requires 0 < n && c <= n
    ensures 0 <= r <= 100
    ensures c == 0 ==> r == 0
    ensures c == n ==> r == 100
  {
    var x := c as real / n as real * 100.0;
    assert n as real / n as real == 1.0;
    DivMonotone(c as real, n as real, n as real);
    RoundWithin(x, 0, 100);
    RoundOfInteger(0);
    RoundOfInteger(100);
    Round(x)
  }

  /** With fewer than 200 milestones, progress reads 100 only once every milestone is complete. */
  lemma ProgressFullMeansAllCompleted(ms: seq<Milestone>)
    requires 0 < |ms| < 200
    requires Progress(ms) == 100
    ensures forall i :: 0 <= i < |ms| ==> ms[i].completed
  {
    PercentFull(CompletedCount(ms), |ms|);
  }

  /** Below 200, a percentage that rounds to 100 is the whole. */
  lemma PercentFull(c: nat, n: nat)
    requires 0 < n < 200 && c <= n && Percent(c, n) == 100
    ensures c == n
  {
    var q := c as real / n as real;
    assert q * 100.0 >= 99.5;
    assert q * n as real == c as real;
    assert c as real >= 0.995 * n as real;
  }

  /** From 200 milestones on, rounding hides one open milestone: 199 of 200 reads as 100. */
  lemma ProgressRoundsUpAt200(ms: seq<Milestone>)
    requires |ms| == 200 && CompletedCount(ms) == 199
    ensures Progress(ms) == 100
    ensures exists i :: 0 <= i < |ms| && !ms[i].completed
  {
    assert 199.0 / 200.0 * 100.0 == 99.5;
    assert Percent(199, 200) == 100;
  }

  /** Completing a milestone never lowers the progress. */
  lemma {:induction false} CompletingRaisesCount(ms: seq<Milestone>, i: nat)
    requires i < |ms|
    ensures CompletedCount(ms[i := ms[i].(completed := true)])
            == CompletedCount(ms) + (if ms[i].completed then 0 else 1)
  {
    var ms' := ms[i := ms[i].(completed := true)];
    if i > 0 {
      assert ms'[1..] == ms[1..][i - 1 := ms[1..][i - 1].(completed := true)];
      CompletingRaisesCount(ms[1..], i - 1);
    } else {
      assert ms'[1..] == ms[1..];
    }
  }

  lemma PercentMonotone(c1: nat, c2: nat, n: nat)
    requires 0 < n && c1 <= c2 <= n
    ensures Percent(c1, n) <= Percent(c2, n)
  {
    DivMonotone(c1 as real, c2 as real, n as real);
    RoundMonotone(c1 as real / n as real * 100.0, c2 as real / n as real * 100.0);
  }

  lemma ProgressMonotone(ms: seq<Milestone>, i: nat)
    requires i < |ms|
    ensures Progress(ms) <= Progress(ms[i := ms[i].(completed := true)])
  {
    var ms' := ms[i := ms[i].(completed := true)];
    CompletingRaisesCount(ms, i);
    PercentMonotone(CompletedCount(ms), CompletedCount(ms'), |ms|);
  }

  // ---- getNextMilestone ----

  predicate Open(m: Milestone)
  {
    !m.completed
  }

  /** Sorting by `a.targetDate - b.targetDate` is sorting by the negated date, largest first. */
  function EarliestFirst(m: Milestone): int
  {
    -m.targetDate
  }

  /** `getNextMilestone`: an open milestone with the earliest target date, or none when every
      milestone is complete. */
  function NextMilestone(ms: seq<Milestone>): (r: Option<Milestone>)
    ensures r.None? <==> forall i :: 0 <= i < |ms| ==> ms[i].completed
    ensures r.Some? ==> r.value in ms && !r.value.completed
    ensures r.Some? ==> forall i :: 0 <= i < |ms| && !ms[i].completed ==> r.value.targetDate <= ms[i].targetDate
  {
    var open := Filter(ms, Open);
    if |open| == 0 then None
    else
      FirstOpenIsEarliest(ms);
      Some(SortDesc(open, EarliestFirst)[0])
  }

  /** After sorting the open milestones by date, the first is open and due no later than any
      other open milestone. */
  lemma FirstOpenIsEarliest(ms: seq<Milestone>)
    requires |Filter(ms, Open)| > 0
    ensures var sorted := SortDesc(Filter(ms, Open), EarliestFirst);
            && sorted[0] in ms && !sorted[0].completed
            && forall i :: 0 <= i < |ms| && !ms[i].completed ==> sorted[0].targetDate <= ms[i].targetDate
  {
    var open := Filter(ms, Open);
    var sorted := SortDesc(open, EarliestFirst);
    SortedElementFromInput(open, EarliestFirst, 0);
    forall i | 0 <= i < |ms| && !ms[i].completed
      ensures sorted[0].targetDate <= ms[i].targetDate
    {
      assert Open(ms[i]);
      var k :| 0 <= k < |open| && open[k] == ms[i];
      HeadIsMaximal(open, EarliestFirst, k);
    }
  }
}
