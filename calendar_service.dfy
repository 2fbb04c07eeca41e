/** Backend/services/calendarService.js: creating an interview calendar with its generated
    milestones, the once-a-day practice recommendations, completing milestones and daily
    practice, and the preparation timeline. `new Date()` is the parameter `now`, and `today` is
    the local day that contains `now`. */
module CalendarService {
  import opened Wrappers
  import opened Numeric
  import opened Collections
  import opened InterviewCalendarModel

  const CalendarNotFound := "Calendar not found"
  const MilestoneNotFound := "Milestone not found"
  const PracticeNotFound := "Daily practice not found"
  const DateNotInFuture := "Interview date must be in the future"
  const CalendarValidationFailed := "InterviewCalendar validation failed"

  const FinalTitle := "Interview Day Prep"
  const FinalDescription := "Rest well and review key concepts"

  // ---- generateMilestones ----

  /** `now` moved forward by whole days. */
  function DaysAfter(now: Time, days: int): Time
  {
    now + days * DAY_MS
  }

  /** A milestone as generated: not completed, no completion time. */
  function Planned(title: string, description: string, targetDate: Time): Milestone
  {
    Milestone(title, description, targetDate, false, None)
  }

  /** The milestones `generateMilestones` produces for `days` days of preparation. */
  function MilestonePlan(days: int, company: string, now: Time): (r: seq<Milestone>)
    ensures |r| == (if days >= 30 then 4 else if days >= 7 then 3 else 2)
    ensures r[|r| - 1].title == FinalTitle && r[|r| - 1].targetDate == DaysAfter(now, days - 1)
    ensures forall i :: 0 <= i < |r| ==> !r[i].completed && r[i].completedAt.None?
  {
    var stages :=
      if days >= 30 then
        [ Planned("Foundation Building", "Review fundamentals and core concepts", DaysAfter(now, 7)),
          Planned("Practice Phase", "Complete 20+ practice interviews", DaysAfter(now, 20)),
          Planned("Mock Interviews", "Complete 5 " + company + "-specific mock interviews", DaysAfter(now, 25)) ]
      else if days >= 14 then
        [ Planned("Intensive Practice", "Complete 10+ practice interviews", DaysAfter(now, 7)),
          Planned("Company Research", "Study " + company + " interview patterns", DaysAfter(now, 10)) ]
      else if days >= 7 then
        [ Planned("Focused Practice", "Daily practice sessions", DaysAfter(now, 3)),
          Planned("Final Review", "Review common questions and patterns", DaysAfter(now, 5)) ]
      else
        [ Planned("Crash Course", "Focus on most common questions", DaysAfter(now, 2)) ];
    stages + [Planned(FinalTitle, FinalDescription, DaysAfter(now, days - 1))]
  }

  /** The shape of every plan: 4 milestones from 30 days on, 3 from 7 days on, else 2; none
      completed; the last is the interview-day preparation on the day before the interview. */
  lemma PlanShape(days: int, company: string, now: Time)
    ensures var ms := MilestonePlan(days, company, now);
            |ms| == (if days >= 30 then 4 else if days >= 7 then 3 else 2)
            && (forall i :: 0 <= i < |ms| ==> !ms[i].completed && ms[i].completedAt.None?)
            && ms[|ms| - 1].title == FinalTitle
            && ms[|ms| - 1].targetDate == DaysAfter(now, days - 1)
            && CompletedCount(ms) == 0 && Progress(ms) == 0
  {
    var ms := MilestonePlan(days, company, now);
    assert forall i :: 0 <= i < |ms| ==> !ms[i].completed;
    CompletedCountZero(ms);
  }

  lemma {:induction false} CompletedCountZero(ms: seq<Milestone>)
    requires forall i :: 0 <= i < |ms| ==> !ms[i].completed
    ensures CompletedCount(ms) == 0
  {
    if |ms| > 0 {
      assert forall i :: 0 <= i < |ms[1..]| ==> ms[1..][i] == ms[i + 1];
      CompletedCountZero(ms[1..]);
    }
  }

  /** From 4 days on the plan's dates strictly increase and all fall before the day of the
      interview; with 3 days the crash course and the final preparation share a day. */
  lemma PlanOrdered(days: int, company: string, now: Time)
    ensures var ms := MilestonePlan(days, company, now);
            (days >= 4 ==> forall i, j :: 0 <= i < j < |ms| ==> ms[i].targetDate < ms[j].targetDate)
            && (days >= 3 ==> forall i :: 0 <= i < |ms| ==> ms[i].targetDate <= DaysAfter(now, days - 1))
            && (days == 3 ==> ms[0].targetDate == ms[1].targetDate)
  {
    var ms := MilestonePlan(days, company, now);
    if days >= 30 {
      assert |ms| == 4;
    } else if days >= 7 {
      assert |ms| == 3;
    } else {
      assert |ms| == 2;
    }
  }

  /** With at most 2 days left, the crash course is due after the final preparation day. */
  lemma CrashCourseAfterFinalDay(days: int, company: string, now: Time)
    requires days <= 2
    ensures var ms := MilestonePlan(days, company, now);
            |ms| == 2 && ms[0].title == "Crash Course" && ms[0].targetDate > ms[1].targetDate
  {
  }

  /** `generateMilestones`: successive pushes onto an empty list. */
  method GenerateMilestones(days: int, company: string, now: Time) returns (ms: seq<Milestone>)
    ensures ms == MilestonePlan(days, company, now)
  {
    ms := [];
    if days >= 30 {
      ms := ms + [Planned("Foundation Building", "Review fundamentals and core concepts", DaysAfter(now, 7))];
      ms := ms + [Planned("Practice Phase", "Complete 20+ practice interviews", DaysAfter(now, 20))];
      ms := ms + [Planned("Mock Interviews", "Complete 5 " + company + "-specific mock interviews", DaysAfter(now, 25))];
    } else if days >= 14 {
      ms := ms + [Planned("Intensive Practice", "Complete 10+ practice interviews", DaysAfter(now, 7))];
      ms := ms + [Planned("Company Research", "Study " + company + " interview patterns", DaysAfter(now, 10))];
    } else if days >= 7 {
      ms := ms + [Planned("Focused Practice", "Daily practice sessions", DaysAfter(now, 3))];
      ms := ms + [Planned("Final Review", "Review common questions and patterns", DaysAfter(now, 5))];
    } else {
      ms := ms + [Planned("Crash Course", "Focus on most common questions", DaysAfter(now, 2))];
    }
    ms := ms + [Planned(FinalTitle, FinalDescription, DaysAfter(now, days - 1))];
  }

  // ---- daily recommendations ----

  /** The days-remaining bucket: more than 14, more than 7, more than 3, or fewer. */
  function Bucket(daysRemaining: int): (r: nat)
    ensures r <= 3
    ensures r == 0 <==> daysRemaining > 14
    ensures r == 1 <==> 7 < daysRemaining <= 14
    ensures r == 2 <==> 3 < daysRemaining <= 7
    ensures r == 3 <==> daysRemaining <= 3
  {
    if daysRemaining > 14 then 0
    else if daysRemaining > 7 then 1
    else if daysRemaining > 3 then 2
    else 3
  }

  /** Fewer days left never puts a calendar in an earlier (more relaxed) band; the band changes
      between 15 and 14, 8 and 7, and 4 and 3 days. */
  lemma BucketAntitone(d1: int, d2: int)
    requires d1 <= d2
    ensures Bucket(d2) <= Bucket(d1)
    ensures Bucket(15) == 0 && Bucket(14) == 1 && Bucket(8) == 1
    ensures Bucket(7) == 2 && Bucket(4) == 2 && Bucket(3) == 3
  {
  }

  /** The four recommendations for a bucket. */
  function DailyRecommendations(daysRemaining: int, company: string): (r: seq<string>)
    ensures |r| == 4
  {
    match Bucket(daysRemaining)
    case 0 => [ "Complete 1 practice interview", "Study 2 technical concepts",
                "Review 5 behavioral questions", "Practice coding for 30 minutes" ]
    case 1 => [ "Complete 2 practice interviews", "Review " + company + " interview questions",
                "Practice system design problem", "Mock interview with a peer" ]
    case 2 => [ "Complete 1 full mock interview", "Review your weak areas",
                "Study " + company + " culture and values", "Practice common questions" ]
    case _ => [ "Light practice only", "Review key concepts",
                "Rest and stay confident", "Prepare questions for interviewer" ]
  }

  /** The recommendations depend on the days remaining only through the bucket, and the four
      buckets give four different lists. */
  lemma RecommendationsByBucket(d1: int, d2: int, company: string)
    ensures DailyRecommendations(d1, company) == DailyRecommendations(d2, company) <==> Bucket(d1) == Bucket(d2)
  {
    var r1 := DailyRecommendations(d1, company);
    var r2 := DailyRecommendations(d2, company);
    if Bucket(d1) != Bucket(d2) {
      assert r1[0] != r2[0];
    }
  }

  /** Some entry was generated on that day (`dp.date.toDateString() === today.toDateString()`). */
  predicate HasEntryFor(dp: seq<DailyPractice>, day: Day)
  {
    exists i :: 0 <= i < |dp| && dp[i].date == day
  }

  /** No two entries share a day. */
  predicate AtMostOnePerDay(dp: seq<DailyPractice>)
  {
    forall i, j :: 0 <= i < j < |dp| ==> dp[i].date != dp[j].date
  }

  /** The daily-practice list after generation on `day`: unchanged when the day already has an
      entry, else one new uncompleted entry at the end. */
  function WithTodayEntry(dp: seq<DailyPractice>, day: Day, recommendations: seq<string>): (r: seq<DailyPractice>)
    ensures HasEntryFor(r, day)
    ensures |dp| <= |r| <= |dp| + 1 && r[..|dp|] == dp
  {
    if HasEntryFor(dp, day) then dp
    else
      var r := dp + [DailyPractice(day, recommendations, false, [])];
      assert r[|dp|].date == day;
      r
  }

  /** Generating twice on the same day is generating once. */
  lemma WithTodayEntryIdempotent(dp: seq<DailyPractice>, day: Day, first: seq<string>, second: seq<string>)
    ensures WithTodayEntry(WithTodayEntry(dp, day, first), day, second) == WithTodayEntry(dp, day, first)
  {
  }

  /** Generation keeps the daily-practice list at no more than one entry per day. */
  lemma WithTodayEntryKeepsOnePerDay(dp: seq<DailyPractice>, day: Day, recommendations: seq<string>)
    requires AtMostOnePerDay(dp)
    ensures AtMostOnePerDay(WithTodayEntry(dp, day, recommendations))
  {
    if !HasEntryFor(dp, day) {
      var r := WithTodayEntry(dp, day, recommendations);
      forall i, j | 0 <= i < j < |r| ensures r[i].date != r[j].date {
        if j == |dp| {
          assert r[i] == dp[i];
        }
      }
    }
  }

  /** A day without an entry gets exactly one, dated that day, with the bucket's recommendations
      and not completed. */
  lemma WithTodayEntryAppends(dp: seq<DailyPractice>, day: Day, recommendations: seq<string>)
    requires !HasEntryFor(dp, day)
    ensures var r := WithTodayEntry(dp, day, recommendations);
            |r| == |dp| + 1 && r[|dp|].date == day && r[|dp|].recommendations == recommendations
            && !r[|dp|].completed && r[|dp|].practicesDone == []
  {
  }

  /** The list a calendar's daily practice `dp` becomes when recommendations are generated on
      `today` at `now`. */
  function Refreshed(c: InterviewCalendar, dp: seq<DailyPractice>, today: Day, now: Time): seq<DailyPractice>
  {
    WithTodayEntry(dp, today, DailyRecommendations(DaysRemaining(c.interviewDate, now), c.targetCompany))
  }

  /** `generateDailyRecommendations`. */
  method GenerateDailyRecommendations(c: InterviewCalendar?, today: Day, now: Time) returns (r: Result<InterviewCalendar>)
    modifies c
    ensures c == null ==> r == Err(CalendarNotFound)
    ensures c != null ==> r == Ok(c) && c.dailyPractice == Refreshed(c, old(c.dailyPractice), today, now)
                          && c.milestones == old(c.milestones) && c.lastUpdated == old(c.lastUpdated)
  {
    if c == null {
      return Err(CalendarNotFound);
    }
    if HasEntryFor(c.dailyPractice, today) {
      return Ok(c);
    }
    var recommendations := DailyRecommendations(DaysRemaining(c.interviewDate, now), c.targetCompany);
    c.dailyPractice := c.dailyPractice + [DailyPractice(today, recommendations, false, [])];
    return Ok(c);
  }

  // ---- what a request returns ----

  /** A calendar document as the response carries it: the reference and its mutable fields at
      the moment the response object was read. */
  datatype CalendarView = CalendarView(
    calendar: InterviewCalendar,
    milestones: seq<Milestone>,
    dailyPractice: seq<DailyPractice>,
    lastUpdated: Time)

  function View(c: InterviewCalendar): CalendarView
    reads c
  {
    CalendarView(c, c.milestones, c.dailyPractice, c.lastUpdated)
  }

  function Views(cs: seq<InterviewCalendar>): (r: seq<CalendarView>)
    reads cs
    ensures |r| == |cs| && forall i :: 0 <= i < |cs| ==> r[i] == View(cs[i])
  {
    if |cs| == 0 then []
    else
      var r := [View(cs[0])] + Views(cs[1..]);
      assert forall i :: 0 < i < |cs| ==> r[i] == Views(cs[1..])[i - 1] && cs[i] == cs[1..][i - 1];
      r
  }

  /** A response read before generation lacks the day's entry the stored document then has. */
  lemma StaleViewLacksToday(dp: seq<DailyPractice>, day: Day, recommendations: seq<string>)
    requires !HasEntryFor(dp, day)
    ensures HasEntryFor(WithTodayEntry(dp, day, recommendations), day)
    ensures WithTodayEntry(dp, day, recommendations) != dp
  {
  }

  // ---- createInterviewCalendar ----

  datatype CalendarRequest = CalendarRequest(
    targetCompany: Option<string>,
    interviewDate: Time,
    role: Option<string>,
    interviewType: Option<string>)

  /** The `interviewType` enum, `technical` by default; an unknown value fails validation. */
  function ParseInterviewType(t: Option<string>): (r: Option<InterviewType>)
    ensures t.None? ==> r == Some(Technical)
    ensures t.Some? ==> (r.Some? <==> t.value in ["technical", "behavioral", "system-design", "mixed"])
    ensures t == Some("technical") ==> r == Some(Technical)
    ensures t == Some("behavioral") ==> r == Some(Behavioral)
    ensures t == Some("system-design") ==> r == Some(SystemDesign)
    ensures t == Some("mixed") ==> r == Some(Mixed)
  {
    match t
    case None => Some(Technical)
    case Some(s) =>
      if s == "technical" then Some(Technical)
      else if s == "behavioral" then Some(Behavioral)
      else if s == "system-design" then Some(SystemDesign)
      else if s == "mixed" then Some(Mixed)
      else None
  }

  /** Every interview type is accepted under its own enum string, and a parsed string is the
      name of the type it gives. */
  lemma ParseInterviewTypeNames(k: InterviewType, t: Option<string>)
    ensures ParseInterviewType(Some(k.Name())) == Some(k)
    ensures t.Some? && ParseInterviewType(t).Some? ==> ParseInterviewType(t).value.Name() == t.value
  {
  }

  /** Schema validation: target company and role are required and non-empty, and the interview
      type is a known one. */
  predicate ValidRequest(req: CalendarRequest)
    ensures ValidRequest(req) ==>
              req.interviewType.None? || req.interviewType.value in ["technical", "behavioral", "system-design", "mixed"]
    ensures req.interviewType.None? ==>
              (ValidRequest(req) <==> req.targetCompany.Some? && req.targetCompany.value != ""
                                      && req.role.Some? && req.role.value != "")
  {
    req.targetCompany.Some? && req.targetCompany.value != ""
    && req.role.Some? && req.role.value != ""
    && ParseInterviewType(req.interviewType).Some?
  }

  /** The date check, the preparation span and the generated milestones of `createInterviewCalendar`,
      up to the saved document. */
  method NewCalendar(userId: nat, req: CalendarRequest, now: Time) returns (r: Result<InterviewCalendar>)
    ensures req.interviewDate <= now ==> r == Err(DateNotInFuture)
    ensures req.interviewDate > now && !ValidRequest(req) ==> r == Err(CalendarValidationFailed)
    ensures req.interviewDate > now && ValidRequest(req) ==>
              r.Ok? && fresh(r.value)
              && var c := r.value;
                 var prepDays := DaysRemaining(req.interviewDate, now);
                 prepDays >= 1
                 && c.user == userId && c.targetCompany == req.targetCompany.value && c.role == req.role.value
                 && c.interviewDate == req.interviewDate && c.preparationStartDate == now
                 && Some(c.interviewType) == ParseInterviewType(req.interviewType)
                 && PreparationDays(c.interviewDate, c.preparationStartDate) == prepDays
                 && c.milestones == MilestonePlan(prepDays, req.targetCompany.value, now)
                 && c.dailyPractice == [] && c.status == Active && c.readinessScore == 0.0
  {
    if req.interviewDate <= now {
      return Err(DateNotInFuture);
    }
    var prepDays := CeilDiv(req.interviewDate - now, DAY_MS);
    if !ValidRequest(req) {
      return Err(CalendarValidationFailed);
    }
    var milestones := GenerateMilestones(prepDays, req.targetCompany.value, now);
    var c := new InterviewCalendar(userId, req.targetCompany.value, req.interviewDate, req.role.value,
                                   ParseInterviewType(req.interviewType).value, milestones, now);
    return Ok(c);
  }

  /** `createInterviewCalendar` as written: the initial recommendations go to a separately loaded
      copy of the saved document, so the returned calendar has no daily practice while the stored
      one has today's entry. */
  method CreateInterviewCalendar(userId: nat, req: CalendarRequest, today: Day, now: Time)
    returns (r: Result<CalendarView>)
    ensures req.interviewDate <= now ==> r == Err(DateNotInFuture)
    ensures req.interviewDate > now && !ValidRequest(req) ==> r == Err(CalendarValidationFailed)
    ensures req.interviewDate > now && ValidRequest(req) ==>
              r.Ok? && fresh(r.value.calendar)
              && r.value.dailyPractice == []
              && r.value.milestones == MilestonePlan(DaysRemaining(req.interviewDate, now), req.targetCompany.value, now)
              && |r.value.calendar.dailyPractice| == 1 && HasEntryFor(r.value.calendar.dailyPractice, today)
  {
    var created := NewCalendar(userId, req, now);
    if created.Err? {
      return Err(created.message);
    }
    var c := created.value;
    var response := View(c);
    var _ := GenerateDailyRecommendations(c, today, now);
    return Ok(response);
  }

  /** `createInterviewCalendar` returning the document with its initial recommendations. */
  method CreateInterviewCalendarCorrected(userId: nat, req: CalendarRequest, today: Day, now: Time)
    returns (r: Result<CalendarView>)
    ensures req.interviewDate <= now ==> r == Err(DateNotInFuture)
    ensures req.interviewDate > now && !ValidRequest(req) ==> r == Err(CalendarValidationFailed)
    ensures req.interviewDate > now && ValidRequest(req) ==>
              r.Ok? && fresh(r.value.calendar)
              && r.value.dailyPractice == r.value.calendar.dailyPractice
              && |r.value.dailyPractice| == 1 && HasEntryFor(r.value.dailyPractice, today)
              && r.value.milestones == MilestonePlan(DaysRemaining(req.interviewDate, now), req.targetCompany.value, now)
  {
    var created := NewCalendar(userId, req, now);
    if created.Err? {
      return Err(created.message);
    }
    var c := created.value;
    var _ := GenerateDailyRecommendations(c, today, now);
    return Ok(View(c));
  }

  // ---- getUserCalendars ----

  /** The loop of `getUserCalendars`: today's recommendations for every active calendar of the
      query result (distinct documents). */
  method RefreshActive(cs: seq<InterviewCalendar>, today: Day, now: Time)
    requires forall i, j :: 0 <= i < j < |cs| ==> cs[i] != cs[j]
    modifies cs
    ensures forall j :: 0 <= j < |cs| ==>
              cs[j].dailyPractice == (if cs[j].status == Active then Refreshed(cs[j], old(cs[j].dailyPractice), today, now)
                                      else old(cs[j].dailyPractice))
              && cs[j].milestones == old(cs[j].milestones) && cs[j].lastUpdated == old(cs[j].lastUpdated)
  {
    var i := 0;
    while i < |cs|
      invariant 0 <= i <= |cs|
      invariant forall j :: 0 <= j < |cs| ==>
                  cs[j].dailyPractice == (if j < i && cs[j].status == Active then Refreshed(cs[j], old(cs[j].dailyPractice), today, now)
                                          else old(cs[j].dailyPractice))
                  && cs[j].milestones == old(cs[j].milestones) && cs[j].lastUpdated == old(cs[j].lastUpdated)
    {
      var c := cs[i];
      assert forall j :: 0 <= j < |cs| && j != i ==> cs[j] != c;
      if c.status == Active {
        var _ := GenerateDailyRecommendations(c, today, now);
      }
      i := i + 1;
    }
  }

  /** `getUserCalendars` as written: the response is the list read before the loop, whose
      recommendations were added to separately loaded copies. */
  method GetUserCalendars(cs: seq<InterviewCalendar>, today: Day, now: Time) returns (response: seq<CalendarView>)
    requires forall i, j :: 0 <= i < j < |cs| ==> cs[i] != cs[j]
    modifies cs
    ensures response == old(Views(cs))
    ensures forall j :: 0 <= j < |cs| && cs[j].status == Active ==> HasEntryFor(cs[j].dailyPractice, today)
  {
    response := Views(cs);
    RefreshActive(cs, today, now);
  }

  /** `getUserCalendars` returning every active calendar with today's entry. */
  method GetUserCalendarsCorrected(cs: seq<InterviewCalendar>, today: Day, now: Time) returns (response: seq<CalendarView>)
    requires forall i, j :: 0 <= i < j < |cs| ==> cs[i] != cs[j]
    modifies cs
    ensures |response| == |cs|
    ensures forall j :: 0 <= j < |cs| ==> response[j] == View(cs[j])
    ensures forall j :: 0 <= j < |cs| && cs[j].status == Active ==> HasEntryFor(response[j].dailyPractice, today)
    ensures forall j :: 0 <= j < |cs| && cs[j].status != Active ==> response[j].dailyPractice == old(cs[j].dailyPractice)
  {
    RefreshActive(cs, today, now);
    response := Views(cs);
  }

  // ---- updateMilestone and completeDailyPractice ----

  /** `updateMilestone`; a milestone's `_id` is its position. `completedAt` is stamped when the
      milestone is completed and left as it was when it is reopened. */
  method UpdateMilestone(c: InterviewCalendar?, milestoneId: int, completed: bool, now: Time)
    returns (r: Result<InterviewCalendar>)
    modifies c
    ensures c == null ==> r == Err(CalendarNotFound)
    ensures c != null && !(0 <= milestoneId < |old(c.milestones)|) ==> r == Err(MilestoneNotFound) && unchanged(c)
    ensures c != null && 0 <= milestoneId < |old(c.milestones)| ==>
              var m := old(c.milestones)[milestoneId];
              r == Ok(c)
              && c.milestones == old(c.milestones)[milestoneId := m.(completed := completed,
                                   completedAt := if completed then Some(now) else m.completedAt)]
              && c.lastUpdated == now && c.dailyPractice == old(c.dailyPractice)
  {
    if c == null {
      return Err(CalendarNotFound);
    }
    if !(0 <= milestoneId < |c.milestones|) {
      return Err(MilestoneNotFound);
    }
    var m := c.milestones[milestoneId];
    var completedAt := if completed then Some(now) else m.completedAt;
    c.milestones := c.milestones[milestoneId := m.(completed := completed, completedAt := completedAt)];
    c.lastUpdated := now;
    return Ok(c);
  }

  /** `completeDailyPractice`; an entry's `_id` is its position. */
  method CompleteDailyPractice(c: InterviewCalendar?, practiceId: int, practicesDone: seq<string>)
    returns (r: Result<InterviewCalendar>)
    modifies c
    ensures c == null ==> r == Err(CalendarNotFound)
    ensures c != null && !(0 <= practiceId < |old(c.dailyPractice)|) ==> r == Err(PracticeNotFound) && unchanged(c)
    ensures c != null && 0 <= practiceId < |old(c.dailyPractice)| ==>
              r == Ok(c)
              && c.dailyPractice == old(c.dailyPractice)[practiceId := old(c.dailyPractice)[practiceId].(
                                      completed := true, practicesDone := practicesDone)]
              && c.milestones == old(c.milestones) && c.lastUpdated == old(c.lastUpdated)
              && (AtMostOnePerDay(old(c.dailyPractice)) ==> AtMostOnePerDay(c.dailyPractice))
  {
    if c == null {
      return Err(CalendarNotFound);
    }
    if !(0 <= practiceId < |c.dailyPractice|) {
      return Err(PracticeNotFound);
    }
    var p := c.dailyPractice[practiceId];
    c.dailyPractice := c.dailyPractice[practiceId := p.(completed := true, practicesDone := practicesDone)];
    return Ok(c);
  }

  // ---- getPreparationTimeline ----

  datatype Timeline = Timeline(
    daysRemaining: int,
    preparationDays: int,
    progress: int,
    nextMilestone: Option<Milestone>,
    milestones: seq<Milestone>,
    dailyPractice: seq<DailyPractice>,
    readinessScore: real)

  /** The timeline of a calendar with the given fields. */
  function TimelineOf(milestones: seq<Milestone>, dailyPractice: seq<DailyPractice>, interviewDate: Time,
                      preparationStartDate: Time, readinessScore: real, now: Time): (t: Timeline)
    ensures t.milestones == milestones
    ensures t.daysRemaining == DaysRemaining(interviewDate, now)
    ensures t.preparationDays == PreparationDays(interviewDate, preparationStartDate)
    ensures t.progress == Progress(milestones) && t.nextMilestone == NextMilestone(milestones)
    ensures t.readinessScore == readinessScore
    ensures |t.dailyPractice| == MinInt(7, |dailyPractice|)
    ensures forall i :: 0 <= i < |t.dailyPractice| ==>
              t.dailyPractice[i] == dailyPractice[|dailyPractice| - |t.dailyPractice| + i]
  {
    var dp := LastN(dailyPractice, 7);
    assert |dp| == MinInt(7, |dailyPractice|);
    Timeline(DaysRemaining(interviewDate, now), PreparationDays(interviewDate, preparationStartDate),
             Progress(milestones), NextMilestone(milestones), milestones, dp, readinessScore)
  }

  /** `getPreparationTimeline`: the calendar's figures and its last 7 daily entries. */
  function PreparationTimeline(c: InterviewCalendar?, now: Time): (r: Result<Timeline>)
    reads c
    ensures c == null ==> r == Err(CalendarNotFound)
    ensures c != null ==> r.Ok? && r.value.milestones == c.milestones
    ensures c != null ==> r.value.daysRemaining == DaysRemaining(c.interviewDate, now)
                          && r.value.preparationDays == PreparationDays(c.interviewDate, c.preparationStartDate)
                          && r.value.readinessScore == c.readinessScore
    ensures c != null ==> r.value.progress == Progress(c.milestones) && r.value.nextMilestone == NextMilestone(c.milestones)
    ensures r.Ok? ==> 0 <= r.value.progress <= 100
    ensures r.Ok? ==> (r.value.nextMilestone.None? <==> forall i :: 0 <= i < |c.milestones| ==> c.milestones[i].completed)
    ensures r.Ok? ==> var dp := r.value.dailyPractice;
              |dp| == MinInt(7, |c.dailyPractice|)
              && forall i :: 0 <= i < |dp| ==> dp[i] == c.dailyPractice[|c.dailyPractice| - |dp| + i]
  {
    if c == null then Err(CalendarNotFound)
    else Ok(TimelineOf(c.milestones, c.dailyPractice, c.interviewDate, c.preparationStartDate, c.readinessScore, now))
  }
}
