# Intervyo backend core in Dafny

Intervyo is an interview-preparation platform. This project models four services of its
Node/Mongoose backend, together with the documents they read and change:

- **Company recommendation** (`companyRecommendation.service.js`) compares a user's interview scores with
  each company's hiring bar. It produces:
  - a fit score of 0 to 100;
  - a readiness level;
  - a success probability;
  - gaps, strengths, weaknesses and advice;
  - a ranked list of companies and a per-company analysis.
- **Buddy matching** (`buddyMatching.service.js`, `BuddyMatch.model.js`) does three things:
  - it finds practice partners who target the same companies, scores them and keeps the best 20;
  - it runs the pending/accepted state machine of a buddy match and schedules mock interviews;
  - it creates study groups and lets users join them.
- **Interview calendar** (`calendarService.js`, `InterviewCalendar.model.js`):
  - it plans milestones up to an interview date;
  - it adds one daily-practice entry per day, with recommendations that depend on the days left;
  - it tracks milestone and practice completion;
  - it reports progress and the next milestone.
- **Question database** (`questionDatabase.service.js`, `RealQuestion.model.js`) holds crowd-sourced
  interview questions. It covers:
  - submission, with its defaults;
  - up/down voting, where a repeated vote retracts and a vote switches sides;
  - auto-verification at 5 upvotes;
  - reports, where 3 send the question back to review;
  - admin verification, the asked-frequency report and per-user statistics.

How the model maps the system:

- **Values and documents.**
  - Pure computations are functions on datatypes.
  - The Mongoose documents that the services change in place are classes: `BuddyMatch`, `StudyGroup`,
    `InterviewCalendar` and `RealQuestion`. Their methods carry `modifies` clauses. Fields that are
    never written after creation are `const`.
  - A `findById` result is a nullable reference, and `null` takes the "not found" path.
  - Database query results are input sequences: the user's interviews, the buddy aggregation rows,
    the company list and the match collection.
  - A schema validation failure is an `Err` carrying Mongoose's message.
- **Time.**
  - Time is an integer count of milliseconds (`Numeric.Time`). The current time `now` is a parameter.
  - The local calendar day used by `toDateString()` comparisons is a separate integer `today`.
- **JavaScript arithmetic** is written out:
  - `Math.round(x)` is `floor(x + 1/2)` (`Numeric.Round`);
  - `Math.ceil(ms / day)` is a ceiling division (`Numeric.CeilDiv`);
  - the `x || default` fallbacks are explicit functions;
  - the stable `Array.prototype.sort` with a descending numeric comparator is a stable insertion
    sort (`Sorting.SortDesc`), proved sorted, a permutation and stable.
- **Subdocuments.** A subdocument's `_id` (a milestone or a daily-practice entry) is its position
  in its array.

Modules:
- `Wrappers` holds `Option` and `Result`.
- `Numeric`, `Collections` and `Sorting` model the JavaScript primitives the services use.
- `Interviews` holds the interview record the services read.
- `CompanyRecommendation` models the company recommendation service.
- `BuddyMatchModel` and `BuddyMatching` model the buddy-match schema and its service.
- `InterviewCalendarModel` and `CalendarService` model the calendar schema and its service.
- `RealQuestionModel` and `QuestionDatabase` model the question schema and its service.

## Model

| member | source | states |
|---|---|---|
| Numeric.Round | Backend/services/companyRecommendation.service.js:69 | `Math.round`: the integer nearest to x, with halves rounding up (`r - 1/2 <= x < r + 1/2`) |
| Numeric.RoundMonotone | Backend/services/buddyMatching.service.js:96 | rounding never reverses an order: x <= y implies Round(x) <= Round(y) |
| Numeric.RoundWithin | Backend/services/companyRecommendation.service.js:69 | a value within integer bounds rounds to a value within the same bounds |
| Numeric.CeilDiv | Backend/models/InterviewCalendar.model.js:96-97 | `Math.ceil(a / b)`: the least r with a <= r*b |
| Collections.Dedup | Backend/services/buddyMatching.service.js:27-29 | `[...new Set(xs)]`: no duplicates, and exactly the input's values |
| Collections.LastN | Backend/services/calendarService.js:312 | `slice(-k)`: the last min(k, n) elements, in order |
| Collections.FirstN | Backend/services/companyRecommendation.service.js:183 | `slice(0, k)`: the first min(k, n) elements |
| Sorting.SortDesc | Backend/services/companyRecommendation.service.js:179 | the sorted list is a permutation of the input, ordered by key, largest first |
| Sorting.SortDescIsStable | Backend/services/companyRecommendation.service.js:179 | stability: elements with equal keys keep their original relative order |
| Sorting.HeadIsMaximal | Backend/services/companyRecommendation.service.js:179-183 | the first element after sorting has a key at least that of every input element |
| Sorting.PrefixKeepsLargest | Backend/services/buddyMatching.service.js:107-108 | sort then `slice(0, k)` keeps the largest: an element left out has a key no larger than every kept one |
| Interviews.ScoreOrZero | Backend/services/companyRecommendation.service.js:37 | `result?.overallScore \|\| 0`: the score when present, else 0 |
| CompanyRecommendation.Lookup | Backend/services/companyRecommendation.service.js:20 | `Company.findOne({name})`: a company of that name, or None exactly when no company has that name |
| CompanyRecommendation.CategoryAverage | Backend/services/companyRecommendation.service.js:30-57 | 0 when no interview counts; otherwise, with `CategoryScoresWithin` and `CategoryAverageWithin`, the mean of the counted scores, within their range |
| CompanyRecommendation.CategoryScores | Backend/services/companyRecommendation.service.js:30-45 | the score list is empty exactly when no interview of the company and type counts |
| CompanyRecommendation.CategoryScoresWithin | Backend/services/companyRecommendation.service.js:35-45 | every collected score is the score of a counted interview, so bounds on those bound the list |
| CompanyRecommendation.CategoryAverageWithin | Backend/services/companyRecommendation.service.js:47-57 | with at least one counted interview, the average lies between bounds on the counted scores (and equals a score all of them share) |
| CompanyRecommendation.NoneCount | Backend/services/companyRecommendation.service.js:30-43 | when no interview counts for the company and category, the category's score list is empty |
| CompanyRecommendation.CategoryFit | Backend/services/companyRecommendation.service.js:65-67 | the category fit lies in [0, 100]; it is 100 exactly on the bar, drops one point per point of gap on either side of the bar (`Math.abs`), and is 0 from a gap of 100 on |
| CompanyRecommendation.OverallFit | Backend/services/companyRecommendation.service.js:69 | the overall fit is the mean of the three category fits rounded half up (within half a point), an integer in [0, 100], and 100 when every category fit is 100 |
| CompanyRecommendation.ReadinessFor | Backend/services/companyRecommendation.service.js:72-76 | Excellent exactly from 85, Good from 70 to 84, Moderate from 55 to 69, Needs Work from 40 to 54, Not Ready below 40 |
| CompanyRecommendation.ReadinessMonotone | Backend/services/companyRecommendation.service.js:72-76 | a higher fit score never gives a lower readiness level |
| CompanyRecommendation.SuccessProbability | Backend/services/companyRecommendation.service.js:79-81 | the probability is a percentage in [0, 100], and equals the rounded fit × acceptance rate / 100 when that is at most 100 |
| CompanyRecommendation.SuccessProbabilityExample | Backend/services/companyRecommendation.service.js:79-81 | a fit of 80 with a 50% acceptance rate gives 40 |
| CompanyRecommendation.CalculateCompanyFit | Backend/services/companyRecommendation.service.js:17-107 | an unknown company gives the "Company data not available" fit of 0; otherwise the scores are the rounded category averages, the gaps the rounded bar minus average, and the fit the overall fit of the three category fits; readiness and probability follow from the fit, the bar is carried and the lists are empty |
| CompanyRecommendation.FitOnTheBar | Backend/services/companyRecommendation.service.js:60-76 | a user whose averages exactly meet the bar gets fit 100, Excellent, and zero gaps |
| CompanyRecommendation.LowTechnicalIsWeakness | Backend/services/companyRecommendation.service.js:35-63 | technical scores all at least 16 below the technical bar make technical a weakness of the annotated fit |
| CompanyRecommendation.CategoryScoresAppend | Backend/services/companyRecommendation.service.js:30-45 | the score list of a concatenation is the concatenation of the score lists |
| CompanyRecommendation.ExactlyOnTheBarExample | Backend/services/companyRecommendation.service.js:30-97 | one interview per category meeting the default bar of 70/65/75 exactly gives fit 100, Excellent, and a success probability of 50 at a 50% acceptance rate |
| CompanyRecommendation.OtherCompaniesIgnored | Backend/services/companyRecommendation.service.js:30-32 | interviews for other companies, inserted anywhere, do not change a company's fit |
| CompanyRecommendation.Strengths | Backend/services/companyRecommendation.service.js:142-149 | each category is listed as a strength exactly when its gap is at most 0, so the list is exactly as long as the number of such categories |
| CompanyRecommendation.Weaknesses | Backend/services/companyRecommendation.service.js:142-149 | each category is listed as a weakness exactly when its gap exceeds 15, so the list is exactly as long as the number of such categories |
| CompanyRecommendation.StrengthsAndWeaknessesExclusive | Backend/services/companyRecommendation.service.js:142-149 | no category is both a strength and a weakness, and there are at most three of them together |
| CompanyRecommendation.Advice | Backend/services/companyRecommendation.service.js:152-164 | from fit 70 on, a single "well-prepared" message; below 70, one focus advice for each category exactly when its gap exceeds 10 |
| CompanyRecommendation.Annotate | Backend/services/companyRecommendation.service.js:138-175 | annotation keeps the fit and gaps, appends the strengths, weaknesses and advice that the gaps call for, and carries the company's logo and interview characteristics into its details |
| CompanyRecommendation.AnnotateAll | Backend/services/companyRecommendation.service.js:137-176 | one recommendation per company, in order: each is the annotated fit calculated from the user's interviews against the first company of that name (`findOne`), so with a fit in [0, 100] and lists that follow its gaps |
| CompanyRecommendation.GetCompanyRecommendations | Backend/services/companyRecommendation.service.js:114-190 | an unknown user is an error; no history gives the "complete some interviews" answer; otherwise all companies appear exactly once, sorted by fit score, with the top three as bestFit; the stable `sort` keeps companies of equal fit score in their stored order |
| CompanyRecommendation.RankedRecommendations | Backend/services/companyRecommendation.service.js:178-185 | every ranked entry has a fit in [0, 100] with consistent strengths and weaknesses, and the first entry has the highest fit |
| CompanyRecommendation.PreparationTimeFor | Backend/services/companyRecommendation.service.js:227-229 | "Ready now" exactly from fit 70 on; otherwise the weeks are the ceiling of (70 - fit) / 5, between 1 and 14 |
| CompanyRecommendation.CompanyInterviews | Backend/services/companyRecommendation.service.js:211-213 | exactly the interviews aimed at the company, each one kept, with the newest first when it leads the input |
| CompanyRecommendation.CompanyInterviewsAppend | Backend/services/companyRecommendation.service.js:211-213 | `filter` keeps input order: selecting from a concatenation concatenates the selections |
| CompanyRecommendation.LastCompanyInterview | Backend/services/companyRecommendation.service.js:211-217 | an interview aimed at the company that closes the list is the last one kept, the oldest one that `improvement` reads |
| CompanyRecommendation.Improvement | Backend/services/companyRecommendation.service.js:216-218 | 0 with fewer than two interviews; otherwise the rounded difference between the newest and oldest scores |
| CompanyRecommendation.GetCompanyFitAnalysis | Backend/services/companyRecommendation.service.js:198-239 | as written: an unknown user is an error; an unknown company fails on `fit.weaknesses.length`; for a known company the interview count, the improvement (newest minus oldest score), the newest interview's date and the estimated preparation time are those of the company's interviews and the fit, and the focus areas are always the defaults |
| CompanyRecommendation.UnknownCompanyAnalysisFails | Backend/services/companyRecommendation.service.js:208-233 | the analysis of a company missing from the database is an error, not the degenerate fit |
| CompanyRecommendation.FocusAreasIgnoreWeaknesses | Backend/services/companyRecommendation.service.js:230-232 | a user weak in all three categories is still given only the default focus areas |
| CompanyRecommendation.GetCompanyFitAnalysisCorrected | Backend/services/companyRecommendation.service.js:198-239 | the intended analysis: every company is answered; the interview count, improvement, last interview date and preparation time are those of the company's interviews and the fit; readiness holds exactly from fit 70 on; each category is a focus area exactly when its gap exceeds 15 |
| BuddyMatchModel.BuddyMatch.constructor | Backend/models/BuddyMatch.model.js:3-82 | a new match is pending, unconnected, with no mock interviews or sessions, and last interaction now |
| BuddyMatchModel.UniqueOrderedPairs | Backend/models/BuddyMatch.model.js:200 | the unique index on (user1, user2): two matches with the same ordered pair are the same match |
| BuddyMatchModel.UnorderedImpliesOrdered | Backend/models/BuddyMatch.model.js:200 | a collection with one match per unordered pair also satisfies the (user1, user2) unique index |
| BuddyMatchModel.IndexAdmitsReversedPair | Backend/models/BuddyMatch.model.js:200 | the unique index alone admits (a, b) and (b, a) together, so uniqueness per pair is the service's duty |
| BuddyMatchModel.StudyGroup.constructor | Backend/models/BuddyMatch.model.js:85-176 | a new group is active, requires approval, and records its creator, members and capacity |
| BuddyMatchModel.MemberCount | Backend/models/BuddyMatch.model.js:179-181 | the count is 0 exactly when no user is a member |
| BuddyMatchModel.AvailableSlots | Backend/models/BuddyMatch.model.js:184-186 | slots remain exactly when the member count is below `maxMembers`, and never more than `maxMembers` |
| BuddyMatchModel.IsMember | Backend/models/BuddyMatch.model.js:189-191 | a user is a member exactly when the user is among the members' users |
| BuddyMatchModel.CountAndSlots | Backend/models/BuddyMatch.model.js:179-186 | memberCount plus availableSlots is maxMembers, slots remain exactly when the count is below the maximum, and any appended record raises the count by one and takes one slot |
| BuddyMatchModel.FirstRecord | Backend/models/BuddyMatch.model.js:189-197 | the first member record of a user exists exactly when the user is a member |
| BuddyMatchModel.IsAdmin | Backend/models/BuddyMatch.model.js:194-197 | only a member can be an admin |
| BuddyMatchModel.AppendRecord | Backend/models/BuddyMatch.model.js:189-197 | appending a newcomer's record makes them a member, keeps every other user's admin status, and makes them an admin exactly when the record's role is admin |
| BuddyMatching.NamedCompanies | Backend/services/buddyMatching.service.js:27-29 | exactly the non-empty target companies of the recent interviews |
| BuddyMatching.TargetCompanies | Backend/services/buddyMatching.service.js:27-29 | the same companies, each once |
| BuddyMatching.ConnectedUserIds | Backend/services/buddyMatching.service.js:72-81 | exactly the users on the other side of one of the user's matches |
| BuddyMatching.PartnerEitherSide | Backend/services/buddyMatching.service.js:72-81 | for distinct users, being partners is being paired in either order |
| BuddyMatching.CompanyScore | Backend/services/buddyMatching.service.js:88-89 | the company score is at least 0, at most 50, and 50 exactly when every target company is shared |
| BuddyMatching.SkillScore | Backend/services/buddyMatching.service.js:92-94 | the skill score lies in [0, 50], is 50 exactly at equal averages, and drops one point per point of difference |
| BuddyMatching.MatchScore | Backend/services/buddyMatching.service.js:96 | the match score is an integer in [0, 100] |
| BuddyMatching.MatchScoreMonotone | Backend/services/buddyMatching.service.js:88-96 | more shared companies and a closer skill level never lower the match score |
| BuddyMatching.PerfectMatch | Backend/services/buddyMatching.service.js:88-96 | sharing every target company at the same average scores 100 |
| BuddyMatching.UserAverage | Backend/services/buddyMatching.service.js:91 | 0 with no interviews, a case the service has already returned on; otherwise, with `BuddyMatching.UserAverageWithin`, the mean of the scores |
| BuddyMatching.UserAverageWithin | Backend/services/buddyMatching.service.js:91 | the average lies within any bounds on the recent interviews' scores (missing scores counting as 0) |
| BuddyMatching.Scores | Backend/services/buddyMatching.service.js:92 | each recent interview contributes its score, or 0 |
| BuddyMatching.ScoreCandidate | Backend/services/buddyMatching.service.js:86-105 | the common companies are exactly the candidate's companies that are targets; the score is the match score of their count; the rest is copied, with avgScore rounded |
| BuddyMatching.Candidates | Backend/services/buddyMatching.service.js:84-106 | every aggregated user not already connected is scored, and nothing else is |
| BuddyMatching.OtherUsers | Backend/services/buddyMatching.service.js:42-45 | exactly the rows of users other than the searcher, the exclusion the `$ne` is meant to make; rows of distinct companies stay so |
| BuddyMatching.CandidatesListed | Backend/services/buddyMatching.service.js:72-105 | every candidate is from the aggregation, not connected, scored in [0, 100] and sharing only target companies |
| BuddyMatching.Top | Backend/services/buddyMatching.service.js:107-108 | sort then `slice(0, 20)`: min(20, n) candidates, sorted by match score, drawn from the input without repetition (a sub-multiset of it) |
| BuddyMatching.TopKeepsBest | Backend/services/buddyMatching.service.js:107-108 | a candidate is kept, or 20 are kept and each scores at least as high |
| BuddyMatching.CandidatesEligible | Backend/services/buddyMatching.service.js:42-45 | scoring only the other users' rows gives candidates that are other users from the aggregation, not connected, scored in [0, 100] and sharing only target companies |
| BuddyMatching.FindBuddies | Backend/services/buddyMatching.service.js:16-118 | as written: an unknown user is an error; no target companies gives the "complete some interviews" answer; otherwise at most 20 listed buddies (the searcher possibly among them) sorted by match score, with totalFound their number; each buddy is the scored candidate of an unconnected aggregation row (its common companies, match score, interview count and rounded average), and the buddies are a sub-multiset of the scored candidates, so no candidate is listed twice |
| BuddyMatching.FindBuddiesKeepsBest | Backend/services/buddyMatching.service.js:107-108 | every eligible candidate is returned, or 20 buddies each scoring at least as high are |
| BuddyMatching.SearcherListedAsOwnBuddy | Backend/services/buddyMatching.service.js:42-45 | as written, a searcher whose own row is in an aggregation result of fewer than 20 rows, and who has no match with themselves, is among their own buddies |
| BuddyMatching.FindBuddiesCorrected | Backend/services/buddyMatching.service.js:16-118 | the intended search: the same answers, with every buddy eligible and so another user, each the scored candidate of another user's unconnected row, and the buddies a sub-multiset of those candidates |
| BuddyMatching.TopOfOthers | Backend/services/buddyMatching.service.js:84-108 | the 20 best candidates among the other users, sorted, each eligible and the scored candidate of another user's unconnected row, drawn from those candidates without repetition |
| BuddyMatching.TopOfOthersScored | Backend/services/buddyMatching.service.js:84-108 | every one of the 20 best candidates among the other users is eligible and the scored candidate of another user's unconnected row |
| BuddyMatching.FindBuddiesCorrectedKeepsBest | Backend/services/buddyMatching.service.js:107-108 | in the corrected search an eligible candidate is returned, or 20 buddies each scoring at least as high are |
| BuddyMatching.FindPair | Backend/services/buddyMatching.service.js:130-135 | the index of a match pairing the two users in either order, or None exactly when there is none |
| BuddyMatching.NewPairKeepsUnique | Backend/services/buddyMatching.service.js:130-157 | adding a match for a pair not yet present keeps one match per pair |
| BuddyMatching.ConnectWithBuddy | Backend/services/buddyMatching.service.js:127-171 | a pending match between the two is accepted and stamped; any other existing match is "Already connected" and left unchanged; otherwise a new pending match is created (a score outside [0, 100] fails validation), keeping one match per pair; other matches are untouched |
| BuddyMatching.DurationOrDefault | Backend/services/buddyMatching.service.js:241 | `duration \|\| 60`: 60 for a missing or zero duration, else the duration |
| BuddyMatching.ScheduleMockInterview | Backend/services/buddyMatching.service.js:228-254 | a missing match or a match that is not accepted is an error and changes nothing; otherwise exactly one uncompleted mock interview is appended and lastInteraction becomes now |
| BuddyMatching.MaxMembersOrDefault | Backend/services/buddyMatching.service.js:276 | `maxMembers \|\| 10` |
| BuddyMatching.CreateStudyGroup | Backend/services/buddyMatching.service.js:262-293 | a missing or empty name fails validation; otherwise a new group whose only member is the creator, as admin |
| BuddyMatching.AvailableGroups | Backend/services/buddyMatching.service.js:318-320 | with onlyAvailable, exactly the groups below capacity; without it, all groups |
| BuddyMatching.AvailableGroupsAppend | Backend/services/buddyMatching.service.js:318-320 | the filter keeps the groups' order: filtering a concatenation concatenates the filtered parts |
| BuddyMatching.JoinStudyGroup | Backend/services/buddyMatching.service.js:335-368 | a missing group, an existing member or a full group is an error and changes nothing; otherwise exactly one member record is appended, the count rises by one within capacity, and nobody's admin status changes |
| InterviewCalendarModel.InterviewCalendar.constructor | Backend/models/InterviewCalendar.model.js:3-90 | a new calendar is active, pending, readiness 0, notifications on with reminders 7/3/1, no daily practice, preparation starting now |
| InterviewCalendarModel.DaysRemaining | Backend/models/InterviewCalendar.model.js:93-98 | the days remaining are the ceiling of the time left in days |
| InterviewCalendarModel.PreparationDays | Backend/models/InterviewCalendar.model.js:101-105 | the preparation days are the ceiling of the preparation span in days |
| InterviewCalendarModel.DaysRemainingPositive | Backend/models/InterviewCalendar.model.js:93-98 | at least one day remains exactly while the interview is in the future, and the count never grows as time passes |
| InterviewCalendarModel.CompletedCount | Backend/models/InterviewCalendar.model.js:110 | the number of completed milestones is at most their number, and equal exactly when all are completed |
| InterviewCalendarModel.Progress | Backend/models/InterviewCalendar.model.js:108-112 | progress lies in [0, 100]; it is 0 with no milestones or none completed and 100 when all are completed |
| InterviewCalendarModel.Percent | Backend/models/InterviewCalendar.model.js:111 | the rounded percentage of c out of n lies in [0, 100], is 0 for none and 100 for all |
| InterviewCalendarModel.PercentMonotone | Backend/models/InterviewCalendar.model.js:111 | more completed out of the same number never gives a smaller rounded percentage |
| InterviewCalendarModel.PercentFull | Backend/models/InterviewCalendar.model.js:111 | below 200, a rounded percentage of 100 means the whole |
| InterviewCalendarModel.ProgressFullMeansAllCompleted | Backend/models/InterviewCalendar.model.js:108-112 | with fewer than 200 milestones, progress 100 means all are completed |
| InterviewCalendarModel.ProgressRoundsUpAt200 | Backend/models/InterviewCalendar.model.js:111 | with 200 milestones and 199 completed, progress already reads 100 with one open |
| InterviewCalendarModel.CompletingRaisesCount | Backend/models/InterviewCalendar.model.js:110 | completing a milestone raises the completed count by one if it was open, else leaves it |
| InterviewCalendarModel.ProgressMonotone | Backend/models/InterviewCalendar.model.js:108-112 | completing a milestone never lowers progress |
| InterviewCalendarModel.NextMilestone | Backend/models/InterviewCalendar.model.js:115-119 | None exactly when all milestones are completed; otherwise an open milestone whose target date is the earliest among the open ones |
| InterviewCalendarModel.FirstOpenIsEarliest | Backend/models/InterviewCalendar.model.js:116-118 | the head of the open milestones sorted by target date is an open milestone of the calendar with the earliest target date among the open ones |
| CalendarService.MilestonePlan | Backend/services/calendarService.js:61-123 | 4 milestones from 30 days on, 3 from 7, else 2; the last is "Interview Day Prep" on the day before the interview; none starts completed |
| CalendarService.PlanShape | Backend/services/calendarService.js:61-123 | the plan has 4, 3 or 2 milestones for at least 30, at least 7, or fewer days; none is completed; the last is "Interview Day Prep" one day before the interview; progress starts at 0 |
| CalendarService.PlanOrdered | Backend/services/calendarService.js:65-120 | from 4 days on, milestone dates strictly increase; from 3 days on, none falls after the final preparation day; at 3 days the first two share a date |
| CalendarService.CrashCourseAfterFinalDay | Backend/services/calendarService.js:106-120 | with at most 2 days, the crash course is due after the final preparation day |
| CalendarService.GenerateMilestones | Backend/services/calendarService.js:61-123 | the pushes build exactly the milestone plan |
| CalendarService.Bucket | Backend/services/calendarService.js:153-181 | band 0 exactly above 14 days, band 1 from 8 to 14, band 2 from 4 to 7, band 3 at 3 or fewer |
| CalendarService.BucketAntitone | Backend/services/calendarService.js:153-181 | fewer days never give an earlier band; the band changes between 15 and 14, 8 and 7, and 4 and 3 days |
| CalendarService.DailyRecommendations | Backend/services/calendarService.js:153-181 | each day gets four recommendations |
| CalendarService.RecommendationsByBucket | Backend/services/calendarService.js:153-181 | two day counts get the same recommendations exactly when they fall in the same band |
| CalendarService.WithTodayEntry | Backend/services/calendarService.js:142-187 | afterwards there is an entry for today, and earlier entries are kept with at most one added |
| CalendarService.WithTodayEntryIdempotent | Backend/services/calendarService.js:142-148 | generating twice on the same day adds nothing the second time |
| CalendarService.WithTodayEntryKeepsOnePerDay | Backend/services/calendarService.js:142-187 | one entry per day is preserved |
| CalendarService.WithTodayEntryAppends | Backend/services/calendarService.js:183-187 | without an entry for today, exactly one open entry with today's recommendations is appended |
| CalendarService.GenerateDailyRecommendations | Backend/services/calendarService.js:130-195 | a missing calendar is an error; otherwise the daily practice gains today's entry if it lacked one, and milestones are unchanged |
| CalendarService.Views | Backend/services/calendarService.js:220 | one response object per calendar, in order |
| CalendarService.StaleViewLacksToday | Backend/services/calendarService.js:210-220 | refreshing a practice list without today's entry changes it, so a copy read before the refresh differs from the stored one |
| CalendarService.ParseInterviewType | Backend/models/InterviewCalendar.model.js:21-25 | a missing type defaults to technical; a string is accepted exactly when it is one of the four enum values, each mapped to its own type |
| CalendarService.ParseInterviewTypeNames | Backend/models/InterviewCalendar.model.js:21-25 | every type is accepted under its own enum string, and an accepted string is the name of the type it gives |
| CalendarService.ValidRequest | Backend/models/InterviewCalendar.model.js:4-25 | a valid request's interview type is absent or one of the four enum values; with the type left out, a request is valid exactly when target company and role are non-empty |
| CalendarService.NewCalendar | Backend/services/calendarService.js:16-40 | a date not in the future is an error; a request missing a required field fails validation; otherwise a new calendar with at least one preparation day and the milestone plan for those days |
| CalendarService.CreateInterviewCalendar | Backend/services/calendarService.js:16-52 | as written: the stored calendar gets today's entry, but the returned calendar shows no daily practice |
| CalendarService.CreateInterviewCalendarCorrected | Backend/services/calendarService.js:16-52 | the intended answer: the returned calendar shows exactly the stored daily practice, with today's entry |
| CalendarService.RefreshActive | Backend/services/calendarService.js:213-218 | every active calendar gains today's entry, and inactive ones are unchanged |
| CalendarService.GetUserCalendars | Backend/services/calendarService.js:203-225 | as written: the stored active calendars gain today's entry, but the response is the calendars as first read |
| CalendarService.GetUserCalendarsCorrected | Backend/services/calendarService.js:203-225 | the intended answer: the response shows each calendar after refresh, so every active one has today's entry |
| CalendarService.UpdateMilestone | Backend/services/calendarService.js:234-259 | a missing calendar or milestone is an error and changes nothing; otherwise only that milestone's completion changes, stamped with now exactly when it is completed |
| CalendarService.CompleteDailyPractice | Backend/services/calendarService.js:268-289 | a missing calendar or entry is an error and changes nothing; otherwise only that entry becomes completed with the practices done |
| CalendarService.PreparationTimeline | Backend/services/calendarService.js:296-319 | a missing calendar is an error; otherwise daysRemaining, preparationDays, progress and nextMilestone are the calendar's own virtuals and methods (progress in [0, 100], the next milestone the earliest open one), with all milestones, the readiness score and the last seven practice entries |
| CalendarService.TimelineOf | Backend/services/calendarService.js:303-314 | the timeline fields are the days remaining, preparation days, progress and next milestone of the calendar's fields, and the last seven practice entries in order |
| RealQuestionModel.RealQuestion.constructor | Backend/models/RealQuestion.model.js:3-133 | a new question is pending, unverified, unreported, with no votes, asked once, last asked now |
| RealQuestionModel.RealQuestion.AddVote | Backend/models/RealQuestion.model.js:155-172 | the vote lists become the result of casting the vote, and nothing else changes |
| RealQuestionModel.HasUserVoted | Backend/models/RealQuestion.model.js:148-152 | reports, for each side, whether the user has a vote there |
| RealQuestionModel.VotesBy | Backend/models/RealQuestion.model.js:148-152 | a user's votes are absent exactly when the user has not voted |
| RealQuestionModel.Without | Backend/models/RealQuestion.model.js:159-164 | the `filter` that removes a user's votes leaves none of them |
| RealQuestionModel.WithoutKeepsOthers | Backend/models/RealQuestion.model.js:159-164 | removing one user's votes keeps every other user's votes |
| RealQuestionModel.CastVote | Backend/models/RealQuestion.model.js:155-172 | each list grows by at most one entry; the voter has no vote left on a side they did not vote for, so any type other than up or down removes their votes |
| RealQuestionModel.CastVoteKeepsOthers | Backend/models/RealQuestion.model.js:155-172 | a vote never changes another user's votes |
| RealQuestionModel.CastVoteOutcome | Backend/models/RealQuestion.model.js:155-172 | afterwards the voter has one vote on the chosen side exactly when they had none there before, none on the other side, and never votes on both sides |
| RealQuestionModel.CastVoteTwiceRetracts | Backend/models/RealQuestion.model.js:159-171 | from no vote, the same vote cast twice leaves no vote |
| RealQuestionModel.VoteScore | Backend/models/RealQuestion.model.js:136-138 | the vote score lies between minus the downvotes and the upvotes; `CastVoteScore` and `VoteScoreSteps` relate it to the votes cast |
| RealQuestionModel.WithoutLength | Backend/models/RealQuestion.model.js:159-164 | filtering out a user removes exactly that user's entries |
| RealQuestionModel.CastVoteScore | Backend/models/RealQuestion.model.js:136-172 | a vote changes the score by the withdrawn entries and by the one new entry, if any |
| RealQuestionModel.VoteScoreSteps | Backend/models/RealQuestion.model.js:136-172 | with at most one entry per user: a first vote moves the score by 1, a switch by 2, and a repeated vote retracts it |
| RealQuestionModel.RecencyBonus | Backend/models/RealQuestion.model.js:143 | the bonus is non-negative, exactly 30 within the first day, 0 after 30 days, and at most 30 when `lastAskedDate` is not in the future |
| RealQuestionModel.RecencyBonusDecreases | Backend/models/RealQuestion.model.js:143 | the bonus never grows as time passes |
| RealQuestionModel.PopularityScore | Backend/models/RealQuestion.model.js:141-145 | popularity is 10 × vote score + 5 × times asked, plus a recency bonus of 0 to 30 |
| QuestionDatabase.OrDefault | Backend/services/questionDatabase.service.js:39-45 | `x \|\| default` on strings |
| QuestionDatabase.OrEmpty | Backend/services/questionDatabase.service.js:44-48 | `x \|\| []` on lists |
| QuestionDatabase.ValidSubmission | Backend/models/RealQuestion.model.js:4-108 | with level, round, location and difficulty left out, a submission is valid exactly when question, company and role are non-empty, the question type is in its enum and the interview date is given: the defaults never fail validation |
| QuestionDatabase.SubmitQuestion | Backend/services/questionDatabase.service.js:15-65 | a submission missing a required field fails validation; otherwise a new pending, unverified question with the given fields (expected duration and notes included), the schema defaults, and both submittedAt and lastAskedDate set to the submission time |
| QuestionDatabase.MinimalSubmissionDefaults | Backend/services/questionDatabase.service.js:39-45 | the defaults are mid, technical-1, remote and medium, each one allowed by its schema enum |
| QuestionDatabase.VerifiedAfterVote | Backend/services/questionDatabase.service.js:86-90 | a question is verified after a vote exactly when it was verified before or has reached 5 upvotes |
| QuestionDatabase.StatusAfterVote | Backend/services/questionDatabase.service.js:86-90 | auto-verification at 5 upvotes makes an unverified question active; otherwise the status stays |
| QuestionDatabase.VoteOnQuestion | Backend/services/questionDatabase.service.js:74-97 | a missing question is an error; otherwise the vote is cast and verified/status follow the auto-verification rule |
| QuestionDatabase.ReportQuestion | Backend/services/questionDatabase.service.js:209-231 | a missing question is an error; otherwise it is flagged, the count rises by one, and at 3 reports it returns to pending |
| QuestionDatabase.VerifyQuestion | Backend/services/questionDatabase.service.js:239-263 | a missing question is an error; otherwise it becomes verified, by the admin, now, and active |
| QuestionDatabase.CountAsked | Backend/services/questionDatabase.service.js:171-177 | a bucket count never exceeds the number of questions |
| QuestionDatabase.BucketsPartition | Backend/services/questionDatabase.service.js:171-177 | the very-common, common, occasional and rare buckets partition the questions |
| QuestionDatabase.Recent | Backend/services/questionDatabase.service.js:183-187 | exactly the questions asked in the last 30 days |
| QuestionDatabase.RecentAppend | Backend/services/questionDatabase.service.js:185-187 | `filter` keeps the query's order: the recent questions of a concatenation are the concatenation of the recent questions |
| QuestionDatabase.Frequency | Backend/services/questionDatabase.service.js:162-200 | the report counts all questions; its buckets are the four range counts and add up to the total; mostAsked is the first ten; recentCount is the number of recent questions and recentQuestions are their first ten |
| QuestionDatabase.MostAskedAreMostAsked | Backend/services/questionDatabase.service.js:164-180 | over questions sorted by times asked, every mostAsked entry was asked at least as often as any question left out |
| QuestionDatabase.CountVerified | Backend/services/questionDatabase.service.js:307-312 | the verified count is at most the total |
| QuestionDatabase.CountPending | Backend/services/questionDatabase.service.js:307-312 | the pending count is at most the total |
| QuestionDatabase.TotalUpvotes | Backend/services/questionDatabase.service.js:307-312 | the upvote total is 0 without upvotes and bounds each question's upvotes; with `TotalUpvotesAppend` and `TotalUpvotesSingle`, it is the sum of the upvote list lengths |
| QuestionDatabase.TotalUpvotesAppend | Backend/services/questionDatabase.service.js:311 | the total over a concatenation is the sum of the totals |
| QuestionDatabase.TotalUpvotesSingle | Backend/services/questionDatabase.service.js:311 | one question contributes the length of its upvote list |
| QuestionDatabase.CountVerifiedAppend | Backend/services/questionDatabase.service.js:309 | the verified count over a concatenation is the sum of the counts |
| QuestionDatabase.CountPendingAppend | Backend/services/questionDatabase.service.js:310 | the pending count over a concatenation is the sum of the counts |
| QuestionDatabase.GetUserStats | Backend/services/questionDatabase.service.js:302-319 | the statistics are the question count, the verified and pending counts and the upvote total, with verified and pending within the total |
| QuestionDatabase.UserStatsAppend | Backend/services/questionDatabase.service.js:307-312 | the statistics of a concatenation are the sums of the parts' statistics |
| QuestionDatabase.UserStatsSingle | Backend/services/questionDatabase.service.js:307-312 | one question counts 1, 1 if verified, 1 if pending, and its number of upvotes |
| QuestionDatabase.TotalUpvotesAtLeast | Backend/services/questionDatabase.service.js:311 | when every question holds at least k upvotes, the upvote total is at least k per question |

## Left out

- Experience-point awards (`User.findByIdAndUpdate` with `$inc`) after connecting, creating or joining a group, submitting and verifying: the `User` model is not part of this model.
- `findStudyGroups`: its query, `populate`, sort and limit are not modelled; its `onlyAvailable` filter is (`BuddyMatching.AvailableGroups`).
- The query-only operations are not in the modelled core: `getUserBuddies`, `getUserStudyGroups`, `getQuestionsByCompany`, `getTrendingQuestions`, `searchQuestions` and `deleteCalendar`.
- Database queries are not modelled. `populate`, the `$match`/`$group`/`$lookup`/`$limit 50` aggregation, `$text` search, and the `sort`/`limit` of the interview queries are inputs. `BuddyMatching.FromAggregation` states the one guarantee of the buddy aggregation that the model relies on: the `$addToSet` companies are distinct. The searcher's own rows are not assumed to be excluded (see Findings).
- The `Interview`, `Company` and `User` models are not part of this model. Their fields appear only as the records the services read.
- Floating point is modelled as exact reals. NaN and Infinity results are not modelled: an `improvement` with a missing score is NaN, which `CompanyRecommendation.Improvement` reports as None. A `null` buddy `avgScore` (no interview of that user has a score) acts as 0 in the JavaScript subtraction and in `Math.round`, and is given as 0.
- The clock:
  - the several `new Date()` calls of one request are one `now`;
  - `toDateString()` day equality is an integer day `today`, with no time zone;
  - `setDate(getDate() - 30)` is 30 × 24 hours;
  - invalid `Date` inputs are not modelled.
- Database failures, concurrent requests and races between the find and the save are not modelled.
- String handling: the question text's `trim`, and comparing ObjectIds by `toString()`, where ids are naturals.
- A missing `buddyId` (`undefined`) in `connectWithBuddy` is not modelled; both ids are always given.
- Identity fields: the `user: buddy.userInfo` field of a buddy candidate is not modelled. The `_id` of subdocuments is their array position.
- Message texts of the advice strings and milestone descriptions are kept only where a contract refers to them.
- InterviewCalendarModel.ProgressFullMeansAllCompleted: holds only below 200 milestones. At 200 or more, rounding lets progress read 100 with a milestone still open (`InterviewCalendarModel.ProgressRoundsUpAt200`).
- InterviewCalendarModel.NextMilestone: does not state which of several open milestones sharing the earliest date is returned.
- CalendarService.RefreshActive: requires the calendars to be distinct documents, as `Calendar.find` returns them; the same for `CalendarService.GetUserCalendars` and `CalendarService.GetUserCalendarsCorrected`.
- BuddyMatching.FindBuddies: states that each buddy is the scored candidate of an unconnected row, that no candidate is listed more often than it was scored, the order, the bound of 20 and (with `BuddyMatching.FindBuddiesKeepsBest`) that the best are kept. It does not state which of several equally scored candidates fill the last places; the same holds for `BuddyMatching.FindBuddiesCorrected`.
- RealQuestionModel.PopularityScore: the bounds are stated only when `lastAskedDate` is not in the future.
- RealQuestionModel.RecencyBonus: the bound of 30 is stated only when `lastAskedDate` is not in the future; a future date gives a larger bonus, as `30 - daysSinceAsked` does.

## Findings

| source | as written | input that shows it | evidently intended | confidence | as-written member | corrected member |
|---|---|---|---|---|---|---|
| Backend/services/companyRecommendation.service.js:208-233 | for a company missing from the database, `calculateCompanyFit` returns a fit without `weaknesses`, and `fit.weaknesses.length` throws | any user with a `companyName` that is not in the company collection | answer with the "Company data not available" fit and a default detailed analysis | high, not executed | CompanyRecommendation.UnknownCompanyAnalysisFails | CompanyRecommendation.GetCompanyFitAnalysisCorrected |
| Backend/services/companyRecommendation.service.js:230-232 | `keyFocusAreas` reads `fit.weaknesses`, which `calculateCompanyFit` always returns empty, so the defaults are always given | one technical interview for Acme scoring 0 against a bar of 100 in every category | the focus areas are the weak categories (gap above 15) | medium, not executed | CompanyRecommendation.FocusAreasIgnoreWeaknesses | CompanyRecommendation.GetCompanyFitAnalysisCorrected |
| Backend/services/calendarService.js:210-220 | the response holds the documents read before `generateDailyRecommendations` updates separately loaded copies | an active calendar with no daily-practice entry for today | the response shows today's entry | medium, not executed | CalendarService.GetUserCalendars | CalendarService.GetUserCalendarsCorrected |
| Backend/services/calendarService.js:42-47 | the initial recommendations are saved to a reloaded copy, and the unchanged original is returned | any valid calendar creation | the returned calendar shows today's entry | medium, not executed | CalendarService.CreateInterviewCalendar | CalendarService.CreateInterviewCalendarCorrected |
| Backend/services/buddyMatching.service.js:42-45 | `user: { $ne: userId }` compares the stored ObjectIds with the id string the route passes (`req.user.id`); an aggregation pipeline does not cast it, so no row is excluded and the searcher's own row is scored | a user with interviews for one of their target companies, an aggregation result of fewer than 20 rows, and no match with themselves | the searcher is never listed as their own buddy | medium, not executed | BuddyMatching.SearcherListedAsOwnBuddy | BuddyMatching.FindBuddiesCorrected |
