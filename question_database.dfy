/** Backend/services/questionDatabase.service.js: submitting a question, voting with automatic
    verification, reporting, administrator verification, the frequency statistics of a company's
    verified questions, and a user's submission statistics. Query results are inputs. */
module QuestionDatabase {
  import opened Wrappers
  import opened Numeric
  import opened Collections
  import opened Sorting
  import opened RealQuestionModel

  const QuestionNotFound := "Question not found"
  const QuestionValidationFailed := "RealQuestion validation failed"

  /** Upvotes that verify a question on their own. */
  const AutoVerifyUpvotes := 5
  /** Reports that send a question back to review. */
  const ReportsForReview := 3

  // ---- submitQuestion ----

  datatype QuestionRequest = QuestionRequest(
    question: Option<string>,
    questionType: Option<string>,
    company: Option<string>,
    role: Option<string>,
    level: Option<string>,
    interviewRound: Option<string>,
    interviewDate: Option<Time>,
    location: Option<string>,
    tags: Option<seq<string>>,
    difficulty: Option<string>,
    expectedDuration: Option<real>,
    followUpQuestions: Option<seq<string>>,
    hints: Option<seq<string>>,
    notes: Option<string>)

  /** `s || d` for a string: an absent or empty value gives the default. */
  function OrDefault(s: Option<string>, d: string): (r: string)
    ensures s.None? || s == Some("") ==> r == d
    ensures s.Some? && s.value != "" ==> r == s.value
  {
    if s.Some? && s.value != "" then s.value else d
  }

  /** `xs || []` for an array: only an absent array gives the empty default. */
  function OrEmpty(xs: Option<seq<string>>): (r: seq<string>)
    ensures xs.None? ==> r == []
    ensures xs.Some? ==> r == xs.value
  {
    if xs.Some? then xs.value else []
  }

  /** A required string: present and non-empty. */
  predicate Given(s: Option<string>)
  {
    s.Some? && s.value != ""
  }

  /** Schema validation of the document `submitQuestion` builds. */
  predicate ValidSubmission(req: QuestionRequest)
    ensures req.level.None? && req.interviewRound.None? && req.location.None? && req.difficulty.None? ==>
              (ValidSubmission(req) <==>
                 Given(req.question) && Given(req.company) && Given(req.role)
                 && req.questionType.Some? && req.questionType.value in QuestionTypes
                 && req.interviewDate.Some?)
  {
    Given(req.question) && Given(req.company) && Given(req.role)
    && req.questionType.Some? && req.questionType.value in QuestionTypes
    && req.interviewDate.Some?
    && OrDefault(req.level, DefaultLevel) in Levels
    && OrDefault(req.interviewRound, DefaultRound) in InterviewRounds
    && OrDefault(req.location, DefaultLocation) in Locations
    && OrDefault(req.difficulty, DefaultDifficulty) in Difficulties
  }

  /** `submitQuestion`: a valid submission becomes a new, unverified question awaiting review,
      with the documented defaults for what the request leaves out. */
  method SubmitQuestion(userId: UserId, req: QuestionRequest, now: Time) returns (r: Result<RealQuestion>)
    ensures !ValidSubmission(req) ==> r == Err(QuestionValidationFailed)
    ensures ValidSubmission(req) ==>
              r.Ok? && fresh(r.value)
              && var q := r.value;
                 q.status == "pending" && !q.verified && q.upvotes == [] && q.downvotes == []
                 && q.submittedBy == userId && q.question == req.question.value
                 && q.questionType == req.questionType.value && q.company == req.company.value
                 && q.role == req.role.value && q.interviewDate == req.interviewDate.value
                 && q.level == OrDefault(req.level, DefaultLevel)
                 && q.interviewRound == OrDefault(req.interviewRound, DefaultRound)
                 && q.location == OrDefault(req.location, DefaultLocation)
                 && q.difficulty == OrDefault(req.difficulty, DefaultDifficulty)
                 && q.tags == OrEmpty(req.tags) && q.hints == OrEmpty(req.hints)
                 && q.followUpQuestions == OrEmpty(req.followUpQuestions)
                 && q.timesAsked == 1 && q.reportCount == 0 && !q.reported
                 && q.expectedDuration == req.expectedDuration && q.notes == req.notes
                 && q.submittedAt == now && q.lastAskedDate == now
  {
    if !ValidSubmission(req) {
      return Err(QuestionValidationFailed);
    }
    var q := new RealQuestion(req.question.value, req.questionType.value, req.company.value, req.role.value,
                              OrDefault(req.level, DefaultLevel), OrDefault(req.interviewRound, DefaultRound),
                              req.interviewDate.value, OrDefault(req.location, DefaultLocation), userId,
                              OrEmpty(req.tags), OrDefault(req.difficulty, DefaultDifficulty), req.expectedDuration,
                              OrEmpty(req.followUpQuestions), OrEmpty(req.hints), req.notes, now);
    return Ok(q);
  }

  /** The defaults of a minimal submission. */
  lemma MinimalSubmissionDefaults(req: QuestionRequest)
    requires req.level.None? && req.interviewRound.None? && req.location.None? && req.difficulty.None?
    ensures OrDefault(req.level, DefaultLevel) == "mid" && OrDefault(req.interviewRound, DefaultRound) == "technical-1"
    ensures OrDefault(req.location, DefaultLocation) == "remote" && OrDefault(req.difficulty, DefaultDifficulty) == "medium"
    ensures DefaultLevel in Levels && DefaultRound in InterviewRounds
    ensures DefaultLocation in Locations && DefaultDifficulty in Difficulties
  {
  }

  // ---- voteOnQuestion ----

  /** The verification flag after a vote: set once there are enough upvotes, never cleared. */
  function VerifiedAfterVote(wasVerified: bool, upvotes: nat): (r: bool)
    ensures wasVerified ==> r
    ensures r <==> wasVerified || upvotes >= AutoVerifyUpvotes
  {
    wasVerified || upvotes >= AutoVerifyUpvotes
  }

  /** The status after a vote: active when this vote verifies the question, else unchanged. */
  function StatusAfterVote(wasVerified: bool, upvotes: nat, status: string): (r: string)
    ensures wasVerified ==> r == status
    ensures !wasVerified && upvotes >= AutoVerifyUpvotes ==> r == "active"
    ensures !wasVerified && upvotes < AutoVerifyUpvotes ==> r == status
  {
    if !wasVerified && upvotes >= AutoVerifyUpvotes then "active" else status
  }

  /** `voteOnQuestion`. */
  method VoteOnQuestion(q: RealQuestion?, userId: UserId, voteType: string, now: Time) returns (r: Result<RealQuestion>)
    modifies q
    ensures q == null ==> r == Err(QuestionNotFound)
    ensures q != null ==>
              r == Ok(q)
              && Ballot(q.upvotes, q.downvotes) == CastVote(old(Ballot(q.upvotes, q.downvotes)), userId, voteType, now)
              && q.verified == VerifiedAfterVote(old(q.verified), |q.upvotes|)
              && q.status == StatusAfterVote(old(q.verified), |q.upvotes|, old(q.status))
              && q.reportCount == old(q.reportCount) && q.reported == old(q.reported)
              && q.verifiedBy == old(q.verifiedBy) && q.verifiedAt == old(q.verifiedAt)
  {
    if q == null {
      return Err(QuestionNotFound);
    }
    q.AddVote(userId, voteType, now);
    if |q.upvotes| >= AutoVerifyUpvotes && !q.verified {
      q.verified := true;
      q.status := "active";
    }
    return Ok(q);
  }

  // ---- reportQuestion ----

  /** `reportQuestion`: one more report; from the third on the question goes back to review. */
  method ReportQuestion(q: RealQuestion?, userId: UserId, reason: string) returns (r: Result<RealQuestion>)
    modifies q
    ensures q == null ==> r == Err(QuestionNotFound)
    ensures q != null ==>
              r == Ok(q) && q.reported && q.reportCount == old(q.reportCount) + 1
              && q.status == (if q.reportCount >= ReportsForReview then "pending" else old(q.status))
              && q.verified == old(q.verified) && q.upvotes == old(q.upvotes) && q.downvotes == old(q.downvotes)
              && q.verifiedBy == old(q.verifiedBy) && q.verifiedAt == old(q.verifiedAt)
  {
    if q == null {
      return Err(QuestionNotFound);
    }
    q.reported := true;
    q.reportCount := q.reportCount + 1;
    if q.reportCount >= ReportsForReview {
      q.status := "pending";
    }
    return Ok(q);
  }

  // ---- verifyQuestion ----

  /** `verifyQuestion`: verified by the administrator at `now`, and active. */
  method VerifyQuestion(q: RealQuestion?, adminId: UserId, now: Time) returns (r: Result<RealQuestion>)
    modifies q
    ensures q == null ==> r == Err(QuestionNotFound)
    ensures q != null ==>
              r == Ok(q) && q.verified && q.verifiedBy == Some(adminId) && q.verifiedAt == Some(now)
              && q.status == "active"
              && q.upvotes == old(q.upvotes) && q.downvotes == old(q.downvotes)
              && q.reported == old(q.reported) && q.reportCount == old(q.reportCount)
  {
    if q == null {
      return Err(QuestionNotFound);
    }
    q.verified := true;
    q.verifiedBy := Some(adminId);
    q.verifiedAt := Some(now);
    q.status := "active";
    return Ok(q);
  }

  // ---- getQuestionFrequency ----

  /** `questions.filter(q => lo <= q.timesAsked && q.timesAsked < hi).length`, where an absent
      bound is no bound. */
  function CountAsked(qs: seq<RealQuestion>, lo: Option<int>, hi: Option<int>): (r: nat)
    ensures r <= |qs|
  {
    if |qs| == 0 then 0
    else
      var inRange := (lo.None? || lo.value <= qs[0].timesAsked) && (hi.None? || qs[0].timesAsked < hi.value);
      (if inRange then 1 else 0) + CountAsked(qs[1..], lo, hi)
  }

  /** The four buckets (at least 10, 5 to 9, 2 to 4, below 2) partition the questions. */
  lemma {:induction false} BucketsPartition(qs: seq<RealQuestion>)
    ensures CountAsked(qs, Some(10), None) + CountAsked(qs, Some(5), Some(10))
            + CountAsked(qs, Some(2), Some(5)) + CountAsked(qs, None, Some(2)) == |qs|
  {
    if |qs| > 0 {
      BucketsPartition(qs[1..]);
    }
  }

  datatype FrequencyDistribution = FrequencyDistribution(veryCommon: nat, common: nat, occasional: nat, rare: nat)

  datatype FrequencyReport = FrequencyReport(
    totalQuestions: nat,
    frequencyDistribution: FrequencyDistribution,
    mostAsked: seq<RealQuestion>,
    recentCount: nat,
    recentQuestions: seq<RealQuestion>)

  /** Asked within the 30 days before `now`. */
  predicate RecentlyAsked(q: RealQuestion, now: Time)
  {
    q.lastAskedDate >= now - 30 * DAY_MS
  }

  function Recent(qs: seq<RealQuestion>, now: Time): (r: seq<RealQuestion>)
    ensures |r| <= |qs|
    ensures forall i :: 0 <= i < |r| ==> r[i] in qs && RecentlyAsked(r[i], now)
    ensures forall i :: 0 <= i < |qs| && RecentlyAsked(qs[i], now) ==> qs[i] in r
  {
    if |qs| == 0 then []
    else
      var rest := Recent(qs[1..], now);
      assert forall i :: 0 < i < |qs| ==> qs[i] == qs[1..][i - 1];
      if RecentlyAsked(qs[0], now) then
        var r := [qs[0]] + rest;
        assert forall i :: 0 < i < |r| ==> r[i] == rest[i - 1];
        r
      else rest
  }

  /** The recent questions keep the query's order: selecting from a concatenation concatenates
      the selections. */
  lemma {:induction false} RecentAppend(xs: seq<RealQuestion>, ys: seq<RealQuestion>, now: Time)
    ensures Recent(xs + ys, now) == Recent(xs, now) + Recent(ys, now)
  {
    if |xs| > 0 {
      assert (xs + ys)[1..] == xs[1..] + ys;
      RecentAppend(xs[1..], ys, now);
    } else {
      assert xs + ys == ys;
    }
  }

  /** `getQuestionFrequency` over the company's active, verified questions, most asked first. */
  function Frequency(qs: seq<RealQuestion>, now: Time): (r: FrequencyReport)
    ensures r.totalQuestions == |qs|
    ensures r.frequencyDistribution.veryCommon + r.frequencyDistribution.common
            + r.frequencyDistribution.occasional + r.frequencyDistribution.rare == |qs|
    ensures |r.mostAsked| == MinInt(10, |qs|) && forall i :: 0 <= i < |r.mostAsked| ==> r.mostAsked[i] == qs[i]
    ensures r.frequencyDistribution == FrequencyDistribution(
              CountAsked(qs, Some(10), None), CountAsked(qs, Some(5), Some(10)),
              CountAsked(qs, Some(2), Some(5)), CountAsked(qs, None, Some(2)))
    ensures r.recentCount == |Recent(qs, now)| <= |qs|
    ensures r.recentQuestions == FirstN(Recent(qs, now), 10)
    ensures |r.recentQuestions| == MinInt(10, r.recentCount)
    ensures forall i :: 0 <= i < |r.recentQuestions| ==> RecentlyAsked(r.recentQuestions[i], now)
  {
    var veryCommon := CountAsked(qs, Some(10), None);
    var common := CountAsked(qs, Some(5), Some(10));
    var occasional := CountAsked(qs, Some(2), Some(5));
    var rare := CountAsked(qs, None, Some(2));
    BucketsPartition(qs);
    var recent := Recent(qs, now);
    FrequencyReport(|qs|, FrequencyDistribution(veryCommon, common, occasional, rare),
                    FirstN(qs, 10), |recent|, FirstN(recent, 10))
  }

  function TimesAsked(q: RealQuestion): int
  {
    q.timesAsked
  }

  /** With the query's order (most asked first), `mostAsked` holds the most asked questions: none
      left out was asked more often than one kept. */
  lemma MostAskedAreMostAsked(qs: seq<RealQuestion>, now: Time, i: nat, j: nat)
    requires SortedDesc(qs, TimesAsked)
    requires i < |Frequency(qs, now).mostAsked| <= j < |qs|
    ensures Frequency(qs, now).mostAsked[i].timesAsked >= qs[j].timesAsked
  {
  }

  // ---- getUserQuestions ----

  datatype UserStats = UserStats(total: nat, verified: nat, pending: nat, totalUpvotes: nat)

  function CountVerified(qs: seq<RealQuestion>): (r: nat)
    reads qs
    ensures r <= |qs|
  {
    if |qs| == 0 then 0 else (if qs[0].verified then 1 else 0) + CountVerified(qs[1..])
  }

  function CountPending(qs: seq<RealQuestion>): (r: nat)
    reads qs
    ensures r <= |qs|
  {
    if |qs| == 0 then 0 else (if qs[0].status == "pending" then 1 else 0) + CountPending(qs[1..])
  }

  function TotalUpvotes(qs: seq<RealQuestion>): (r: nat)
    reads qs
    ensures (forall i :: 0 <= i < |qs| ==> qs[i].upvotes == []) ==> r == 0
    ensures forall i :: 0 <= i < |qs| ==> |qs[i].upvotes| <= r
  {
    if |qs| == 0 then 0
    else
      assert forall i :: 0 < i < |qs| ==> qs[i] == qs[1..][i - 1];
      |qs[0].upvotes| + TotalUpvotes(qs[1..])
  }

  /** The upvote total is the sum of the upvote list lengths: it adds over concatenation ... */
  lemma {:induction false} TotalUpvotesAppend(xs: seq<RealQuestion>, ys: seq<RealQuestion>)
    ensures TotalUpvotes(xs + ys) == TotalUpvotes(xs) + TotalUpvotes(ys)
  {
    if |xs| > 0 {
      assert (xs + ys)[1..] == xs[1..] + ys;
      TotalUpvotesAppend(xs[1..], ys);
    } else {
      assert xs + ys == ys;
    }
  }

  /** ... and one question contributes the length of its upvote list. */
  lemma TotalUpvotesSingle(q: RealQuestion)
    ensures TotalUpvotes([q]) == |q.upvotes|
  {
    assert [q][1..] == [];
  }

  lemma {:induction false} CountVerifiedAppend(xs: seq<RealQuestion>, ys: seq<RealQuestion>)
    ensures CountVerified(xs + ys) == CountVerified(xs) + CountVerified(ys)
  {
    if |xs| > 0 {
      assert (xs + ys)[1..] == xs[1..] + ys;
      CountVerifiedAppend(xs[1..], ys);
    } else {
      assert xs + ys == ys;
    }
  }

  lemma {:induction false} CountPendingAppend(xs: seq<RealQuestion>, ys: seq<RealQuestion>)
    ensures CountPending(xs + ys) == CountPending(xs) + CountPending(ys)
  {
    if |xs| > 0 {
      assert (xs + ys)[1..] == xs[1..] + ys;
      CountPendingAppend(xs[1..], ys);
    } else {
      assert xs + ys == ys;
    }
  }

  /** `getUserQuestions` statistics over the user's submissions. */
  function GetUserStats(qs: seq<RealQuestion>): (r: UserStats)
    reads qs
    ensures r.total == |qs| && r.verified <= r.total && r.pending <= r.total
    ensures r.verified == CountVerified(qs) && r.pending == CountPending(qs) && r.totalUpvotes == TotalUpvotes(qs)
    ensures forall i :: 0 <= i < |qs| ==> |qs[i].upvotes| <= r.totalUpvotes
  {
    UserStats(|qs|, CountVerified(qs), CountPending(qs), TotalUpvotes(qs))
  }

  /** The statistics of a list are the sums of the statistics of its parts, one question
      counting 1, 1 if verified, 1 if pending, and its number of upvotes. */
  lemma UserStatsAppend(xs: seq<RealQuestion>, ys: seq<RealQuestion>)
    ensures var a, b, r := GetUserStats(xs), GetUserStats(ys), GetUserStats(xs + ys);
            r == UserStats(a.total + b.total, a.verified + b.verified, a.pending + b.pending,
                           a.totalUpvotes + b.totalUpvotes)
  {
    TotalUpvotesAppend(xs, ys);
    CountVerifiedAppend(xs, ys);
    CountPendingAppend(xs, ys);
  }

  lemma UserStatsSingle(q: RealQuestion)
    ensures GetUserStats([q]) == UserStats(1, if q.verified then 1 else 0,
                                           if q.status == "pending" then 1 else 0, |q.upvotes|)
  {
    TotalUpvotesSingle(q);
    assert [q][1..] == [];
  }

  /** When every question holds at least k upvotes, the upvote total is at least k per question. */
  lemma {:induction false} TotalUpvotesAtLeast(qs: seq<RealQuestion>, k: nat)
    requires forall i :: 0 <= i < |qs| ==> |qs[i].upvotes| >= k
    ensures TotalUpvotes(qs) >= k * |qs|
  {
    if |qs| > 0 {
      assert forall i :: 0 <= i < |qs[1..]| ==> qs[1..][i] == qs[i + 1];
      TotalUpvotesAtLeast(qs[1..], k);
      assert k * |qs| == k + k * |qs[1..]|;
    }
  }
}
