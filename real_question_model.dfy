/** The RealQuestion document of Backend/models/RealQuestion.model.js: a crowdsourced interview
    question with its votes, frequency and moderation fields, the `voteScore` and
    `popularityScore` virtuals, and the `hasUserVoted` and `addVote` methods. */
module RealQuestionModel {
  import opened Wrappers
  import opened Numeric

  type UserId = nat

  /** One entry of `upvotes` or `downvotes`. */
  datatype Vote = Vote(user: UserId, votedAt: Time)

  /** Both vote lists of a question. */
  datatype Ballot = Ballot(upvotes: seq<Vote>, downvotes: seq<Vote>)

  // ---- enums and defaults ----

  const QuestionTypes: seq<string> := ["technical", "behavioral", "system-design", "coding", "other"]
  const Levels: seq<string> := ["entry", "mid", "senior", "staff", "principal"]
  const InterviewRounds: seq<string> :=
    ["phone-screen", "technical-1", "technical-2", "system-design", "behavioral", "bar-raiser", "final"]
  const Locations: seq<string> := ["onsite", "remote", "hybrid"]
  const Difficulties: seq<string> := ["easy", "medium", "hard", "expert"]
  const Statuses: seq<string> := ["active", "pending", "rejected", "archived"]

  const DefaultLevel := "mid"
  const DefaultRound := "technical-1"
  const DefaultLocation := "remote"
  const DefaultDifficulty := "medium"
  const DefaultTimesAsked := 1

  class RealQuestion {
    const question: string
    const questionType: string
    const company: string
    const role: string
    const level: string
    const interviewRound: string
    const interviewDate: Time
    const location: string
    const submittedBy: UserId
    const submittedAt: Time
    const timesAsked: int
    const lastAskedDate: Time
    const tags: seq<string>
    const difficulty: string
    const expectedDuration: Option<real>
    const followUpQuestions: seq<string>
    const hints: seq<string>
    const notes: Option<string>
    var verified: bool
    var verifiedBy: Option<UserId>
    var verifiedAt: Option<Time>
    var upvotes: seq<Vote>
    var downvotes: seq<Vote>
    var reported: bool
    var reportCount: int
    var status: string

    /** A new document with the schema defaults: asked once, last asked now, unverified, no
        votes, not reported, pending. */
    constructor (question: string, questionType: string, company: string, role: string, level: string,
                 interviewRound: string, interviewDate: Time, location: string, submittedBy: UserId,
                 tags: seq<string>, difficulty: string, expectedDuration: Option<real>,
                 followUpQuestions: seq<string>, hints: seq<string>, notes: Option<string>, now: Time)
      ensures this.question == question && this.questionType == questionType
      ensures this.company == company && this.role == role && this.level == level
      ensures this.interviewRound == interviewRound && this.interviewDate == interviewDate
      ensures this.location == location && this.submittedBy == submittedBy && submittedAt == now
      ensures this.tags == tags && this.difficulty == difficulty && this.expectedDuration == expectedDuration
      ensures this.followUpQuestions == followUpQuestions && this.hints == hints && this.notes == notes
      ensures timesAsked == DefaultTimesAsked && lastAskedDate == now
      ensures !verified && verifiedBy.None? && verifiedAt.None?
      ensures upvotes == [] && downvotes == []
      ensures !reported && reportCount == 0 && status == "pending"
    {
      this.question := question;
      this.questionType := questionType;
      this.company := company;
      this.role := role;
      this.level := level;
      this.interviewRound := interviewRound;
      this.interviewDate := interviewDate;
      this.location := location;
      this.submittedBy := submittedBy;
      submittedAt := now;
      timesAsked := DefaultTimesAsked;
      lastAskedDate := now;
      this.tags := tags;
      this.difficulty := difficulty;
      this.expectedDuration := expectedDuration;
      this.followUpQuestions := followUpQuestions;
      this.hints := hints;
      this.notes := notes;
      verified := false;
      verifiedBy := None;
      verifiedAt := None;
      upvotes := [];
      downvotes := [];
      reported := false;
      reportCount := 0;
      status := "pending";
    }

    /** `addVote`: removes any earlier vote of `user`, then records the new one unless it only
        repeats the vote just removed. */
    method AddVote(user: UserId, voteType: string, now: Time)
      modifies this
      ensures Ballot(upvotes, downvotes) == CastVote(old(Ballot(upvotes, downvotes)), user, voteType, now)
      ensures verified == old(verified) && status == old(status) && reportCount == old(reportCount)
      ensures reported == old(reported) && verifiedBy == old(verifiedBy) && verifiedAt == old(verifiedAt)
    {
      var upvoted := HasVoted(upvotes, user);
      var downvoted := HasVoted(downvotes, user);
      if upvoted {
        upvotes := Without(upvotes, user);
      }
      if downvoted {
        downvotes := Without(downvotes, user);
      }
      if voteType == "up" && !upvoted {
        upvotes := upvotes + [Vote(user, now)];
      } else if voteType == "down" && !downvoted {
        downvotes := downvotes + [Vote(user, now)];
      }
    }
  }

  // ---- votes ----

  /** `votes.some(v => v.user == user)`. */
  predicate HasVoted(votes: seq<Vote>, user: UserId)
  {
    exists i :: 0 <= i < |votes| && votes[i].user == user
  }

  /** `hasUserVoted`: membership in each list, reported independently. */
  function HasUserVoted(b: Ballot, user: UserId): (r: (bool, bool))
    ensures r.0 <==> exists i :: 0 <= i < |b.upvotes| && b.upvotes[i].user == user
    ensures r.1 <==> exists i :: 0 <= i < |b.downvotes| && b.downvotes[i].user == user
  {
    (HasVoted(b.upvotes, user), HasVoted(b.downvotes, user))
  }

  /** The entries of one user, in order. */
  function VotesBy(votes: seq<Vote>, user: UserId): (r: seq<Vote>)
    ensures |r| == 0 <==> !HasVoted(votes, user)
  {
    if |votes| == 0 then []
    else
      assert forall i :: 0 < i < |votes| ==> votes[i] == votes[1..][i - 1];
      (if votes[0].user == user then [votes[0]] else []) + VotesBy(votes[1..], user)
  }

  /** `votes.filter(v => v.user != user)`. */
  function Without(votes: seq<Vote>, user: UserId): (r: seq<Vote>)
    ensures !HasVoted(r, user)
    ensures |r| <= |votes|
  {
    if |votes| == 0 then []
    else
      var rest := Without(votes[1..], user);
      if votes[0].user == user then rest
      else
        var r := [votes[0]] + rest;
        assert forall i :: 0 < i < |r| ==> r[i] == rest[i - 1];
        r
  }

  lemma {:induction false} WithoutKeepsOthers(votes: seq<Vote>, user: UserId, other: UserId)
    requires other != user
    ensures VotesBy(Without(votes, user), other) == VotesBy(votes, other)
  {
    if |votes| > 0 {
      WithoutKeepsOthers(votes[1..], user, other);
      var rest := Without(votes[1..], user);
      if votes[0].user != user {
        assert ([votes[0]] + rest)[1..] == rest;
      }
    }
  }

  lemma {:induction false} VotesByAppend(votes: seq<Vote>, x: Vote, user: UserId)
    ensures VotesBy(votes + [x], user) == VotesBy(votes, user) + (if x.user == user then [x] else [])
  {
    if |votes| > 0 {
      assert (votes + [x])[1..] == votes[1..] + [x];
      VotesByAppend(votes[1..], x, user);
    } else {
      assert [x][1..] == [];
    }
  }

  /** What `addVote(user, voteType)` does to the two lists. */
  function CastVote(b: Ballot, user: UserId, voteType: string, now: Time): (r: Ballot)
    ensures |r.upvotes| <= |b.upvotes| + 1 && |r.downvotes| <= |b.downvotes| + 1
    ensures voteType != "up" ==> !HasVoted(r.upvotes, user)
    ensures voteType != "down" ==> !HasVoted(r.downvotes, user)
  {
    var upvoted := HasVoted(b.upvotes, user);
    var downvoted := HasVoted(b.downvotes, user);
    var up := if upvoted then Without(b.upvotes, user) else b.upvotes;
    var down := if downvoted then Without(b.downvotes, user) else b.downvotes;
    if voteType == "up" && !upvoted then Ballot(up + [Vote(user, now)], down)
    else if voteType == "down" && !downvoted then Ballot(up, down + [Vote(user, now)])
    else Ballot(up, down)
  }

  /** Every other user's entries in both lists are exactly as before. */
  lemma CastVoteKeepsOthers(b: Ballot, user: UserId, voteType: string, now: Time, other: UserId)
    requires other != user
    ensures VotesBy(CastVote(b, user, voteType, now).upvotes, other) == VotesBy(b.upvotes, other)
    ensures VotesBy(CastVote(b, user, voteType, now).downvotes, other) == VotesBy(b.downvotes, other)
  {
    var up := if HasVoted(b.upvotes, user) then Without(b.upvotes, user) else b.upvotes;
    var down := if HasVoted(b.downvotes, user) then Without(b.downvotes, user) else b.downvotes;
    WithoutKeepsOthers(b.upvotes, user, other);
    WithoutKeepsOthers(b.downvotes, user, other);
    VotesByAppend(up, Vote(user, now), other);
    VotesByAppend(down, Vote(user, now), other);
  }

  /** The voter's own entries afterwards: one upvote exactly when they voted up without having
      upvoted before, one downvote exactly when they voted down without having downvoted before,
      and nothing otherwise; so they never sit in both lists. */
  lemma CastVoteOutcome(b: Ballot, user: UserId, voteType: string, now: Time)
    ensures var r := CastVote(b, user, voteType, now);
            |VotesBy(r.upvotes, user)| == (if voteType == "up" && !HasVoted(b.upvotes, user) then 1 else 0)
            && |VotesBy(r.downvotes, user)| == (if voteType == "down" && !HasVoted(b.downvotes, user) then 1 else 0)
            && !(HasVoted(r.upvotes, user) && HasVoted(r.downvotes, user))
  {
    var up := if HasVoted(b.upvotes, user) then Without(b.upvotes, user) else b.upvotes;
    var down := if HasVoted(b.downvotes, user) then Without(b.downvotes, user) else b.downvotes;
    assert !HasVoted(up, user) && !HasVoted(down, user);
    VotesByAppend(up, Vote(user, now), user);
    VotesByAppend(down, Vote(user, now), user);
  }

  /** A user who has not voted and casts the same vote twice ends with no vote at all. */
  lemma CastVoteTwiceRetracts(b: Ballot, user: UserId, voteType: string, now: Time, later: Time)
    requires voteType == "up" || voteType == "down"
    requires !HasVoted(b.upvotes, user) && !HasVoted(b.downvotes, user)
    ensures var r := CastVote(CastVote(b, user, voteType, now), user, voteType, later);
            !HasVoted(r.upvotes, user) && !HasVoted(r.downvotes, user)
  {
    var once := CastVote(b, user, voteType, now);
    CastVoteOutcome(b, user, voteType, now);
    CastVoteOutcome(once, user, voteType, later);
    var r := CastVote(once, user, voteType, later);
    if voteType == "up" {
      assert HasVoted(once.upvotes, user) by { assert |VotesBy(once.upvotes, user)| == 1; }
    } else {
      assert HasVoted(once.downvotes, user) by { assert |VotesBy(once.downvotes, user)| == 1; }
    }
  }

  // ---- virtuals ----

  /** `voteScore`. */
  function VoteScore(b: Ballot): (r: int)
    ensures -|b.downvotes| <= r <= |b.upvotes|
  {
    |b.upvotes| - |b.downvotes|
  }

  /** Filtering out a user removes exactly that user's entries. */
  lemma {:induction false} WithoutLength(votes: seq<Vote>, user: UserId)
    ensures |Without(votes, user)| == |votes| - |VotesBy(votes, user)|
  {
    if |votes| > 0 {
      WithoutLength(votes[1..], user);
    }
  }

  /** How a vote moves the score: the voter's earlier entries are withdrawn (an upvote costs 1,
      a downvote gives 1 back) and a new vote of the other kind, or a first vote, counts 1. */
  lemma CastVoteScore(b: Ballot, user: UserId, voteType: string, now: Time)
    ensures VoteScore(CastVote(b, user, voteType, now))
            == VoteScore(b) - |VotesBy(b.upvotes, user)| + |VotesBy(b.downvotes, user)|
               + (if voteType == "up" && !HasVoted(b.upvotes, user) then 1 else 0)
               - (if voteType == "down" && !HasVoted(b.downvotes, user) then 1 else 0)
  {
    WithoutLength(b.upvotes, user);
    WithoutLength(b.downvotes, user);
  }

  /** With at most one entry per user and list (which `addVote` keeps), a first up vote raises the
      score by 1, switching from down to up raises it by 2, and repeating an up vote retracts it
      and lowers the score by 1; symmetrically for down votes. */
  lemma VoteScoreSteps(b: Ballot, user: UserId, now: Time)
    requires |VotesBy(b.upvotes, user)| <= 1 && |VotesBy(b.downvotes, user)| <= 1
    requires !(HasVoted(b.upvotes, user) && HasVoted(b.downvotes, user))
    ensures var s := VoteScore(b);
            var up := VoteScore(CastVote(b, user, "up", now));
            var down := VoteScore(CastVote(b, user, "down", now));
            && (!HasVoted(b.upvotes, user) && !HasVoted(b.downvotes, user) ==> up == s + 1 && down == s - 1)
            && (HasVoted(b.downvotes, user) ==> up == s + 2 && down == s + 1)
            && (HasVoted(b.upvotes, user) ==> up == s - 1 && down == s - 2)
  {
    CastVoteScore(b, user, "up", now);
    CastVoteScore(b, user, "down", now);
  }

  /** The popularity bonus for recency: 30 on the day the question was last asked, one less per
      whole day since, never below 0. */
  function RecencyBonus(lastAskedDate: Time, now: Time): (r: int)
    ensures r >= 0
    ensures now >= lastAskedDate ==> r <= 30
    ensures lastAskedDate <= now < lastAskedDate + DAY_MS ==> r == 30
    ensures now >= lastAskedDate + 30 * DAY_MS ==> r == 0
  {
    var d := FloorDiv(now - lastAskedDate, DAY_MS);
    if 30 - d > 0 then 30 - d else 0
  }

  /** The bonus only shrinks as time passes. */
  lemma RecencyBonusDecreases(lastAskedDate: Time, now: Time, later: Time)
    requires now <= later
    ensures RecencyBonus(lastAskedDate, later) <= RecencyBonus(lastAskedDate, now)
  {
  }

  /** `popularityScore`. */
  function PopularityScore(b: Ballot, timesAsked: int, lastAskedDate: Time, now: Time): (r: int)
    ensures now >= lastAskedDate ==>
              10 * VoteScore(b) + 5 * timesAsked <= r <= 10 * VoteScore(b) + 5 * timesAsked + 30
  {
    VoteScore(b) * 10 + timesAsked * 5 + RecencyBonus(lastAskedDate, now)
  }
}
