/** Backend/services/buddyMatching.service.js: finding compatible study buddies, the connection
    state machine of a buddy match, mock-interview scheduling, study-group creation, the
    "only available" filter of the group search, and joining a group. Database reads are inputs:
    the user's last 10 interviews, the aggregated candidate groups, and the match documents. */
module BuddyMatching {
  import opened Wrappers
  import opened Numeric
  import opened Collections
  import opened Sorting
  import opened Interviews
  import opened BuddyMatchModel

  const UserNotFound := "User not found"
  const NoTargetsMessage := "Complete some interviews first to find compatible buddies"
  const AlreadyConnected := "Already connected with this user"
  const MatchNotFound := "Buddy match not found"
  const NotAccepted := "Buddy connection must be accepted first"
  const GroupNotFound := "Study group not found"
  const AlreadyMember := "Already a member of this group"
  const GroupFull := "Group is full"
  const MatchValidationFailed := "BuddyMatch validation failed"
  const GroupValidationFailed := "StudyGroup validation failed"

  /** Size of the returned buddy list. */
  const MaxBuddies := 20

  // ---- findBuddies ----

  /** One row of the candidate aggregation: a user who interviewed for one of the target
      companies, the set of such companies, their interview count and the average of their
      scores. */
  datatype BuddyGroup = BuddyGroup(id: UserId, companies: seq<string>, interviewCount: nat, avgScore: real)

  /** What the aggregation guarantees: `$addToSet` yields each company once. The `$ne` on the
      user compares the stored ids with the id string the route passes, which an aggregation does
      not convert, so rows of the searcher are not excluded. */
  predicate FromAggregation(groups: seq<BuddyGroup>)
  {
    forall i :: 0 <= i < |groups| ==> NoDuplicates(groups[i].companies)
  }

  /** The rows of other users: the exclusion the `$match` stage is meant to make. */
  function OtherUsers(groups: seq<BuddyGroup>, userId: UserId): (r: seq<BuddyGroup>)
    ensures |r| <= |groups|
    ensures forall i :: 0 <= i < |r| ==> r[i] in groups && r[i].id != userId
    ensures forall i :: 0 <= i < |groups| && groups[i].id != userId ==> groups[i] in r
    ensures FromAggregation(groups) ==> FromAggregation(r)
  {
    if |groups| == 0 then []
    else
      var rest := OtherUsers(groups[1..], userId);
      TailIndex(groups);
      if groups[0].id == userId then rest
      else
        ConsIndex(groups[0], rest);
        [groups[0]] + rest
  }

  datatype BuddyCandidate = BuddyCandidate(
    userId: UserId,
    commonCompanies: seq<string>,
    matchScore: int,
    interviewCount: nat,
    avgScore: int)

  datatype BuddySearch =
    | NoTargets(message: string, buddies: seq<BuddyCandidate>)
    | Found(totalFound: nat, buddies: seq<BuddyCandidate>)

  /** The named target companies of the interviews, in order, duplicates kept. */
  function NamedCompanies(recent: seq<Interview>): (r: seq<string>)
    ensures forall c :: c in r <==> exists i :: 0 <= i < |recent| && recent[i].targetCompany == Some(c) && c != ""
  {
    if |recent| == 0 then []
    else
      var rest := NamedCompanies(recent[1..]);
      assert forall i :: 0 < i < |recent| ==> recent[i] == recent[1..][i - 1];
      assert forall i :: 0 <= i < |recent[1..]| ==> recent[1..][i] == recent[i + 1];
      match recent[0].targetCompany
      case Some(c) => if c != "" then [c] + rest else rest
      case None => rest
  }

  /** `[...new Set(interviews.map(i => i.config?.targetCompany).filter(Boolean))]`. */
  function TargetCompanies(recent: seq<Interview>): (r: seq<string>)
    ensures NoDuplicates(r)
    ensures forall c :: c in r <==> exists i :: 0 <= i < |recent| && recent[i].targetCompany == Some(c) && c != ""
  {
    var named := NamedCompanies(recent);
    var r := Dedup(named);
    assert forall c :: c in r <==> c in named by {
      forall c ensures c in r <==> c in named {
        if c in r { var k :| 0 <= k < |r| && r[k] == c; }
        if c in named { var k :| 0 <= k < |named| && named[k] == c; }
      }
    }
    r
  }

  /** The users on the other side of the matches that involve `userId`, whatever their status. */
  function ConnectedUserIds(matches: seq<BuddyMatch>, userId: UserId): (r: seq<UserId>)
    ensures forall v :: v in r <==> exists i :: 0 <= i < |matches| && Partner(matches[i], userId, v)
  {
    if |matches| == 0 then []
    else
      var m := matches[0];
      var rest := ConnectedUserIds(matches[1..], userId);
      assert forall i :: 0 < i < |matches| ==> matches[i] == matches[1..][i - 1];
      assert forall i :: 0 <= i < |matches[1..]| ==> matches[1..][i] == matches[i + 1];
      if m.user1 == userId then [m.user2] + rest
      else if m.user2 == userId then [m.user1] + rest
      else rest
  }

  /** `v` is the other user of a match involving `u`, as `connectedUserIds` maps it. */
  predicate Partner(m: BuddyMatch, u: UserId, v: UserId)
  {
    if m.user1 == u then m.user2 == v else m.user2 == u && m.user1 == v
  }

  /** Every existing match with the user, on either side, makes its other user a connection. */
  lemma PartnerEitherSide(m: BuddyMatch, u: UserId, v: UserId)
    requires u != v
    ensures Pairs(m, u, v) <==> Partner(m, u, v)
  {
  }

  /** `commonCompanies.length / targetCompanies.length * 50`. */
  function CompanyScore(commonCount: nat, targetCount: nat): (r: real)
    requires targetCount > 0
    ensures r >= 0.0
    ensures commonCount <= targetCount ==> r <= 50.0
    ensures r == 50.0 <==> commonCount == targetCount
  {
    commonCount as real / targetCount as real * 50.0
  }

  /** `Math.max(0, 50 - Math.abs(userAvg - buddyAvg))`: 50 for equal averages, less the further
      apart they are. */
  function SkillScore(userAvg: real, buddyAvg: real): (r: real)
    ensures 0.0 <= r <= 50.0
    ensures r == 50.0 <==> userAvg == buddyAvg
    ensures Abs(userAvg - buddyAvg) < 50.0 ==> r == 50.0 - Abs(userAvg - buddyAvg)
  {
    Max(0.0, 50.0 - Abs(userAvg - buddyAvg))
  }

  /** The rounded sum of the two halves. */
  function MatchScore(commonCount: nat, targetCount: nat, userAvg: real, buddyAvg: real): (r: int)
    requires 0 < targetCount && commonCount <= targetCount
    ensures 0 <= r <= 100
  {
    var x := CompanyScore(commonCount, targetCount) + SkillScore(userAvg, buddyAvg);
    RoundWithin(x, 0, 100);
    Round(x)
  }

  /** More shared companies and closer skill never lower the match score. */
  lemma MatchScoreMonotone(c1: nat, c2: nat, t: nat, u: real, b1: real, b2: real)
    requires 0 < t && c1 <= c2 <= t
    requires Abs(u - b2) <= Abs(u - b1)
    ensures MatchScore(c1, t, u, b1) <= MatchScore(c2, t, u, b2)
  {
    DivMonotone(c1 as real, c2 as real, t as real);
    RoundMonotone(CompanyScore(c1, t) + SkillScore(u, b1), CompanyScore(c2, t) + SkillScore(u, b2));
  }

  /** Sharing every target company at exactly the same average is a perfect match. */
  lemma PerfectMatch(t: nat, u: real)
    requires 0 < t
    ensures MatchScore(t, t, u, u) == 100
  {
    RoundOfInteger(100);
  }

  /** The average score of the user's recent interviews, a missing score counting as 0. */
  function UserAverage(recent: seq<Interview>): (r: real)
    ensures |recent| == 0 ==> r == 0.0
  {
    Mean(Scores(recent))
  }

  /** The average lies within any bounds on the recent interviews' scores, a missing score
      counting as 0. */
  lemma UserAverageWithin(recent: seq<Interview>, lo: real, hi: real)
    requires |recent| > 0
    requires forall i :: 0 <= i < |recent| ==> lo <= ScoreOrZero(recent[i]) <= hi
    ensures lo <= UserAverage(recent) <= hi
  {
    MeanBounds(Scores(recent), lo, hi);
  }

  function Scores(recent: seq<Interview>): (r: seq<real>)
    ensures |r| == |recent|
    ensures forall i :: 0 <= i < |r| ==> r[i] == ScoreOrZero(recent[i])
  {
    seq(|recent|, i requires 0 <= i < |recent| => ScoreOrZero(recent[i]))
  }

  /** The scored candidate of one aggregation row. */
  function ScoreCandidate(g: BuddyGroup, targets: seq<string>, userAvg: real): (r: BuddyCandidate)
    requires |targets| > 0 && NoDuplicates(g.companies)
    ensures r.userId == g.id && r.interviewCount == g.interviewCount && r.avgScore == Round(g.avgScore)
    ensures forall i :: 0 <= i < |r.commonCompanies| ==> r.commonCompanies[i] in targets && r.commonCompanies[i] in g.companies
    ensures forall i :: 0 <= i < |g.companies| && g.companies[i] in targets ==> g.companies[i] in r.commonCompanies
    ensures |r.commonCompanies| <= |targets|
    ensures 0 <= r.matchScore <= 100
    ensures r.matchScore == MatchScore(|r.commonCompanies|, |targets|, userAvg, g.avgScore)
  {
    var common := Filter(g.companies, c => c in targets);
    FilterKeepsNoDuplicates(g.companies, c => c in targets);
    DistinctSubsetLength(common, targets);
    BuddyCandidate(g.id, common, MatchScore(|common|, |targets|, userAvg, g.avgScore),
                   g.interviewCount, Round(g.avgScore))
  }

  /** c is the scored candidate of row i, a user not already connected. */
  predicate RowCandidate(c: BuddyCandidate, groups: seq<BuddyGroup>, connected: seq<UserId>, targets: seq<string>,
                         userAvg: real, i: int)
  {
    0 <= i < |groups| && groups[i].id !in connected && |targets| > 0 && NoDuplicates(groups[i].companies)
    && c == ScoreCandidate(groups[i], targets, userAvg)
  }

  /** c is the scored candidate of some row of a user not already connected. */
  predicate Scored(c: BuddyCandidate, groups: seq<BuddyGroup>, connected: seq<UserId>, targets: seq<string>, userAvg: real)
  {
    exists i :: 0 <= i < |groups| && RowCandidate(c, groups, connected, targets, userAvg, i)
  }

  /** The candidates not already connected with the user, scored, in aggregation order. */
  function Candidates(groups: seq<BuddyGroup>, connected: seq<UserId>, targets: seq<string>, userAvg: real): (r: seq<BuddyCandidate>)
    requires |targets| > 0
    requires forall i :: 0 <= i < |groups| ==> NoDuplicates(groups[i].companies)
    ensures |r| <= |groups|
    ensures forall i :: 0 <= i < |groups| && groups[i].id !in connected ==> ScoreCandidate(groups[i], targets, userAvg) in r
    ensures forall j :: 0 <= j < |r| ==> Scored(r[j], groups, connected, targets, userAvg)
  {
    if |groups| == 0 then []
    else
      var rest := Candidates(groups[1..], connected, targets, userAvg);
      var out := if groups[0].id in connected then rest else [ScoreCandidate(groups[0], targets, userAvg)] + rest;
      CandidatesCover(groups, connected, targets, userAvg, rest, out);
      CandidatesSound(groups, connected, targets, userAvg, rest, out);
      out
  }

  /** The step of Candidates keeps every unconnected row's candidate. */
  lemma CandidatesCover(groups: seq<BuddyGroup>, connected: seq<UserId>, targets: seq<string>, userAvg: real,
                        rest: seq<BuddyCandidate>, r: seq<BuddyCandidate>)
    requires |targets| > 0 && |groups| > 0
    requires forall i :: 0 <= i < |groups| ==> NoDuplicates(groups[i].companies)
    requires forall i :: 0 <= i < |groups[1..]| && groups[1..][i].id !in connected ==>
               ScoreCandidate(groups[1..][i], targets, userAvg) in rest
    requires r == if groups[0].id in connected then rest else [ScoreCandidate(groups[0], targets, userAvg)] + rest
    ensures forall i :: 0 <= i < |groups| && groups[i].id !in connected ==> ScoreCandidate(groups[i], targets, userAvg) in r
  {
    forall i | 0 <= i < |groups| && groups[i].id !in connected
      ensures ScoreCandidate(groups[i], targets, userAvg) in r
    {
      if i > 0 {
        assert groups[i] == groups[1..][i - 1];
      }
    }
  }

  /** The step of Candidates adds only candidates of unconnected rows. */
  lemma CandidatesSound(groups: seq<BuddyGroup>, connected: seq<UserId>, targets: seq<string>, userAvg: real,
                        rest: seq<BuddyCandidate>, r: seq<BuddyCandidate>)
    requires |targets| > 0 && |groups| > 0
    requires forall i :: 0 <= i < |groups| ==> NoDuplicates(groups[i].companies)
    requires forall j :: 0 <= j < |rest| ==> Scored(rest[j], groups[1..], connected, targets, userAvg)
    requires r == if groups[0].id in connected then rest else [ScoreCandidate(groups[0], targets, userAvg)] + rest
    ensures forall j :: 0 <= j < |r| ==> Scored(r[j], groups, connected, targets, userAvg)
  {
    forall j | 0 <= j < |r|
      ensures Scored(r[j], groups, connected, targets, userAvg)
    {
      var k := if groups[0].id in connected then j else j - 1;
      if k < 0 {
        assert RowCandidate(r[j], groups, connected, targets, userAvg, 0);
      } else {
        assert r[j] == rest[k];
        var i :| 0 <= i < |groups[1..]| && RowCandidate(rest[k], groups[1..], connected, targets, userAvg, i);
        assert groups[i + 1] == groups[1..][i];
        assert RowCandidate(r[j], groups, connected, targets, userAvg, i + 1);
      }
    }
  }

  function MatchScoreOf(c: BuddyCandidate): int
  {
    c.matchScore
  }

  /** The 20 best of a list of candidates, best first. */
  function Top(candidates: seq<BuddyCandidate>): (r: seq<BuddyCandidate>)
    ensures |r| == MinInt(MaxBuddies, |candidates|)
    ensures SortedDesc(r, MatchScoreOf)
    ensures forall i :: 0 <= i < |r| ==> r[i] in candidates
    ensures multiset(r) <= multiset(candidates)
  {
    var sorted := SortDesc(candidates, MatchScoreOf);
    var r := FirstN(sorted, MaxBuddies);
    assert sorted == r + sorted[|r|..];
    forall i | 0 <= i < |r| ensures r[i] in candidates {
      SortedElementFromInput(candidates, MatchScoreOf, i);
    }
    r
  }

  /** What every candidate of the source satisfies: a score in [0, 100], not connected with the
      user in any match, drawn from the aggregation, and sharing only target companies. */
  predicate Listed(b: BuddyCandidate, userId: UserId, groups: seq<BuddyGroup>, matches: seq<BuddyMatch>,
                   targets: seq<string>)
  {
    0 <= b.matchScore <= 100
    && (forall k :: 0 <= k < |matches| ==> !Partner(matches[k], userId, b.userId))
    && (exists j :: 0 <= j < |groups| && groups[j].id == b.userId)
    && forall k :: 0 <= k < |b.commonCompanies| ==> b.commonCompanies[k] in targets
  }

  /** A listed candidate who is, moreover, another user: what a buddy is meant to be. */
  predicate Eligible(b: BuddyCandidate, userId: UserId, groups: seq<BuddyGroup>, matches: seq<BuddyMatch>,
                     targets: seq<string>)
  {
    Listed(b, userId, groups, matches, targets) && b.userId != userId
  }

  lemma CandidatesListed(groups: seq<BuddyGroup>, matches: seq<BuddyMatch>, userId: UserId,
                         targets: seq<string>, userAvg: real)
    requires FromAggregation(groups) && |targets| > 0
    ensures forall j :: 0 <= j < |Candidates(groups, ConnectedUserIds(matches, userId), targets, userAvg)| ==>
              Listed(Candidates(groups, ConnectedUserIds(matches, userId), targets, userAvg)[j],
                     userId, groups, matches, targets)
  {
    var connected := ConnectedUserIds(matches, userId);
    var cs := Candidates(groups, connected, targets, userAvg);
    forall j | 0 <= j < |cs| ensures Listed(cs[j], userId, groups, matches, targets) {
      var i :| 0 <= i < |groups| && RowCandidate(cs[j], groups, connected, targets, userAvg, i);
      assert cs[j].userId == groups[i].id;
    }
  }

  /** The 20 best of the source's candidates are listed. */
  lemma TopListed(groups: seq<BuddyGroup>, matches: seq<BuddyMatch>, userId: UserId,
                  targets: seq<string>, userAvg: real)
    requires FromAggregation(groups) && |targets| > 0
    ensures var bs := Top(Candidates(groups, ConnectedUserIds(matches, userId), targets, userAvg));
            forall i :: 0 <= i < |bs| ==> Listed(bs[i], userId, groups, matches, targets)
  {
    CandidatesListed(groups, matches, userId, targets, userAvg);
  }

  /** Scoring only the other users' rows gives eligible candidates, each another user. */
  lemma CandidatesEligible(groups: seq<BuddyGroup>, matches: seq<BuddyMatch>, userId: UserId,
                           targets: seq<string>, userAvg: real)
    requires FromAggregation(groups) && |targets| > 0
    ensures FromAggregation(OtherUsers(groups, userId))
    ensures var cs := Candidates(OtherUsers(groups, userId), ConnectedUserIds(matches, userId), targets, userAvg);
            forall j :: 0 <= j < |cs| ==> Eligible(cs[j], userId, groups, matches, targets)
  {
    CandidatesOfOthersEligible(groups, matches, userId, targets, userAvg);
  }

  /** The 20 best of the other users' candidates are eligible. */
  lemma TopEligible(groups: seq<BuddyGroup>, matches: seq<BuddyMatch>, userId: UserId,
                    targets: seq<string>, userAvg: real)
    requires FromAggregation(groups) && |targets| > 0
    ensures FromAggregation(OtherUsers(groups, userId))
    ensures var bs := Top(Candidates(OtherUsers(groups, userId), ConnectedUserIds(matches, userId), targets, userAvg));
            forall i :: 0 <= i < |bs| ==> Eligible(bs[i], userId, groups, matches, targets)
  {
    CandidatesEligible(groups, matches, userId, targets, userAvg);
  }

  lemma CandidatesOfOthersEligible(groups: seq<BuddyGroup>, matches: seq<BuddyMatch>, userId: UserId,
                                   targets: seq<string>, userAvg: real)
    requires FromAggregation(groups) && |targets| > 0
    ensures FromAggregation(OtherUsers(groups, userId))
    ensures var cs := Candidates(OtherUsers(groups, userId), ConnectedUserIds(matches, userId), targets, userAvg);
            forall j :: 0 <= j < |cs| ==> Eligible(cs[j], userId, groups, matches, targets)
  {
    var others := OtherUsers(groups, userId);
    var connected := ConnectedUserIds(matches, userId);
    var cs := Candidates(others, connected, targets, userAvg);
    forall i | 0 <= i < |others| ensures NoDuplicates(others[i].companies) {
      var k :| 0 <= k < |groups| && groups[k] == others[i];
    }
    forall j | 0 <= j < |cs| ensures Eligible(cs[j], userId, groups, matches, targets) {
      var i :| 0 <= i < |others| && RowCandidate(cs[j], others, connected, targets, userAvg, i);
      assert cs[j].userId == others[i].id != userId;
      var k :| 0 <= k < |groups| && groups[k] == others[i];
    }
  }

  /** `findBuddies`: `userFound` says whether the user exists, `recent` is their last 10 interviews
      (newest first), `groups` the aggregation rows and `matches` the buddy-match collection. */
  function FindBuddies(userFound: bool, userId: UserId, recent: seq<Interview>, groups: seq<BuddyGroup>,
                       matches: seq<BuddyMatch>): (r: Result<BuddySearch>)
    requires FromAggregation(groups)
    ensures !userFound ==> r == Err(UserNotFound)
    ensures userFound && |TargetCompanies(recent)| == 0 ==> r == Ok(NoTargets(NoTargetsMessage, []))
    ensures userFound && |TargetCompanies(recent)| > 0 ==>
              r.Ok? && r.value.Found? && r.value.totalFound == |r.value.buddies| <= MaxBuddies
              && SortedDesc(r.value.buddies, MatchScoreOf)
    ensures r.Ok? ==> forall i :: 0 <= i < |r.value.buddies| ==>
              Listed(r.value.buddies[i], userId, groups, matches, TargetCompanies(recent))
    ensures r.Ok? ==> forall i :: 0 <= i < |r.value.buddies| ==>
              Scored(r.value.buddies[i], groups, ConnectedUserIds(matches, userId), TargetCompanies(recent), UserAverage(recent))
    ensures userFound && |TargetCompanies(recent)| > 0 ==>
              multiset(r.value.buddies)
              <= multiset(Candidates(groups, ConnectedUserIds(matches, userId), TargetCompanies(recent), UserAverage(recent)))
  {
    if !userFound then Err(UserNotFound)
    else
      var targets := TargetCompanies(recent);
      if |targets| == 0 then Ok(NoTargets(NoTargetsMessage, []))
      else
        var connected := ConnectedUserIds(matches, userId);
        var candidates := Candidates(groups, connected, targets, UserAverage(recent));
        var buddies := Top(candidates);
        TopListed(groups, matches, userId, targets, UserAverage(recent));
        Ok(Found(|buddies|, buddies))
  }

  /** `findBuddies` with the searcher's own rows dropped, as the `$ne` stage intends: every
      returned buddy is eligible, and so another user. */
  function FindBuddiesCorrected(userFound: bool, userId: UserId, recent: seq<Interview>, groups: seq<BuddyGroup>,
                                matches: seq<BuddyMatch>): (r: Result<BuddySearch>)
    requires FromAggregation(groups)
    ensures !userFound ==> r == Err(UserNotFound)
    ensures userFound && |TargetCompanies(recent)| == 0 ==> r == Ok(NoTargets(NoTargetsMessage, []))
    ensures userFound && |TargetCompanies(recent)| > 0 ==>
              r.Ok? && r.value.Found? && r.value.totalFound == |r.value.buddies| <= MaxBuddies
              && SortedDesc(r.value.buddies, MatchScoreOf)
    ensures r.Ok? ==> forall i :: 0 <= i < |r.value.buddies| ==>
              Eligible(r.value.buddies[i], userId, groups, matches, TargetCompanies(recent))
    ensures r.Ok? ==> forall i :: 0 <= i < |r.value.buddies| ==>
              Scored(r.value.buddies[i], OtherUsers(groups, userId), ConnectedUserIds(matches, userId),
                     TargetCompanies(recent), UserAverage(recent))
    ensures userFound && |TargetCompanies(recent)| > 0 ==>
              multiset(r.value.buddies)
              <= multiset(Candidates(OtherUsers(groups, userId), ConnectedUserIds(matches, userId),
                                     TargetCompanies(recent), UserAverage(recent)))
  {
    if !userFound then Err(UserNotFound)
    else
      var targets := TargetCompanies(recent);
      if |targets| == 0 then Ok(NoTargets(NoTargetsMessage, []))
      else
        var buddies := TopOfOthers(groups, matches, userId, targets, UserAverage(recent));
        Ok(Found(|buddies|, buddies))
  }

  /** The 20 best candidates among the other users' rows. */
  function TopOfOthers(groups: seq<BuddyGroup>, matches: seq<BuddyMatch>, userId: UserId,
                       targets: seq<string>, userAvg: real): (bs: seq<BuddyCandidate>)
    requires FromAggregation(groups) && |targets| > 0
    ensures |bs| <= MaxBuddies && SortedDesc(bs, MatchScoreOf)
    ensures forall i :: 0 <= i < |bs| ==> Eligible(bs[i], userId, groups, matches, targets)
    ensures forall i :: 0 <= i < |bs| ==>
              Scored(bs[i], OtherUsers(groups, userId), ConnectedUserIds(matches, userId), targets, userAvg)
    ensures multiset(bs) <= multiset(OthersCandidates(groups, matches, userId, targets, userAvg))
  {
    TopOfOthersScored(groups, matches, userId, targets, userAvg);
    Top(OthersCandidates(groups, matches, userId, targets, userAvg))
  }

  /** The scored candidates of every other user's row that the searcher is not connected to. */
  function OthersCandidates(groups: seq<BuddyGroup>, matches: seq<BuddyMatch>, userId: UserId,
                            targets: seq<string>, userAvg: real): seq<BuddyCandidate>
    requires FromAggregation(groups) && |targets| > 0
  {
    Candidates(OtherUsers(groups, userId), ConnectedUserIds(matches, userId), targets, userAvg)
  }

  /** The 20 best of the other users' candidates are eligible, and each is the scored candidate
      of another user's unconnected row. */
  lemma TopOfOthersScored(groups: seq<BuddyGroup>, matches: seq<BuddyMatch>, userId: UserId,
                          targets: seq<string>, userAvg: real)
    requires FromAggregation(groups) && |targets| > 0
    ensures var bs := Top(OthersCandidates(groups, matches, userId, targets, userAvg));
            forall i :: 0 <= i < |bs| ==>
              Eligible(bs[i], userId, groups, matches, targets)
              && Scored(bs[i], OtherUsers(groups, userId), ConnectedUserIds(matches, userId), targets, userAvg)
  {
    TopEligible(groups, matches, userId, targets, userAvg);
    var others := OtherUsers(groups, userId);
    var connected := ConnectedUserIds(matches, userId);
    var cs := Candidates(others, connected, targets, userAvg);
    var bs := Top(cs);
    forall i | 0 <= i < |bs| ensures Scored(bs[i], others, connected, targets, userAvg) {
      var j :| 0 <= j < |cs| && cs[j] == bs[i];
    }
  }

  /** A candidate is kept by the slice, or 20 candidates are kept and each scores at least as
      high. */
  lemma TopKeepsBest(candidates: seq<BuddyCandidate>, c: BuddyCandidate)
    requires c in candidates
    ensures var bs := Top(candidates);
            c in bs || (|bs| == MaxBuddies && forall j :: 0 <= j < |bs| ==> bs[j].matchScore >= c.matchScore)
  {
    var sorted := SortDesc(candidates, MatchScoreOf);
    PrefixKeepsLargest(candidates, MatchScoreOf, MaxBuddies, c);
    if |candidates| > MaxBuddies {
      assert FirstN(sorted, MaxBuddies) == sorted[..MaxBuddies];
    }
  }

  /** Only the 20 best survive the slice: every eligible candidate is either returned or scores
      no higher than each of the 20 returned. */
  lemma FindBuddiesKeepsBest(userId: UserId, recent: seq<Interview>, groups: seq<BuddyGroup>,
                             matches: seq<BuddyMatch>, i: nat)
    requires FromAggregation(groups)
    requires |TargetCompanies(recent)| > 0
    requires i < |groups| && forall k :: 0 <= k < |matches| ==> !Partner(matches[k], userId, groups[i].id)
    ensures var c := ScoreCandidate(groups[i], TargetCompanies(recent), UserAverage(recent));
            var bs := FindBuddies(true, userId, recent, groups, matches).value.buddies;
            c in bs || (|bs| == MaxBuddies && forall j :: 0 <= j < |bs| ==> bs[j].matchScore >= c.matchScore)
  {
    var targets := TargetCompanies(recent);
    var connected := ConnectedUserIds(matches, userId);
    var candidates := Candidates(groups, connected, targets, UserAverage(recent));
    assert FindBuddies(true, userId, recent, groups, matches).value.buddies == Top(candidates);
    var c := ScoreCandidate(groups[i], targets, UserAverage(recent));
    assert c in candidates;
    TopKeepsBest(candidates, c);
  }

  /** The same for the corrected search, over the other users' rows. */
  lemma FindBuddiesCorrectedKeepsBest(userId: UserId, recent: seq<Interview>, groups: seq<BuddyGroup>,
                                      matches: seq<BuddyMatch>, i: nat)
    requires FromAggregation(groups)
    requires |TargetCompanies(recent)| > 0
    requires i < |groups| && groups[i].id != userId
    requires forall k :: 0 <= k < |matches| ==> !Partner(matches[k], userId, groups[i].id)
    ensures var c := ScoreCandidate(groups[i], TargetCompanies(recent), UserAverage(recent));
            var bs := FindBuddiesCorrected(true, userId, recent, groups, matches).value.buddies;
            c in bs || (|bs| == MaxBuddies && forall j :: 0 <= j < |bs| ==> bs[j].matchScore >= c.matchScore)
  {
    var targets := TargetCompanies(recent);
    var connected := ConnectedUserIds(matches, userId);
    var others := OtherUsers(groups, userId);
    CandidatesEligible(groups, matches, userId, targets, UserAverage(recent));
    var candidates := Candidates(others, connected, targets, UserAverage(recent));
    assert FindBuddiesCorrected(true, userId, recent, groups, matches).value.buddies == Top(candidates);
    OtherRowScored(userId, groups, matches, targets, UserAverage(recent), i);
    TopKeepsBest(candidates, ScoreCandidate(groups[i], targets, UserAverage(recent)));
  }

  /** Another user's unconnected row is scored among the other users' candidates. */
  lemma OtherRowScored(userId: UserId, groups: seq<BuddyGroup>, matches: seq<BuddyMatch>,
                       targets: seq<string>, userAvg: real, i: nat)
    requires FromAggregation(groups) && |targets| > 0
    requires i < |groups| && groups[i].id != userId
    requires forall k :: 0 <= k < |matches| ==> !Partner(matches[k], userId, groups[i].id)
    ensures forall j :: 0 <= j < |OtherUsers(groups, userId)| ==> NoDuplicates(OtherUsers(groups, userId)[j].companies)
    ensures ScoreCandidate(groups[i], targets, userAvg)
            in Candidates(OtherUsers(groups, userId), ConnectedUserIds(matches, userId), targets, userAvg)
  {
    var others := OtherUsers(groups, userId);
    CandidatesEligible(groups, matches, userId, targets, userAvg);
    var k :| 0 <= k < |others| && others[k] == groups[i];
  }

  /** As written, a searcher whose own interviews form a row of a short aggregation result, and
      who is not matched with themselves, is listed among their own buddies. */
  lemma SearcherListedAsOwnBuddy(userId: UserId, recent: seq<Interview>, groups: seq<BuddyGroup>,
                                 matches: seq<BuddyMatch>, i: nat)
    requires FromAggregation(groups)
    requires |TargetCompanies(recent)| > 0
    requires i < |groups| < MaxBuddies && groups[i].id == userId
    requires forall k :: 0 <= k < |matches| ==> !Partner(matches[k], userId, userId)
    ensures var bs := FindBuddies(true, userId, recent, groups, matches).value.buddies;
            exists j :: 0 <= j < |bs| && bs[j].userId == userId
  {
    FindBuddiesKeepsBest(userId, recent, groups, matches, i);
    var c := ScoreCandidate(groups[i], TargetCompanies(recent), UserAverage(recent));
    var bs := FindBuddies(true, userId, recent, groups, matches).value.buddies;
    var candidates := Candidates(groups, ConnectedUserIds(matches, userId), TargetCompanies(recent), UserAverage(recent));
    assert |bs| <= |candidates| <= |groups|;
    var j :| 0 <= j < |bs| && bs[j] == c;
  }

  // ---- connectWithBuddy ----

  /** The optional fields of a connection request. */
  datatype MatchRequest = MatchRequest(targetCompany: Option<string>, targetRole: Option<string>, matchScore: Option<real>)

  /** `matchData.matchScore || 0`. */
  function ScoreOrZeroOf(req: MatchRequest): real
  {
    match req.matchScore
    case Some(s) => s
    case None => 0.0
  }

  /** The position of the first match pairing a and b in either order (`findOne` with `$or`). */
  function FindPair(matches: seq<BuddyMatch>, a: UserId, b: UserId): (r: Option<nat>)
    ensures r.Some? ==> r.value < |matches| && Pairs(matches[r.value], a, b)
                        && forall j :: 0 <= j < r.value ==> !Pairs(matches[j], a, b)
    ensures r.None? <==> forall j :: 0 <= j < |matches| ==> !Pairs(matches[j], a, b)
  {
    if |matches| == 0 then None
    else if Pairs(matches[0], a, b) then Some(0)
    else
      assert forall i :: 0 < i < |matches| ==> matches[i] == matches[1..][i - 1];
      match FindPair(matches[1..], a, b)
      case Some(k) => Some(k + 1)
      case None => None
  }

  /** A new match for a pair that has none keeps the collection free of repeated pairs. */
  lemma NewPairKeepsUnique(matches: seq<BuddyMatch>, m: BuddyMatch)
    requires UniqueUnorderedPairs(matches)
    requires FindPair(matches, m.user1, m.user2).None?
    ensures UniqueUnorderedPairs(matches + [m])
  {
    var ext := matches + [m];
    forall i, j | 0 <= i < j < |ext| ensures !Pairs(ext[j], ext[i].user1, ext[i].user2) {
      if j == |matches| {
        assert !Pairs(matches[i], m.user1, m.user2);
      }
    }
  }

  /** `connectWithBuddy`: accepts a pending match between the two users, refuses any other existing
      one, and otherwise creates a pending match initiated by `userId`. */
  method ConnectWithBuddy(matches: seq<BuddyMatch>, userId: UserId, buddyId: UserId, req: MatchRequest, now: Time)
    returns (r: Result<BuddyMatch>)
    modifies matches
    ensures var found := FindPair(matches, userId, buddyId);
            found.Some? ==>
              var m := matches[found.value];
              if old(m.status) == Pending then
                r == Ok(m) && m.status == Accepted && m.connectedAt == Some(now)
                && m.mockInterviews == old(m.mockInterviews) && m.lastInteraction == old(m.lastInteraction)
                && m.totalSessions == old(m.totalSessions)
              else r == Err(AlreadyConnected) && unchanged(m)
    ensures var found := FindPair(matches, userId, buddyId);
            found.None? ==>
              if ScoreInRange(ScoreOrZeroOf(req)) then
                r.Ok? && fresh(r.value)
                && r.value.user1 == userId && r.value.user2 == buddyId && r.value.initiatedBy == userId
                && r.value.targetCompany == req.targetCompany && r.value.targetRole == req.targetRole
                && r.value.matchScore == ScoreOrZeroOf(req)
                && r.value.status == Pending && r.value.connectedAt == None && r.value.mockInterviews == []
                && (UniqueUnorderedPairs(matches) ==> UniqueUnorderedPairs(matches + [r.value]))
              else r == Err(MatchValidationFailed)
    ensures forall i :: 0 <= i < |matches| && !Pairs(matches[i], userId, buddyId) ==> unchanged(matches[i])
    ensures r.Err? ==> forall i :: 0 <= i < |matches| ==> unchanged(matches[i])
  {
    var found := FindPair(matches, userId, buddyId);
    if found.Some? {
      var m := matches[found.value];
      if m.status == Pending {
        m.status := Accepted;
        m.connectedAt := Some(now);
        return Ok(m);
      }
      return Err(AlreadyConnected);
    }
    var score := ScoreOrZeroOf(req);
    if !ScoreInRange(score) {
      return Err(MatchValidationFailed);
    }
    var created := new BuddyMatch(userId, buddyId, req.targetCompany, req.targetRole, score, userId, now);
    if UniqueUnorderedPairs(matches) {
      NewPairKeepsUnique(matches, created);
    }
    return Ok(created);
  }

  // ---- scheduleMockInterview ----

  datatype MockInterviewRequest = MockInterviewRequest(scheduledDate: Time, duration: Option<real>, interviewType: Option<string>)

  /** `interviewData.duration || 60`. */
  function DurationOrDefault(d: Option<real>): (r: real)
    ensures d.None? || d == Some(0.0) ==> r == 60.0
    ensures d.Some? && d.value != 0.0 ==> r == d.value
  {
    match d
    case Some(v) => if v != 0.0 then v else 60.0
    case None => 60.0
  }

  /** `scheduleMockInterview`: only an accepted match takes a mock interview; it gets exactly one
      new, uncompleted entry at the end, and earlier entries stay as they were. */
  method ScheduleMockInterview(m: BuddyMatch?, req: MockInterviewRequest, now: Time) returns (r: Result<BuddyMatch>)
    modifies m
    ensures m == null ==> r == Err(MatchNotFound)
    ensures m != null && old(m.status) != Accepted ==> r == Err(NotAccepted) && unchanged(m)
    ensures m != null && old(m.status) == Accepted ==>
              r == Ok(m)
              && m.mockInterviews == old(m.mockInterviews)
                   + [MockInterview(req.scheduledDate, DurationOrDefault(req.duration), req.interviewType, false)]
              && m.lastInteraction == now
              && m.status == old(m.status) && m.connectedAt == old(m.connectedAt)
              && m.totalSessions == old(m.totalSessions)
  {
    if m == null {
      return Err(MatchNotFound);
    }
    if m.status != Accepted {
      return Err(NotAccepted);
    }
    m.mockInterviews := m.mockInterviews
      + [MockInterview(req.scheduledDate, DurationOrDefault(req.duration), req.interviewType, false)];
    m.lastInteraction := now;
    return Ok(m);
  }

  // ---- study groups ----

  datatype GroupRequest = GroupRequest(
    name: Option<string>,
    description: Option<string>,
    targetCompany: Option<string>,
    targetRole: Option<string>,
    focusAreas: Option<seq<string>>,
    maxMembers: Option<int>,
    isPrivate: Option<bool>)

  /** `maxMembers || 10`. */
  function MaxMembersOrDefault(m: Option<int>): (r: int)
    ensures m.None? || m == Some(0) ==> r == DefaultMaxMembers
    ensures m.Some? && m.value != 0 ==> r == m.value
  {
    match m
    case Some(v) => if v != 0 then v else DefaultMaxMembers
    case None => DefaultMaxMembers
  }

  /** `createStudyGroup`: a group needs a non-empty name; its creator is its only member and its
      admin. */
  method CreateStudyGroup(userId: UserId, req: GroupRequest, now: Time) returns (r: Result<StudyGroup>)
    ensures req.name.None? || req.name == Some("") ==> r == Err(GroupValidationFailed)
    ensures req.name.Some? && req.name.value != "" ==>
              r.Ok? && fresh(r.value) && r.value.name == req.name.value && r.value.creator == userId
              && r.value.members == [GroupMember(userId, now, Admin)]
              && MemberCount(r.value.members) == 1 && IsAdmin(r.value.members, userId)
              && r.value.maxMembers == MaxMembersOrDefault(req.maxMembers)
              && r.value.focusAreas == (if req.focusAreas.Some? then req.focusAreas.value else [])
              && r.value.isPrivate == (req.isPrivate == Some(true))
              && r.value.status == Active
  {
    if req.name.None? || req.name.value == "" {
      return Err(GroupValidationFailed);
    }
    var focus := if req.focusAreas.Some? then req.focusAreas.value else [];
    var members := [GroupMember(userId, now, Admin)];
    var g := new StudyGroup(req.name.value, req.description, req.targetCompany, req.targetRole, focus,
                            userId, members, MaxMembersOrDefault(req.maxMembers), req.isPrivate == Some(true), now);
    assert FirstRecord(members, userId) == Some(members[0]);
    return Ok(g);
  }

  /** The `onlyAvailable` filter of `findStudyGroups`: with the flag, exactly the groups with fewer
      members than `maxMembers`, in their order. */
  function AvailableGroups(groups: seq<StudyGroup>, onlyAvailable: bool): (r: seq<StudyGroup>)
    reads groups
    ensures !onlyAvailable ==> r == groups
    ensures onlyAvailable ==> forall i :: 0 <= i < |r| ==> r[i] in groups && MemberCount(r[i].members) < r[i].maxMembers
    ensures onlyAvailable ==> forall i :: 0 <= i < |groups| && MemberCount(groups[i].members) < groups[i].maxMembers ==> groups[i] in r
  {
    if !onlyAvailable then groups
    else if |groups| == 0 then []
    else
      var rest := AvailableGroups(groups[1..], true);
      assert forall i :: 0 < i < |groups| ==> groups[i] == groups[1..][i - 1];
      if MemberCount(groups[0].members) < groups[0].maxMembers then [groups[0]] + rest else rest
  }

  /** The filter keeps the groups' order: filtering a concatenation concatenates the filtered
      parts. */
  lemma {:induction false} AvailableGroupsAppend(xs: seq<StudyGroup>, ys: seq<StudyGroup>)
    ensures AvailableGroups(xs + ys, true) == AvailableGroups(xs, true) + AvailableGroups(ys, true)
  {
    if |xs| > 0 {
      assert (xs + ys)[1..] == xs[1..] + ys;
      AvailableGroupsAppend(xs[1..], ys);
    } else {
      assert xs + ys == ys;
    }
  }

  /** `joinStudyGroup`: refuses a member and a full group; otherwise appends exactly one record
      with the member role. */
  method JoinStudyGroup(g: StudyGroup?, userId: UserId, now: Time) returns (r: Result<StudyGroup>)
    modifies g
    ensures g == null ==> r == Err(GroupNotFound)
    ensures g != null && IsMember(old(g.members), userId) ==> r == Err(AlreadyMember) && unchanged(g)
    ensures g != null && !IsMember(old(g.members), userId) && MemberCount(old(g.members)) >= g.maxMembers ==>
              r == Err(GroupFull) && unchanged(g)
    ensures g != null && !IsMember(old(g.members), userId) && MemberCount(old(g.members)) < g.maxMembers ==>
              r == Ok(g) && g.members == old(g.members) + [GroupMember(userId, now, Member)]
              && g.lastActivity == now
              && IsMember(g.members, userId) && !IsAdmin(g.members, userId)
              && MemberCount(g.members) <= g.maxMembers
              && forall v :: v != userId ==> IsAdmin(g.members, v) == IsAdmin(old(g.members), v)
  {
    if g == null {
      return Err(GroupNotFound);
    }
    if IsMember(g.members, userId) {
      return Err(AlreadyMember);
    }
    if MemberCount(g.members) >= g.maxMembers {
      return Err(GroupFull);
    }
    var rec := GroupMember(userId, now, Member);
    forall v ensures v != userId ==> IsAdmin(g.members + [rec], v) == IsAdmin(g.members, v) {
      AppendRecord(g.members, rec, v);
    }
    AppendRecord(g.members, rec, userId);
    g.members := g.members + [rec];
    g.lastActivity := now;
    return Ok(g);
  }
}
