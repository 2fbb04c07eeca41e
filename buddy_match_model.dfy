/** The BuddyMatch and StudyGroup documents of Backend/models/BuddyMatch.model.js: their fields,
    enums and defaults, the unique (user1, user2) index, and the StudyGroup virtuals and methods
    `memberCount`, `availableSlots`, `isMember` and `isAdmin`. Fields the core never writes
    after creation are constants. */
module BuddyMatchModel {
  import opened Wrappers
  import opened Numeric

  /** A user's ObjectId; the source compares ids through their string form. */
  type UserId = nat

  /** The status enum of a buddy match; a new match is pending. */
  datatype MatchStatus = Pending | Accepted | Rejected | Blocked

  datatype MockInterview = MockInterview(
    scheduledDate: Time,
    duration: real,
    interviewType: Option<string>,
    completed: bool)

  /** The schema bounds of a match score, [0, 100]. */
  predicate ScoreInRange(score: real)
  {
    0.0 <= score <= 100.0
  }

  class BuddyMatch {
    const user1: UserId
    const user2: UserId
    const targetCompany: Option<string>
    const targetRole: Option<string>
    const matchScore: real
    const initiatedBy: UserId
    var status: MatchStatus
    var connectedAt: Option<Time>
    var mockInterviews: seq<MockInterview>
    var lastInteraction: Time
    var totalSessions: int

    /** A new document with the schema defaults: pending, no mock interviews, no sessions. */
    constructor (user1: UserId, user2: UserId, targetCompany: Option<string>, targetRole: Option<string>,
                 matchScore: real, initiatedBy: UserId, now: Time)
      ensures this.user1 == user1 && this.user2 == user2
      ensures this.targetCompany == targetCompany && this.targetRole == targetRole
      ensures this.matchScore == matchScore && this.initiatedBy == initiatedBy
      ensures status == Pending && connectedAt == None && mockInterviews == []
      ensures lastInteraction == now && totalSessions == 0
    {
      this.user1 := user1;
      this.user2 := user2;
      this.targetCompany := targetCompany;
      this.targetRole := targetRole;
      this.matchScore := matchScore;
      this.initiatedBy := initiatedBy;
      status := Pending;
      connectedAt := None;
      mockInterviews := [];
      lastInteraction := now;
      totalSessions := 0;
    }
  }

  /** Whether a match pairs a and b, in either order. */
  predicate Pairs(m: BuddyMatch, a: UserId, b: UserId)
  {
    (m.user1 == a && m.user2 == b) || (m.user1 == b && m.user2 == a)
  }

  /** What the unique index on { user1, user2 } enforces: no ordered pair occurs twice. */
  predicate UniqueOrderedPairs(ms: seq<BuddyMatch>)
    ensures UniqueOrderedPairs(ms) <==>
              forall i, j :: 0 <= i < |ms| && 0 <= j < |ms| && ms[i].user1 == ms[j].user1 && ms[i].user2 == ms[j].user2
                             ==> i == j
  {
    forall i, j :: 0 <= i < j < |ms| ==> ms[i].user1 != ms[j].user1 || ms[i].user2 != ms[j].user2
  }

  /** The stronger property the services aim at: no two matches pair the same two users. */
  predicate UniqueUnorderedPairs(ms: seq<BuddyMatch>)
  {
    forall i, j :: 0 <= i < j < |ms| ==> !Pairs(ms[j], ms[i].user1, ms[i].user2)
  }

  /** Unordered uniqueness implies what the index enforces, but not conversely: the index admits
      a match and its reversal side by side. */
  lemma UnorderedImpliesOrdered(ms: seq<BuddyMatch>)
    requires UniqueUnorderedPairs(ms)
    ensures UniqueOrderedPairs(ms)
  {
  }

  lemma IndexAdmitsReversedPair(a: BuddyMatch, b: BuddyMatch)
    requires a.user1 != a.user2 && b.user1 == a.user2 && b.user2 == a.user1
    ensures UniqueOrderedPairs([a, b])
    ensures !UniqueUnorderedPairs([a, b])
  {
    assert Pairs([a, b][1], [a, b][0].user1, [a, b][0].user2);
  }

  // ---- study groups ----

  datatype Role = Admin | Member

  datatype GroupMember = GroupMember(user: UserId, joinedAt: Time, role: Role)

  datatype GroupStatus = Active | Inactive | Archived

  /** Schema default of `maxMembers`. */
  const DefaultMaxMembers := 10

  class StudyGroup {
    const name: string
    const description: Option<string>
    const targetCompany: Option<string>
    const targetRole: Option<string>
    const focusAreas: seq<string>
    const creator: UserId
    var members: seq<GroupMember>
    const maxMembers: int
    const isPrivate: bool
    const requireApproval: bool
    const status: GroupStatus
    var lastActivity: Time

    /** A new document; `requireApproval` defaults to true, `status` to active. */
    constructor (name: string, description: Option<string>, targetCompany: Option<string>,
                 targetRole: Option<string>, focusAreas: seq<string>, creator: UserId,
                 members: seq<GroupMember>, maxMembers: int, isPrivate: bool, now: Time)
      ensures this.name == name && this.description == description
      ensures this.targetCompany == targetCompany && this.targetRole == targetRole
      ensures this.focusAreas == focusAreas && this.creator == creator
      ensures this.members == members && this.maxMembers == maxMembers && this.isPrivate == isPrivate
      ensures requireApproval && status == Active && lastActivity == now
    {
      this.name := name;
      this.description := description;
      this.targetCompany := targetCompany;
      this.targetRole := targetRole;
      this.focusAreas := focusAreas;
      this.creator := creator;
      this.members := members;
      this.maxMembers := maxMembers;
      this.isPrivate := isPrivate;
      requireApproval := true;
      status := Active;
      lastActivity := now;
    }
  }

  /** The `memberCount` virtual. */
  function MemberCount(members: seq<GroupMember>): (r: nat)
    ensures r == 0 <==> forall u :: !IsMember(members, u)
  {
    assert |members| > 0 ==> IsMember(members, members[0].user);
    |members|
  }

  /** The `availableSlots` virtual. */
  function AvailableSlots(members: seq<GroupMember>, maxMembers: int): (r: int)
    ensures r > 0 <==> MemberCount(members) < maxMembers
    ensures r <= maxMembers
  {
    maxMembers - |members|
  }

  /** The two virtuals partition the capacity: count plus free slots is `maxMembers`, and a group
      has a free slot exactly when its member count is below `maxMembers`; appending any record
      takes one slot. */
  lemma CountAndSlots(members: seq<GroupMember>, maxMembers: int, rec: GroupMember)
    ensures MemberCount(members) + AvailableSlots(members, maxMembers) == maxMembers
    ensures AvailableSlots(members, maxMembers) > 0 <==> MemberCount(members) < maxMembers
    ensures MemberCount(members + [rec]) == MemberCount(members) + 1
    ensures AvailableSlots(members + [rec], maxMembers) == AvailableSlots(members, maxMembers) - 1
  {
  }

  /** `isMember`: some member record belongs to the user. */
  predicate IsMember(members: seq<GroupMember>, user: UserId)
    ensures IsMember(members, user) <==> user in (set m | m in members :: m.user)
  {
    exists i :: 0 <= i < |members| && members[i].user == user
  }

  /** `members.find(m => m.user == user)`: the user's first member record. */
  function FirstRecord(members: seq<GroupMember>, user: UserId): (r: Option<GroupMember>)
    ensures r.Some? <==> IsMember(members, user)
    ensures r.Some? ==> exists i :: 0 <= i < |members| && members[i] == r.value
                          && r.value.user == user
                          && forall j :: 0 <= j < i ==> members[j].user != user
  {
    if |members| == 0 then None
    else if members[0].user == user then Some(members[0])
    else
      var r := FirstRecord(members[1..], user);
      TailRecord(members, user, r);
      r
  }

  /** How the first record of a list relates to the first record of its tail, when the head does
      not belong to the user. */
  lemma TailRecord(members: seq<GroupMember>, user: UserId, r: Option<GroupMember>)
    requires |members| > 0 && members[0].user != user
    requires r.Some? <==> IsMember(members[1..], user)
    requires r.Some? ==> exists i :: 0 <= i < |members[1..]| && members[1..][i] == r.value
                          && r.value.user == user
                          && forall j :: 0 <= j < i ==> members[1..][j].user != user
    ensures r.Some? <==> IsMember(members, user)
    ensures r.Some? ==> exists i :: 0 <= i < |members| && members[i] == r.value
                          && r.value.user == user
                          && forall j :: 0 <= j < i ==> members[j].user != user
  {
    if IsMember(members[1..], user) {
      var k :| 0 <= k < |members[1..]| && members[1..][k].user == user;
      assert members[k + 1].user == user;
    }
    if IsMember(members, user) {
      var k :| 0 <= k < |members| && members[k].user == user;
      assert members[1..][k - 1].user == user;
    }
    if r.Some? {
      var i :| 0 <= i < |members[1..]| && members[1..][i] == r.value && r.value.user == user
               && forall j :: 0 <= j < i ==> members[1..][j].user != user;
      assert members[i + 1] == r.value;
      assert forall j :: 0 <= j < i + 1 ==> members[j].user != user by {
        forall j | 0 <= j < i + 1 ensures members[j].user != user {
          if j > 0 { assert members[j] == members[1..][j - 1]; }
        }
      }
    }
  }

  /** `isAdmin`: the user's first member record has the admin role. */
  function IsAdmin(members: seq<GroupMember>, user: UserId): (r: bool)
    ensures r ==> IsMember(members, user)
  {
    match FirstRecord(members, user)
    case Some(m) => m.role == Admin
    case None => false
  }

  /** Appending a record for a user who is not yet a member changes nobody's admin status, and
      makes that user a member who is an admin exactly when the record's role is admin. */
  lemma {:induction false} AppendRecord(members: seq<GroupMember>, rec: GroupMember, v: UserId)
    requires !IsMember(members, rec.user)
    ensures IsMember(members + [rec], rec.user)
    ensures v != rec.user ==> IsAdmin(members + [rec], v) == IsAdmin(members, v)
    ensures IsAdmin(members + [rec], rec.user) <==> rec.role == Admin
  {
    var ext := members + [rec];
    assert ext[|members|] == rec;
    if |members| > 0 {
      assert ext[1..] == members[1..] + [rec];
      assert !IsMember(members[1..], rec.user) by {
        forall k | 0 <= k < |members[1..]| ensures members[1..][k].user != rec.user {
          assert members[1..][k] == members[k + 1];
        }
      }
      AppendRecord(members[1..], rec, v);
      assert FirstRecord(ext, v) == (if members[0].user == v then Some(members[0]) else FirstRecord(members[1..] + [rec], v));
      assert FirstRecord(ext, rec.user) == FirstRecord(members[1..] + [rec], rec.user);
    } else {
      assert ext == [rec];
    }
  }
}
