/**
 * The admin dashboard (src/pages/Index.tsx): approving and rejecting mentor
 * applications, the three lists the page draws from the mentors, and each
 * mentor's student count.
 *
 * The page keeps its own copy of the mentor list; a decision replaces that
 * copy and never reaches the store's mentor table.
 */
module AdminDashboard {

  import opened Types
  import opened Seqs

  /** The "Pending Approvals" test: `mentor.pending` is truthy, so a missing flag reads as not pending. */
  function IsPending(m: Mentor): (b: bool)
    ensures m.pending.None? ==> !b
    ensures m.pending.Some? ==> b == m.pending.value
  {
    m.pending == Some(true)
  }

  /** The "Approved Mentors" test: `mentor.approved` is truthy, so a missing flag reads as not approved. */
  function IsApproved(m: Mentor): (b: bool)
    ensures m.approved.None? ==> !b
    ensures m.approved.Some? ==> b == m.approved.value
  {
    m.approved == Some(true)
  }

  /** The "Rejected Applications" test: `approved` is exactly false and the mentor is not pending. */
  function IsRejected(m: Mentor): (b: bool)
    ensures b ==> !IsApproved(m) && !IsPending(m)
    ensures m.approved.None? ==> !b
  {
    m.approved == Some(false) && !IsPending(m)
  }

  function PendingList(mentors: seq<Mentor>): (r: seq<Mentor>)
    ensures |r| <= |mentors|
    ensures forall m :: m in r <==> m in mentors && IsPending(m)
  {
    Filter(mentors, IsPending)
  }

  function ApprovedList(mentors: seq<Mentor>): (r: seq<Mentor>)
    ensures |r| <= |mentors|
    ensures forall m :: m in r <==> m in mentors && IsApproved(m)
  {
    Filter(mentors, IsApproved)
  }

  function RejectedList(mentors: seq<Mentor>): (r: seq<Mentor>)
    ensures |r| <= |mentors|
    ensures forall m :: m in r <==> m in mentors && IsRejected(m)
  {
    Filter(mentors, IsRejected)
  }

  /** A rejected mentor is shown in the rejected list only. */
  lemma RejectedListedAlone(mentors: seq<Mentor>, m: Mentor)
    requires m in RejectedList(mentors)
    ensures m !in PendingList(mentors) && m !in ApprovedList(mentors)
  {
  }

  /** The two fields a decision sets, set to `approved` and not pending. */
  function Decided(m: Mentor, approve: bool): Mentor {
    m.(approved := Some(approve), pending := Some(false))
  }

  /**
   * `handleApprove` (`approve`) and `handleReject` (`!approve`): every
   * mentor with the id gets the decision; everyone else, the length and
   * the order stay as they were.
   */
  function Decide(mentors: seq<Mentor>, mentorId: int, approve: bool): (r: seq<Mentor>)
    ensures |r| == |mentors|
    ensures forall i :: 0 <= i < |mentors| && mentors[i].id != mentorId ==> r[i] == mentors[i]
    ensures forall i :: 0 <= i < |mentors| && mentors[i].id == mentorId ==>
      && r[i].approved == Some(approve) && r[i].pending == Some(false)
      && r[i].(approved := mentors[i].approved, pending := mentors[i].pending) == mentors[i]
  {
    seq(|mentors|, i requires 0 <= i < |mentors| =>
      if mentors[i].id == mentorId then Decided(mentors[i], approve) else mentors[i])
  }

  /** `handleApprove`: the mentors with the id become approved and leave the pending list. */
  function Approve(mentors: seq<Mentor>, mentorId: int): (r: seq<Mentor>)
    ensures |r| == |mentors|
    ensures forall i :: 0 <= i < |mentors| && mentors[i].id != mentorId ==> r[i] == mentors[i]
    ensures forall i :: 0 <= i < |mentors| && mentors[i].id == mentorId ==>
      IsApproved(r[i]) && !IsPending(r[i]) && !IsRejected(r[i])
  {
    Decide(mentors, mentorId, true)
  }

  /** `handleReject`: the mentors with the id become rejected and leave the other two lists. */
  function Reject(mentors: seq<Mentor>, mentorId: int): (r: seq<Mentor>)
    ensures |r| == |mentors|
    ensures forall i :: 0 <= i < |mentors| && mentors[i].id != mentorId ==> r[i] == mentors[i]
    ensures forall i :: 0 <= i < |mentors| && mentors[i].id == mentorId ==>
      IsRejected(r[i]) && !IsApproved(r[i]) && !IsPending(r[i])
  {
    Decide(mentors, mentorId, false)
  }

  /**
   * After a decision the mentor has left the pending list and sits in
   * exactly one of the approved and rejected lists, the one the decision
   * names.
   */
  lemma DecisionPlacesMentor(mentors: seq<Mentor>, mentorId: int, approve: bool, i: nat)
    requires i < |mentors| && mentors[i].id == mentorId
    ensures var r := Decide(mentors, mentorId, approve);
      && r[i] !in PendingList(r)
      && (r[i] in ApprovedList(r) <==> approve)
      && (r[i] in RejectedList(r) <==> !approve)
  {
  }

  /**
   * A mentor whose `approved` is unset and who is not pending is in none of
   * the three lists: the rejected test asks for `approved` to be exactly false.
   */
  lemma UndecidedMentorListedNowhere(mentors: seq<Mentor>, i: nat)
    requires i < |mentors| && mentors[i].approved.None? && !IsPending(mentors[i])
    ensures mentors[i] !in PendingList(mentors)
    ensures mentors[i] !in ApprovedList(mentors)
    ensures mentors[i] !in RejectedList(mentors)
  {
  }

  /** "Reconsider Approval" applies the approve handler, moving a rejected mentor to the approved list. */
  lemma ReconsiderApproves(mentors: seq<Mentor>, i: nat)
    requires i < |mentors| && IsRejected(mentors[i])
    ensures var r := Approve(mentors, mentors[i].id);
      r[i] in ApprovedList(r) && r[i] !in RejectedList(r) && r[i] !in PendingList(r)
  {
  }

  /** Only the latest decision on a mentor counts. */
  lemma {:induction false} LatestDecisionWins(mentors: seq<Mentor>, mentorId: int, first: bool, second: bool)
    ensures Decide(Decide(mentors, mentorId, first), mentorId, second) == Decide(mentors, mentorId, second)
  {
    var once := Decide(mentors, mentorId, first);
    var twice := Decide(once, mentorId, second);
    var direct := Decide(mentors, mentorId, second);
    forall i | 0 <= i < |mentors| ensures twice[i] == direct[i] {
      if mentors[i].id == mentorId {
        assert once[i].id == mentorId;
      }
    }
  }

  function MatchedTo(mentorId: int): Match -> bool {
    (m: Match) => m.mentor.id == mentorId
  }

  /** `getStudentCount`: how many matches name this mentor. */
  function StudentCount(matches: seq<Match>, mentorId: int): (n: nat)
    ensures n <= |matches|
  {
    |Filter(matches, MatchedTo(mentorId))|
  }

  /** The count is zero exactly when no match names the mentor. */
  lemma NoStudentsIffUnmatched(matches: seq<Match>, mentorId: int)
    ensures StudentCount(matches, mentorId) == 0 <==> forall i :: 0 <= i < |matches| ==> matches[i].mentor.id != mentorId
  {
    FilterLengthEmpty(matches, MatchedTo(mentorId));
  }

  /** A new match raises the count of its own mentor by one and of no other. */
  lemma StudentCountAfterMatch(matches: seq<Match>, added: Match, mentorId: int)
    ensures StudentCount(matches + [added], mentorId)
      == StudentCount(matches, mentorId) + (if added.mentor.id == mentorId then 1 else 0)
  {
    FilterSnoc(matches, added, MatchedTo(mentorId));
  }
}
