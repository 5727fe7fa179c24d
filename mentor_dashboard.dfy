/**
 * The mentor's dashboard (src/pages/MentorDashboard.tsx): which mentor it
 * shows, the five mock sessions it generates, cancelling a session, and the
 * queue of projects to review.
 */
module MentorDashboard {

  import opened Types
  import opened Seqs
  import opened Text
  import ProjectCard

  function IsApprovedMentor(m: Mentor): bool {
    m.approved == Some(true)
  }

  /** The dashboard's mentor: the first approved one, else the first one; none for an empty table. */
  function DashboardMentor(mentors: seq<Mentor>): (r: Option<Mentor>)
    ensures r.None? <==> mentors == []
    ensures r.Some? ==> r.value in mentors
    ensures (exists i :: 0 <= i < |mentors| && IsApprovedMentor(mentors[i])) ==>
      r.Some? && IsApprovedMentor(r.value)
      && exists i :: 0 <= i < |mentors| && mentors[i] == r.value
           && forall j :: 0 <= j < i ==> !IsApprovedMentor(mentors[j])
    ensures mentors != [] && (forall i :: 0 <= i < |mentors| ==> !IsApprovedMentor(mentors[i])) ==>
      r == Some(mentors[0])
  {
    if mentors == [] then None
    else match FindFirst(mentors, IsApprovedMentor)
      case Some(i) => Some(mentors[i])
      case None => Some(mentors[0])
  }

  const ZoomLink: string := "https://zoom.us/j/123456789"

  /** The `i`-th generated session, for `i` from 1 to 5. */
  function MockSession(mentor: Mentor, i: int): Session {
    Session(i, mentor.id, i % 5 + 1, mentor.instrument,
            IntText(15 + i) + ":00", IntText(15 + i) + ":30", Some(ZoomLink))
  }

  /**
   * The session generator: five sessions with ids 1 to 5 in order, all for
   * the mentor's id and instrument, from 16:00 to 20:00 on the half hour.
   */
  method GenerateSessions(mentor: Mentor) returns (sessions: seq<Session>)
    ensures |sessions| == 5
    ensures forall k :: 0 <= k < 5 ==> sessions[k] == MockSession(mentor, k + 1)
  {
    sessions := [];
    var i := 1;
    while i <= 5
      invariant 1 <= i <= 6
      invariant |sessions| == i - 1
      invariant forall k :: 0 <= k < i - 1 ==> sessions[k] == MockSession(mentor, k + 1)
    {
      var session := Session(i, mentor.id, (i % 5) + 1, mentor.instrument,
                             IntText(15 + i) + ":00", IntText(15 + i) + ":30", Some(ZoomLink));
      sessions := sessions + [session];
      i := i + 1;
    }
  }

  /**
   * What the generated sessions hold: ids 1 to 5 in order, the mentor's id
   * and instrument throughout, each of students 1 to 5 exactly once, and
   * a half-hour slot starting at 15 + id o'clock.
   */
  lemma GeneratedSessionsShape(mentor: Mentor, sessions: seq<Session>)
    requires |sessions| == 5
    requires forall k :: 0 <= k < 5 ==> sessions[k] == MockSession(mentor, k + 1)
    ensures forall k :: 0 <= k < 5 ==>
      && sessions[k].id == k + 1
      && sessions[k].mentorId == mentor.id
      && sessions[k].instrument == mentor.instrument
      && 1 <= sessions[k].studentId <= 5
      && sessions[k].startTime == NatText(16 + k) + ":00"
      && sessions[k].endTime == NatText(16 + k) + ":30"
    ensures forall k, l :: 0 <= k < l < 5 ==> sessions[k].studentId != sessions[l].studentId
  {
    forall k | 0 <= k < 5
      ensures sessions[k].studentId == (if k == 4 then 1 else k + 2)
      ensures sessions[k].startTime == NatText(16 + k) + ":00"
      ensures sessions[k].endTime == NatText(16 + k) + ":30"
    {
      MockSessionShape(mentor, k + 1);
    }
  }

  /** Session `i` goes to student `i % 5 + 1`, from `15 + i` o'clock. */
  lemma MockSessionShape(mentor: Mentor, i: int)
    requires 1 <= i <= 5
    ensures MockSession(mentor, i).studentId == (if i == 5 then 1 else i + 1)
    ensures MockSession(mentor, i).startTime == NatText(15 + i) + ":00"
    ensures MockSession(mentor, i).endTime == NatText(15 + i) + ":30"
  {
  }

  function OtherThan(sessionId: int): Session -> bool {
    (s: Session) => s.id != sessionId
  }

  /** `handleCancelSession`: every session with the id goes, the rest stay in order. */
  function CancelSession(sessions: seq<Session>, sessionId: int): (r: seq<Session>)
    ensures forall s :: s in r <==> s in sessions && s.id != sessionId
  {
    Filter(sessions, OtherThan(sessionId))
  }

  /** Cancelling an id no session has changes nothing. */
  lemma CancelUnknownSession(sessions: seq<Session>, sessionId: int)
    requires forall i :: 0 <= i < |sessions| ==> sessions[i].id != sessionId
    ensures CancelSession(sessions, sessionId) == sessions
  {
    FilterKeepsAll(sessions, OtherThan(sessionId));
  }

  /** Cancelling is idempotent: a second cancel of the same id changes nothing. */
  lemma CancelTwice(sessions: seq<Session>, sessionId: int)
    ensures CancelSession(CancelSession(sessions, sessionId), sessionId) == CancelSession(sessions, sessionId)
  {
    var once := CancelSession(sessions, sessionId);
    forall i | 0 <= i < |once| ensures once[i].id != sessionId {
      assert once[i] in once;
    }
    CancelUnknownSession(once, sessionId);
  }

  function HasTakes(p: Project): bool {
    |p.takes| > 0
  }

  /** The review queue: the projects with at least one take, in order. */
  function ReviewQueue(projects: seq<Project>): (r: seq<Project>)
    ensures forall p :: p in r <==> p in projects && |p.takes| > 0
  {
    Filter(projects, HasTakes)
  }

  /** When every project has a take, the queue is the whole list. */
  lemma QueueKeepsAllWithTakes(projects: seq<Project>)
    requires forall i :: 0 <= i < |projects| ==> |projects[i].takes| > 0
    ensures ReviewQueue(projects) == projects
  {
    FilterKeepsAll(projects, HasTakes);
  }

  /** `hasUnreviewedTakes`: some take has an absent or empty feedback list. */
  function HasUnreviewedTakes(p: Project): (r: bool)
    ensures r <==> exists i :: 0 <= i < |p.takes| && FeedbackOf(p.takes[i]) == []
  {
    AnyUnreviewed(p.takes)
  }

  function AnyUnreviewed(takes: seq<Take>): (r: bool)
    ensures r <==> exists i :: 0 <= i < |takes| && FeedbackOf(takes[i]) == []
  {
    if takes == [] then false
    else
      assert forall i :: 1 <= i < |takes| ==> takes[i] == takes[1..][i - 1];
      FeedbackOf(takes[0]) == [] || AnyUnreviewed(takes[1..])
  }

  /** The badge: "New" while a take awaits feedback, "Reviewed" after. */
  function BadgeLabel(p: Project): (text: string)
    ensures text == "New" <==> HasUnreviewedTakes(p)
    ensures text == "Reviewed" <==> !HasUnreviewedTakes(p)
  {
    if HasUnreviewedTakes(p) then "New" else "Reviewed"
  }

  /** The card's button: "Review Project" while a take awaits feedback, "View Project" after. */
  function ButtonLabel(p: Project): (text: string)
    ensures text == "Review Project" <==> HasUnreviewedTakes(p)
    ensures text == "View Project" <==> !HasUnreviewedTakes(p)
  {
    if HasUnreviewedTakes(p) then "Review Project" else "View Project"
  }

  /**
   * "Reviewed" means every take has feedback, not that the feedback is
   * resolved: such a project carries at least one feedback item per take.
   */
  lemma {:induction false} ReviewedHasFeedback(takes: seq<Take>)
    requires !AnyUnreviewed(takes)
    ensures |takes| <= ProjectCard.TotalFeedback(takes)
  {
    if takes != [] {
      assert FeedbackOf(takes[0]) != [];
      assert forall i :: 1 <= i < |takes| ==> takes[i] == takes[1..][i - 1];
      ReviewedHasFeedback(takes[1..]);
    }
  }
}
