/**
 * The in-memory data store of src/services/mockData.ts: four tables that the
 * application grows with `push`, records that are changed in place once
 * found, fresh ids taken as "largest id so far + 1", and errors thrown for
 * a project or take that does not exist.
 *
 * The module-level arrays become the fields of one `Store` object. The
 * queries only read a table, so they are functions that take that table as
 * an argument.
 */
module Store {

  import opened Types
  import opened Seqs
  import opened Text

  /** The two errors the store throws. */
  datatype StoreError = ProjectNotFound(projectId: int) | TakeNotFound(takeId: int, projectId: int)

  datatype Result<T> = Ok(value: T) | Err(error: StoreError)

  // ---------------------------------------------------------------------
  // Fresh ids

  /** `Math.max(...ids, 0)`. */
  function MaxId(ids: seq<int>): (m: int)
    ensures 0 <= m
    ensures forall i :: 0 <= i < |ids| ==> ids[i] <= m
    ensures m == 0 || m in ids
  {
    if ids == [] then 0
    else
      var rest := MaxId(ids[1..]);
      if ids[0] > rest then ids[0] else rest
  }

  /** The id the store hands out next: one more than the largest id, and 1 for an empty table. */
  function NextId(ids: seq<int>): (r: int)
    ensures 1 <= r
    ensures forall i :: 0 <= i < |ids| ==> ids[i] < r
    ensures ids == [] ==> r == 1
    ensures r == 1 || r - 1 in ids
  {
    MaxId(ids) + 1
  }

  function ProjectIds(ps: seq<Project>): (ids: seq<int>)
    ensures |ids| == |ps|
    ensures forall i :: 0 <= i < |ps| ==> ids[i] == ps[i].id
  {
    seq(|ps|, i requires 0 <= i < |ps| => ps[i].id)
  }

  function StudentIds(ss: seq<Student>): (ids: seq<int>)
    ensures |ids| == |ss|
    ensures forall i :: 0 <= i < |ss| ==> ids[i] == ss[i].id
  {
    seq(|ss|, i requires 0 <= i < |ss| => ss[i].id)
  }

  function MentorIds(ms: seq<Mentor>): (ids: seq<int>)
    ensures |ids| == |ms|
    ensures forall i :: 0 <= i < |ms| ==> ids[i] == ms[i].id
  {
    seq(|ms|, i requires 0 <= i < |ms| => ms[i].id)
  }

  /** `PROJECTS.flatMap(p => p.takes.map(t => t.id))`. */
  function TakeIds(ps: seq<Project>): seq<int> {
    if ps == [] then []
    else seq(|ps[0].takes|, a requires 0 <= a < |ps[0].takes| => ps[0].takes[a].id) + TakeIds(ps[1..])
  }

  /** The feedback ids of one take, or `[0]` when its list is absent. */
  function TakeFeedbackIds(t: Take): seq<int> {
    match t.feedback
    case None => [0]
    case Some(fs) => seq(|fs|, x requires 0 <= x < |fs| => fs[x].id)
  }

  function ProjectFeedbackIds(ts: seq<Take>): seq<int> {
    if ts == [] then [] else TakeFeedbackIds(ts[0]) + ProjectFeedbackIds(ts[1..])
  }

  /** `PROJECTS.flatMap(p => p.takes.flatMap(t => t.feedback ? t.feedback.map(f => f.id) : [0]))`. */
  function FeedbackIds(ps: seq<Project>): seq<int> {
    if ps == [] then [] else ProjectFeedbackIds(ps[0].takes) + FeedbackIds(ps[1..])
  }

  /** Every take of every project is below the next take id. */
  lemma {:induction false} TakeIdBelowNext(ps: seq<Project>, i: nat, a: nat)
    requires i < |ps| && a < |ps[i].takes|
    ensures ps[i].takes[a].id < NextId(TakeIds(ps))
  {
    TakeIdListed(ps, i, a);
  }

  lemma {:induction false} TakeIdListed(ps: seq<Project>, i: nat, a: nat)
    requires i < |ps| && a < |ps[i].takes|
    ensures ps[i].takes[a].id in TakeIds(ps)
  {
    var head := seq(|ps[0].takes|, b requires 0 <= b < |ps[0].takes| => ps[0].takes[b].id);
    assert TakeIds(ps) == head + TakeIds(ps[1..]);
    if i == 0 {
      assert head[a] == ps[0].takes[a].id;
    } else {
      TakeIdListed(ps[1..], i - 1, a);
    }
  }

  /** Every feedback item anywhere in the store is below the next feedback id. */
  lemma FeedbackIdBelowNext(ps: seq<Project>, i: nat, a: nat, x: nat)
    requires i < |ps| && a < |ps[i].takes| && x < |FeedbackOf(ps[i].takes[a])|
    ensures FeedbackOf(ps[i].takes[a])[x].id < NextId(FeedbackIds(ps))
  {
    FeedbackIdListed(ps, i, a, x);
  }

  lemma {:induction false} FeedbackIdListed(ps: seq<Project>, i: nat, a: nat, x: nat)
    requires i < |ps| && a < |ps[i].takes| && x < |FeedbackOf(ps[i].takes[a])|
    ensures FeedbackOf(ps[i].takes[a])[x].id in FeedbackIds(ps)
  {
    assert FeedbackIds(ps) == ProjectFeedbackIds(ps[0].takes) + FeedbackIds(ps[1..]);
    if i == 0 {
      ProjectFeedbackIdListed(ps[0].takes, a, x);
    } else {
      FeedbackIdListed(ps[1..], i - 1, a, x);
    }
  }

  lemma {:induction false} ProjectFeedbackIdListed(ts: seq<Take>, a: nat, x: nat)
    requires a < |ts| && x < |FeedbackOf(ts[a])|
    ensures FeedbackOf(ts[a])[x].id in ProjectFeedbackIds(ts)
  {
    assert ProjectFeedbackIds(ts) == TakeFeedbackIds(ts[0]) + ProjectFeedbackIds(ts[1..]);
    if a == 0 {
      assert TakeFeedbackIds(ts[0])[x] == FeedbackOf(ts[0])[x].id;
    } else {
      ProjectFeedbackIdListed(ts[1..], a - 1, x);
    }
  }

  // ---------------------------------------------------------------------
  // Consistency of the project table

  ghost predicate UniqueProjectIds(ps: seq<Project>) {
    forall i, j :: 0 <= i < j < |ps| ==> ps[i].id != ps[j].id
  }

  ghost predicate UniqueStudentIds(ss: seq<Student>) {
    forall i, j :: 0 <= i < j < |ss| ==> ss[i].id != ss[j].id
  }

  ghost predicate UniqueMentorIds(ms: seq<Mentor>) {
    forall i, j :: 0 <= i < j < |ms| ==> ms[i].id != ms[j].id
  }

  /** No two takes anywhere in the store share an id. */
  ghost predicate UniqueTakeIds(ps: seq<Project>) {
    forall i, a, j, b ::
      0 <= i < |ps| && 0 <= a < |ps[i].takes| && 0 <= j < |ps| && 0 <= b < |ps[j].takes|
      && (i, a) != (j, b)
      ==> ps[i].takes[a].id != ps[j].takes[b].id
  }

  /** Every feedback item names the take it is filed under. */
  ghost predicate FeedbackLinked(t: Take) {
    forall x :: 0 <= x < |FeedbackOf(t)| ==> FeedbackOf(t)[x].takeId == t.id
  }

  /** Every take names its project, and every feedback item its take. */
  ghost predicate TakesLinked(p: Project) {
    forall a :: 0 <= a < |p.takes| ==> p.takes[a].projectId == p.id && FeedbackLinked(p.takes[a])
  }

  ghost predicate WellLinked(ps: seq<Project>) {
    forall i :: 0 <= i < |ps| ==> TakesLinked(ps[i])
  }

  /** What the seed data satisfies and every store operation keeps. */
  ghost predicate Consistent(ps: seq<Project>) {
    UniqueProjectIds(ps) && UniqueTakeIds(ps) && WellLinked(ps)
  }

  // ---------------------------------------------------------------------
  // Lookups and queries

  /** `PROJECTS.find(p => p.id === id)`, as a position. */
  function FindProject(ps: seq<Project>, id: int): (r: Option<nat>)
    ensures r.None? <==> forall i :: 0 <= i < |ps| ==> ps[i].id != id
    ensures r.Some? ==> r.value < |ps| && ps[r.value].id == id
    ensures r.Some? ==> forall i :: 0 <= i < r.value ==> ps[i].id != id
  {
    FindFirst(ps, (p: Project) => p.id == id)
  }

  /** `project.takes.find(t => t.id === id)`, as a position. */
  function FindTake(ts: seq<Take>, id: int): (r: Option<nat>)
    ensures r.None? <==> forall a :: 0 <= a < |ts| ==> ts[a].id != id
    ensures r.Some? ==> r.value < |ts| && ts[r.value].id == id
    ensures r.Some? ==> forall a :: 0 <= a < r.value ==> ts[a].id != id
  {
    FindFirst(ts, (t: Take) => t.id == id)
  }

  function SongFor(instrument: string): PracticeSong -> bool {
    (s: PracticeSong) => s.instrument == instrument
  }

  /** `getPracticeSongsByInstrument`: the songs for one instrument, in table order. */
  function GetPracticeSongsByInstrument(songs: seq<PracticeSong>, instrument: string): (r: seq<PracticeSong>)
    ensures forall s :: s in r <==> s in songs && s.instrument == instrument
  {
    Filter(songs, SongFor(instrument))
  }

  function OwnedBy(studentId: int): Project -> bool {
    (p: Project) => p.studentId == studentId
  }

  /** `getStudentProjects`: the projects of one student, in table order. */
  function GetStudentProjects(ps: seq<Project>, studentId: int): (r: seq<Project>)
    ensures forall p :: p in r <==> p in ps && p.studentId == studentId
  {
    Filter(ps, OwnedBy(studentId))
  }

  /** A new project shows up among its student's projects, at the end, and nowhere else. */
  lemma StudentProjectsAfterCreate(ps: seq<Project>, p: Project, studentId: int)
    ensures GetStudentProjects(ps + [p], studentId)
         == GetStudentProjects(ps, studentId) + (if p.studentId == studentId then [p] else [])
  {
    FilterSnoc(ps, p, OwnedBy(studentId));
  }

  function ApprovedFor(instrument: string): Mentor -> bool {
    (m: Mentor) => m.approved == Some(true) && m.instrument == instrument
  }

  /** The loose availability test: either lower-cased text contains the other. */
  predicate AvailabilityOverlaps(mentorAvailability: string, query: string) {
    Contains(Lower(mentorAvailability), Lower(query)) || Contains(Lower(query), Lower(mentorAvailability))
  }

  function AvailableFor(query: string): Mentor -> bool {
    (m: Mentor) => AvailabilityOverlaps(m.availability, query)
  }

  /**
   * `findMatchingMentors`: the approved mentors of an instrument; a query
   * that is not blank also keeps only those whose availability overlaps it.
   * An absent query is the empty string.
   */
  function FindMatchingMentors(mentors: seq<Mentor>, instrument: string, availability: string): (r: seq<Mentor>)
    ensures forall m :: m in r <==>
      m in mentors && m.approved == Some(true) && m.instrument == instrument
      && (IsBlank(availability) || AvailabilityOverlaps(m.availability, availability))
    ensures IsBlank(availability) ==> r == Filter(mentors, ApprovedFor(instrument))
  {
    var candidates := Filter(mentors, ApprovedFor(instrument));
    if IsBlank(availability) then candidates else Filter(candidates, AvailableFor(availability))
  }

  function MatchesQuery(instrument: string, availability: string): Mentor -> bool {
    (m: Mentor) => m.approved == Some(true) && m.instrument == instrument
         && (IsBlank(availability) || AvailabilityOverlaps(m.availability, availability))
  }

  /** The two filters of `findMatchingMentors` act as one filter: the result keeps table order. */
  lemma MatchingMentorsInOrder(mentors: seq<Mentor>, instrument: string, availability: string)
    ensures FindMatchingMentors(mentors, instrument, availability)
         == Filter(mentors, MatchesQuery(instrument, availability))
  {
    if IsBlank(availability) {
      FilterAgree(mentors, ApprovedFor(instrument), MatchesQuery(instrument, availability));
    } else {
      FilterTwice(mentors, ApprovedFor(instrument), AvailableFor(availability), MatchesQuery(instrument, availability));
    }
  }

  /** A mentor who is not approved, such as one just added, changes no search result. */
  lemma UnapprovedMentorNeverMatched(mentors: seq<Mentor>, m: Mentor, instrument: string, availability: string)
    requires m.approved != Some(true)
    ensures FindMatchingMentors(mentors + [m], instrument, availability)
         == FindMatchingMentors(mentors, instrument, availability)
  {
    MatchingMentorsInOrder(mentors + [m], instrument, availability);
    MatchingMentorsInOrder(mentors, instrument, availability);
    FilterSnoc(mentors, m, MatchesQuery(instrument, availability));
  }

  // ---------------------------------------------------------------------
  // Consistency lemmas for the mutators

  lemma AppendFreshProject(ps: seq<Project>, p: Project)
    requires Consistent(ps)
    requires p.id == NextId(ProjectIds(ps)) && p.takes == []
    ensures Consistent(ps + [p])
  {
    var ps' := ps + [p];
    forall i, j | 0 <= i < j < |ps'| ensures ps'[i].id != ps'[j].id {
      if j == |ps| {
        assert ProjectIds(ps)[i] == ps[i].id;
      }
    }
    forall i, a, j, b |
      0 <= i < |ps'| && 0 <= a < |ps'[i].takes| && 0 <= j < |ps'| && 0 <= b < |ps'[j].takes|
      && (i, a) != (j, b)
      ensures ps'[i].takes[a].id != ps'[j].takes[b].id
    {
      assert i < |ps| && j < |ps|;
      assert ps'[i] == ps[i] && ps'[j] == ps[j];
    }
    forall i | 0 <= i < |ps'| ensures TakesLinked(ps'[i]) {
      if i < |ps| {
        assert ps'[i] == ps[i];
      }
    }
  }

  /** The project with a new take appended and its status set to "In Progress". */
  function WithTake(p: Project, t: Take): Project {
    p.(takes := p.takes + [t], status := InProgress)
  }

  lemma AddTakeKeepsConsistent(ps: seq<Project>, k: nat, t: Take)
    requires Consistent(ps)
    requires k < |ps|
    requires t.id == NextId(TakeIds(ps)) && t.projectId == ps[k].id && t.feedback == Some([])
    ensures Consistent(ps[k := WithTake(ps[k], t)])
  {
    var ps' := ps[k := WithTake(ps[k], t)];
    forall i, j | 0 <= i < j < |ps'| ensures ps'[i].id != ps'[j].id {
      assert ps'[i].id == ps[i].id && ps'[j].id == ps[j].id;
    }
    AddTakeKeepsTakeIdsUnique(ps, k, t);
    AddTakeKeepsLinks(ps, k, t);
  }

  lemma AddTakeKeepsTakeIdsUnique(ps: seq<Project>, k: nat, t: Take)
    requires UniqueTakeIds(ps)
    requires k < |ps|
    requires t.id == NextId(TakeIds(ps))
    ensures UniqueTakeIds(ps[k := WithTake(ps[k], t)])
  {
    var ps' := ps[k := WithTake(ps[k], t)];
    var n := |ps[k].takes|;
    forall i, a, j, b |
      0 <= i < |ps'| && 0 <= a < |ps'[i].takes| && 0 <= j < |ps'| && 0 <= b < |ps'[j].takes|
      && (i, a) != (j, b)
      ensures ps'[i].takes[a].id != ps'[j].takes[b].id
    {
      OldTakeKept(ps, k, t, i, a);
      OldTakeKept(ps, k, t, j, b);
      if (i, a) == (k, n) {
        TakeIdBelowNext(ps, j, b);
      } else if (j, b) == (k, n) {
        TakeIdBelowNext(ps, i, a);
      }
    }
  }

  /** Apart from the new one, the takes after `WithTake` are the takes before it. */
  lemma OldTakeKept(ps: seq<Project>, k: nat, t: Take, i: nat, a: nat)
    requires k < |ps| && i < |ps| && a < |ps[k := WithTake(ps[k], t)][i].takes|
    ensures (i, a) == (k, |ps[k].takes|) || (a < |ps[i].takes| && ps[k := WithTake(ps[k], t)][i].takes[a] == ps[i].takes[a])
    ensures (i, a) == (k, |ps[k].takes|) ==> ps[k := WithTake(ps[k], t)][i].takes[a] == t
  {
  }

  lemma AddTakeKeepsLinks(ps: seq<Project>, k: nat, t: Take)
    requires WellLinked(ps)
    requires k < |ps|
    requires t.projectId == ps[k].id && t.feedback == Some([])
    ensures WellLinked(ps[k := WithTake(ps[k], t)])
  {
    var ps' := ps[k := WithTake(ps[k], t)];
    var n := |ps[k].takes|;
    forall i | 0 <= i < |ps'| ensures TakesLinked(ps'[i]) {
      if i == k {
        forall a | 0 <= a < |ps'[k].takes|
          ensures ps'[k].takes[a].projectId == ps'[k].id && FeedbackLinked(ps'[k].takes[a])
        {
          if a < n {
            assert ps'[k].takes[a] == ps[k].takes[a];
          } else {
            assert FeedbackOf(ps'[k].takes[a]) == [];
          }
        }
      }
    }
  }

  /** The take with one more feedback item, its list created if absent. */
  function WithFeedback(t: Take, f: Feedback): Take {
    t.(feedback := Some(FeedbackOf(t) + [f]))
  }

  /** The project whose `j`-th take received one more feedback item. */
  function WithTakeFeedback(p: Project, j: nat, f: Feedback): Project
    requires j < |p.takes|
  {
    p.(takes := p.takes[j := WithFeedback(p.takes[j], f)])
  }

  lemma AddFeedbackKeepsConsistent(ps: seq<Project>, k: nat, j: nat, f: Feedback)
    requires Consistent(ps)
    requires k < |ps| && j < |ps[k].takes|
    requires f.takeId == ps[k].takes[j].id
    ensures Consistent(ps[k := WithTakeFeedback(ps[k], j, f)])
  {
    var ps' := ps[k := WithTakeFeedback(ps[k], j, f)];
    forall i, j' | 0 <= i < j' < |ps'| ensures ps'[i].id != ps'[j'].id {
      assert ps'[i].id == ps[i].id && ps'[j'].id == ps[j'].id;
    }
    forall i, a | 0 <= i < |ps'| && 0 <= a < |ps'[i].takes|
      ensures |ps'[i].takes| == |ps[i].takes|
      ensures ps'[i].takes[a].id == ps[i].takes[a].id
      ensures ps'[i].takes[a].projectId == ps[i].takes[a].projectId
    {
    }
    forall i | 0 <= i < |ps'| ensures TakesLinked(ps'[i]) {
      if i == k {
        forall a | 0 <= a < |ps'[k].takes|
          ensures ps'[k].takes[a].projectId == ps'[k].id && FeedbackLinked(ps'[k].takes[a])
        {
          if a == j {
            var t := ps[k].takes[j];
            assert FeedbackLinked(t);
            forall x | 0 <= x < |FeedbackOf(WithFeedback(t, f))|
              ensures FeedbackOf(WithFeedback(t, f))[x].takeId == t.id
            {
              if x < |FeedbackOf(t)| {
                assert FeedbackOf(WithFeedback(t, f))[x] == FeedbackOf(t)[x];
              }
            }
          }
        }
      }
    }
  }

  // ---------------------------------------------------------------------
  // The store

  class Store {
    var projects: seq<Project>
    var students: seq<Student>
    var mentors: seq<Mentor>
    var matches: seq<Match>
    const songs: seq<PracticeSong>

    /** A store holding the given tables (the seed data of the application). */
    constructor (projects0: seq<Project>, students0: seq<Student>, mentors0: seq<Mentor>,
                 matches0: seq<Match>, songs0: seq<PracticeSong>)
      ensures projects == projects0 && students == students0 && mentors == mentors0
      ensures matches == matches0 && songs == songs0
    {
      projects, students, mentors, matches, songs := projects0, students0, mentors0, matches0, songs0;
    }

    /** `createProject`: appends a fresh, not yet started project with no takes. */
    method CreateProject(title: string, studentId: int, instrument: string, sheetMusicUrl: string, tempo: int)
      returns (p: Project)
      modifies this`projects
      ensures p == Project(NextId(ProjectIds(old(projects))), title, studentId, None, instrument,
                           sheetMusicUrl, tempo, NotStarted, [], None)
      ensures projects == old(projects) + [p]
      ensures forall i :: 0 <= i < |old(projects)| ==> old(projects)[i].id != p.id
      ensures Consistent(old(projects)) ==> Consistent(projects)
    {
      var id := NextId(ProjectIds(projects));
      p := Project(id, title, studentId, None, instrument, sheetMusicUrl, tempo, NotStarted, [], None);
      if Consistent(projects) {
        AppendFreshProject(projects, p);
      }
      projects := projects + [p];
    }

    /** `addStudent`: appends the student under a fresh id. */
    method AddStudent(name: string, instrument: string, availability: string, bio: string,
                      imageUrl: string, email: string)
      returns (s: Student)
      modifies this`students
      ensures s == Student(NextId(StudentIds(old(students))), name, instrument, availability, bio, imageUrl, email)
      ensures students == old(students) + [s]
      ensures forall i :: 0 <= i < |old(students)| ==> old(students)[i].id != s.id
      ensures UniqueStudentIds(old(students)) ==> UniqueStudentIds(students)
    {
      s := Student(NextId(StudentIds(students)), name, instrument, availability, bio, imageUrl, email);
      students := students + [s];
    }

    /**
     * `addMentor`: appends the mentor under a fresh id, with no reviews, not
     * approved and pending review, whatever the application said.
     */
    method AddMentor(name: string, instrument: string, availability: string, bio: string,
                     imageUrl: string, starRating: real, resumeLink: string)
      returns (m: Mentor)
      modifies this`mentors
      ensures m == Mentor(NextId(MentorIds(old(mentors))), name, instrument, availability, bio, imageUrl,
                          starRating, resumeLink, [], Some(false), Some(true))
      ensures mentors == old(mentors) + [m]
      ensures forall i :: 0 <= i < |old(mentors)| ==> old(mentors)[i].id != m.id
      ensures UniqueMentorIds(old(mentors)) ==> UniqueMentorIds(mentors)
    {
      m := Mentor(NextId(MentorIds(mentors)), name, instrument, availability, bio, imageUrl,
                  starRating, resumeLink, [], Some(false), Some(true));
      mentors := mentors + [m];
    }

    /** `addMatch`: appends the match as given. */
    method AddMatch(data: Match) returns (r: Match)
      modifies this`matches
      ensures r == data
      ensures matches == old(matches) + [data]
    {
      matches := matches + [data];
      r := data;
    }

    /**
     * `addProjectTake`: fails for an unknown project; otherwise appends a take
     * with a fresh id (over all projects) and an empty feedback list to the
     * first project with that id, and sets its status to "In Progress".
     */
    method AddProjectTake(projectId: int, videoUrl: string) returns (r: Result<Take>)
      modifies this`projects
      ensures FindProject(old(projects), projectId).None? ==>
        r == Err(ProjectNotFound(projectId)) && projects == old(projects)
      ensures FindProject(old(projects), projectId).Some? ==>
        var k := FindProject(old(projects), projectId).value;
        var t := Take(NextId(TakeIds(old(projects))), projectId, videoUrl, Some([]));
        r == Ok(t) && projects == old(projects)[k := WithTake(old(projects)[k], t)]
      ensures r.Ok? ==>
        forall i, a :: 0 <= i < |old(projects)| && 0 <= a < |old(projects)[i].takes| ==>
          old(projects)[i].takes[a].id < r.value.id
      ensures Consistent(old(projects)) ==> Consistent(projects)
    {
      var found := FindProject(projects, projectId);
      if found.None? {
        return Err(ProjectNotFound(projectId));
      }
      var k := found.value;
      var t := Take(NextId(TakeIds(projects)), projectId, videoUrl, Some([]));
      forall i, a | 0 <= i < |projects| && 0 <= a < |projects[i].takes|
        ensures projects[i].takes[a].id < t.id
      {
        TakeIdBelowNext(projects, i, a);
      }
      if Consistent(projects) {
        AddTakeKeepsConsistent(projects, k, t);
      }
      projects := projects[k := WithTake(projects[k], t)];
      r := Ok(t);
    }

    /**
     * `addFeedback`: fails for an unknown project, or a take that is not in
     * that project; otherwise appends to the take's feedback list (created
     * if absent) an unresolved item with a fresh id (over all feedback).
     * The item's take is the `takeId` argument; the `takeId` and `resolved`
     * the caller passes in `data` are not used.
     */
    method AddFeedback(takeId: int, projectId: int, dataTakeId: int, mentorId: int,
                       measureNumber: Option<int>, comment: string, dataResolved: bool)
      returns (r: Result<Feedback>)
      modifies this`projects
      ensures FindProject(old(projects), projectId).None? ==>
        r == Err(ProjectNotFound(projectId)) && projects == old(projects)
      ensures FindProject(old(projects), projectId).Some? ==>
        var k := FindProject(old(projects), projectId).value;
        FindTake(old(projects)[k].takes, takeId).None? ==>
          r == Err(TakeNotFound(takeId, projectId)) && projects == old(projects)
      ensures FindProject(old(projects), projectId).Some? ==>
        var k := FindProject(old(projects), projectId).value;
        FindTake(old(projects)[k].takes, takeId).Some? ==>
          var j := FindTake(old(projects)[k].takes, takeId).value;
          var f := Feedback(NextId(FeedbackIds(old(projects))), takeId, mentorId, measureNumber, comment, false);
          r == Ok(f) && projects == old(projects)[k := WithTakeFeedback(old(projects)[k], j, f)]
      ensures r.Ok? ==> !r.value.resolved && r.value.takeId == takeId
      ensures r.Ok? ==>
        forall i, a, x ::
          (0 <= i < |old(projects)| && 0 <= a < |old(projects)[i].takes|
           && 0 <= x < |FeedbackOf(old(projects)[i].takes[a])|) ==>
          FeedbackOf(old(projects)[i].takes[a])[x].id < r.value.id
      ensures Consistent(old(projects)) ==> Consistent(projects)
    {
      var found := FindProject(projects, projectId);
      if found.None? {
        return Err(ProjectNotFound(projectId));
      }
      var k := found.value;
      var foundTake := FindTake(projects[k].takes, takeId);
      if foundTake.None? {
        return Err(TakeNotFound(takeId, projectId));
      }
      var j := foundTake.value;
      var f := Feedback(NextId(FeedbackIds(projects)), takeId, mentorId, measureNumber, comment, false);
      forall i, a, x | 0 <= i < |projects| && 0 <= a < |projects[i].takes| && 0 <= x < |FeedbackOf(projects[i].takes[a])|
        ensures FeedbackOf(projects[i].takes[a])[x].id < f.id
      {
        FeedbackIdBelowNext(projects, i, a, x);
      }
      if Consistent(projects) {
        AddFeedbackKeepsConsistent(projects, k, j, f);
      }
      projects := projects[k := WithTakeFeedback(projects[k], j, f)];
      r := Ok(f);
    }

    /** `updateProjectStatus`: fails for an unknown project; otherwise sets that one field of the first match. */
    method UpdateProjectStatus(projectId: int, status: ProjectStatus) returns (r: Result<Project>)
      modifies this`projects
      ensures FindProject(old(projects), projectId).None? ==>
        r == Err(ProjectNotFound(projectId)) && projects == old(projects)
      ensures FindProject(old(projects), projectId).Some? ==>
        var k := FindProject(old(projects), projectId).value;
        r == Ok(old(projects)[k].(status := status)) && projects == old(projects)[k := r.value]
      ensures Consistent(old(projects)) ==> Consistent(projects)
    {
      var found := FindProject(projects, projectId);
      if found.None? {
        return Err(ProjectNotFound(projectId));
      }
      var k := found.value;
      var p := projects[k].(status := status);
      projects := projects[k := p];
      r := Ok(p);
      assert forall i :: 0 <= i < |projects| ==> projects[i].id == old(projects)[i].id && projects[i].takes == old(projects)[i].takes;
    }

    /** `updateProjectReflection`: fails for an unknown project; otherwise sets that one field of the first match. */
    method UpdateProjectReflection(projectId: int, reflection: string) returns (r: Result<Project>)
      modifies this`projects
      ensures FindProject(old(projects), projectId).None? ==>
        r == Err(ProjectNotFound(projectId)) && projects == old(projects)
      ensures FindProject(old(projects), projectId).Some? ==>
        var k := FindProject(old(projects), projectId).value;
        r == Ok(old(projects)[k].(reflection := Some(reflection))) && projects == old(projects)[k := r.value]
      ensures Consistent(old(projects)) ==> Consistent(projects)
    {
      var found := FindProject(projects, projectId);
      if found.None? {
        return Err(ProjectNotFound(projectId));
      }
      var k := found.value;
      var p := projects[k].(reflection := Some(reflection));
      projects := projects[k := p];
      r := Ok(p);
      assert forall i :: 0 <= i < |projects| ==> projects[i].id == old(projects)[i].id && projects[i].takes == old(projects)[i].takes;
    }
  }
}
