/**
 * The records of the music-mentoring application (src/types/index.ts).
 *
 * Fields that hold `Date` values (`createdAt`, `recordedAt`, a session's
 * `date`) and the optional slot lists of people are not part of this model.
 * An optional field (`x?: T`) is an `Option<T>`; a JavaScript `number` that
 * only ever holds whole numbers is an `int`.
 */
module Types {

  datatype Option<+T> = None | Some(value: T)

  /** A review quoted on a mentor's card. */
  datatype Review = Review(name: string, text: string)

  /**
   * A mentor. `approved` and `pending` are optional booleans: a record may
   * leave either unset, which JavaScript treats as falsy.
   */
  datatype Mentor = Mentor(
    id: int,
    name: string,
    instrument: string,
    availability: string,
    bio: string,
    imageUrl: string,
    starRating: real,
    resumeLink: string,
    reviews: seq<Review>,
    approved: Option<bool>,
    pending: Option<bool>)

  datatype Student = Student(
    id: int,
    name: string,
    instrument: string,
    availability: string,
    bio: string,
    imageUrl: string,
    email: string)

  /** A confirmed pairing of a mentor with a student. */
  datatype Match = Match(mentor: Mentor, student: Student)

  datatype ProjectStatus = NotStarted | InProgress | NeedsWork | Mastered

  /** A mentor's comment on one take; `measureNumber` is optional. */
  datatype Feedback = Feedback(
    id: int,
    takeId: int,
    mentorId: int,
    measureNumber: Option<int>,
    comment: string,
    resolved: bool)

  /** A recorded take; its feedback list may be absent altogether. */
  datatype Take = Take(
    id: int,
    projectId: int,
    videoUrl: string,
    feedback: Option<seq<Feedback>>)

  datatype Project = Project(
    id: int,
    title: string,
    studentId: int,
    mentorId: Option<int>,
    instrument: string,
    sheetMusicUrl: string,
    tempo: int,
    status: ProjectStatus,
    takes: seq<Take>,
    reflection: Option<string>)

  datatype Difficulty = Beginner | Intermediate | Advanced

  datatype PracticeSong = PracticeSong(
    id: int,
    title: string,
    composer: string,
    instrument: string,
    difficulty: Difficulty,
    sheetMusicUrl: string,
    tempo: int)

  datatype Session = Session(
    id: int,
    mentorId: int,
    studentId: int,
    instrument: string,
    startTime: string,
    endTime: string,
    zoomLink: Option<string>)

  /** The feedback list of a take, with an absent list read as empty. */
  function FeedbackOf(t: Take): seq<Feedback> {
    match t.feedback
    case None => []
    case Some(list) => list
  }
}
