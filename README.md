# Music mentoring app: a Dafny model

This project models the logic of a music-mentoring web application. In the
application, students are matched with approved mentors. Students work on
practice projects made of recorded takes, and mentors leave feedback on each
take, optionally tied to a measure of the sheet music. A built-in tuner
detects the pitch a student plays.

Each source file of the core has its own Dafny module:

- `Types` (types.dfy): the records of `src/types/index.ts`. These are mentors,
  students, matches, projects, takes, feedback, practice songs and sessions.
  Optional fields are `Option`s.
- `Store` (store.dfy): the in-memory store of `src/services/mockData.ts`.
  - The four module-level tables are the fields of the class `Store.Store`.
  - Each mutator is a method. Its contract states the whole new table,
    including the error path, where the source throws.
  - New ids are "largest id so far, or 0, plus 1".
  - Each mutator keeps a consistency invariant, `Store.Consistent`: project
    ids are unique, take ids are unique across the store, every take names
    its project and every feedback item names its take.
  - The read-only queries are functions that take the table they read.
- `Tuner` (tuner.dfy): pitch detection in `src/components/Tuner.tsx`.
  - The detector follows steps 2 to 4 of the YIN estimator (de Cheveigne and
    Kawahara, 2002): an energy gate, squared differences per lag,
    cumulative-mean normalisation, the first dip below 0.12 followed down its
    strictly decreasing run, and a 65 to 1200 Hz range check.
  - These steps are imperative methods, each proved against a specification
    function.
  - JavaScript's NaN from `0 / 0` is part of the model.
  - The module also covers the equal-tempered note mapping, the target-note
    check, and the colour and message classifiers.
- `ProjectCard`, `AdminDashboard`, `MentorDashboard`, `MentorsListing`,
  `NewProjectForm`, `SheetMusicViewer`, `MentorCard`: the rules embedded in
  the matching components and pages. These are feedback progress, mentor
  approval, the review queue and mock sessions, listing and match
  confirmation, project creation, annotations, and star icons. Handlers that
  update component state are methods of a class whose fields are that state.
- `Seqs`, `Text` and `JsMath` are helpers. They hold `filter` and `find`, the
  string operations the code uses, and `Math.round`, `Math.ceil` and
  JavaScript's truncating `%`.

Numbers are unbounded integers and exact reals.

`Math.log2`, `parseInt` and `URL.createObjectURL` are not modelled. Their
results are inputs to the model:
- the tuner's continuous note number `12 * log2(f / 440) + 69`;
- the parsed tempo and student id, with `None` for NaN;
- the object URL of a dropped file.

The tuner rounds `(noteNum - noteInt) * 100` with `Math.round`. That value
lies in [-50, 50), so the rounded offset can be 50 (for example from 49.6):
`Tuner.ClosestNote` proves the range [-50, 50].

## Model

| member | source | states |
|---|---|---|
| JsMath.Round | src/components/Tuner.tsx:77 | `Math.round` gives the integer within half a unit of its argument, halves rounding up |
| JsMath.Ceil | src/components/SheetMusicViewer.tsx:40 | `Math.ceil` gives the least integer not below its argument |
| JsMath.JsRem | src/components/Tuner.tsx:84 | JavaScript `%` by a positive divisor: agrees with the mathematical remainder for non-negative dividends and is never positive for negative ones |
| Store.MaxId | src/services/mockData.ts:366 | `Math.max(...ids, 0)` is at least 0 and every id, and is 0 or one of the ids |
| Store.NextId | src/services/mockData.ts:366 | the next id is greater than every existing id, is 1 for an empty table, and is otherwise one more than an existing id |
| Store.TakeIdBelowNext | src/services/mockData.ts:450 | every take of every project has an id below the next take id |
| Store.FeedbackIdBelowNext | src/services/mockData.ts:483 | every feedback item of every take of every project has an id below the next feedback id |
| Store.FindProject | src/services/mockData.ts:444 | the lookup finds nothing iff no project has the id, and otherwise finds the first one that has it |
| Store.FindTake | src/services/mockData.ts:478 | the lookup within one project finds nothing iff no take of that project has the id, and otherwise finds the first one |
| Seqs.FilterKeepsOrder | src/services/mockData.ts:355 | `filter` keeps the original order: filtering a prefix of the list gives a prefix of the result, and a kept element appears right after the elements kept before it |
| Store.GetPracticeSongsByInstrument | src/services/mockData.ts:354-356 | a song is returned iff it is in the table and is for the instrument |
| Store.GetStudentProjects | src/services/mockData.ts:438-440 | a project is returned iff it is in the table and belongs to the student |
| Store.StudentProjectsAfterCreate | src/services/mockData.ts:438-440 | a project appended to the table appears at the end of its own student's list and changes no other student's list |
| Store.FindMatchingMentors | src/services/mockData.ts:414-429 | a mentor is returned iff it is approved, plays the instrument, and (when the availability query is not blank) has an availability that contains the query or is contained in it, ignoring letter case; with a blank query all approved mentors of the instrument are returned |
| Store.MatchingMentorsInOrder | src/services/mockData.ts:415-425 | the two successive filters equal one filter by the combined test, so the result keeps table order |
| Store.UnapprovedMentorNeverMatched | src/services/mockData.ts:398-429 | appending a mentor who is not approved, such as one just added by `addMentor`, changes no search result |
| Store.AppendFreshProject | src/services/mockData.ts:366-380 | appending a project with the next id and no takes keeps the table consistent |
| Store.AddTakeKeepsConsistent | src/services/mockData.ts:450-462 | appending a take with the next take id and empty feedback to a project keeps the table consistent |
| Store.AddFeedbackKeepsConsistent | src/services/mockData.ts:483-499 | appending feedback that names the take it is filed under keeps the table consistent |
| Store.Store.constructor | src/services/mockData.ts:5-351 | the store starts from the given seed tables |
| Store.Store.CreateProject | src/services/mockData.ts:359-382 | appends exactly one project with an id no earlier project has, status Not Started, no takes, no mentor and no reflection; earlier projects are unchanged; consistency is kept |
| Store.Store.AddStudent | src/services/mockData.ts:385-395 | appends the student under an id no earlier student has; unique student ids stay unique |
| Store.Store.AddMentor | src/services/mockData.ts:398-411 | appends the mentor under a fresh id, always with no reviews, not approved and pending, whatever the application said |
| Store.Store.AddMatch | src/services/mockData.ts:432-435 | appends the match as given and returns it |
| Store.Store.AddProjectTake | src/services/mockData.ts:443-465 | an unknown project gives ProjectNotFound and changes nothing; otherwise exactly that project gets one more take, with a store-wide fresh id and empty feedback, and its status becomes In Progress whatever it was; consistency is kept |
| Store.Store.AddFeedback | src/services/mockData.ts:468-501 | a missing project or a take not in that project gives the matching error and changes nothing; otherwise that one take gets one more feedback item (its list created if absent) with a store-wide fresh id, the argument `takeId` and `resolved` false, whatever `data` says; consistency is kept |
| Store.Store.UpdateProjectStatus | src/services/mockData.ts:504-513 | an unknown project gives ProjectNotFound and changes nothing; otherwise only that project's status changes |
| Store.Store.UpdateProjectReflection | src/services/mockData.ts:516-525 | an unknown project gives ProjectNotFound and changes nothing; otherwise only that project's reflection changes |
| Tuner.Energy | src/components/Tuner.tsx:234-237 | the sum of squared samples is never negative |
| Tuner.SquareDiffSum | src/components/Tuner.tsx:250-253 | a partial sum of squared differences at a lag is never negative |
| Tuner.Raw | src/components/Tuner.tsx:248-255 | the raw difference at a lag (the sum of squared differences over the overlapping samples) is never negative |
| Tuner.CumRaw | src/components/Tuner.tsx:259-261 | the running sum is never negative and, from lag 1, is at least the raw difference at its own lag |
| Tuner.Normalized | src/components/Tuner.tsx:258-263 | the normalised value is 1 at lag 0; after that it is NaN exactly when the running sum is 0; every defined value is non-negative |
| Tuner.Profile | src/components/Tuner.tsx:258-263 | the normalised array has one entry per lag below `maxPeriod`, each the normalised value at that lag |
| Tuner.FirstDip | src/components/Tuner.tsx:267-268 | there is no dip iff no lag from the start is below 0.12; otherwise the result is the first lag below 0.12 |
| Tuner.RunEnd | src/components/Tuner.tsx:271-277 | the run end is reached by strictly decreasing steps, is the last lag or is followed by a value that is not smaller, and its value is at most the starting value |
| Tuner.BestPeriod | src/components/Tuner.tsx:266-280 | the best period is 0 iff no lag in [2, maxPeriod) is below 0.12; otherwise it lies in [2, maxPeriod) and its value is below 0.12 |
| Tuner.BestPeriodIsBottomOfFirstDip | src/components/Tuner.tsx:266-280 | when there is a dip, the best period ends the strictly decreasing run that starts at the first dip, and its value is at most the first dip's value |
| Tuner.PitchOf | src/components/Tuner.tsx:225-291 | a buffer with energy below 0.005 gives 0; otherwise, with the best period p of the normalised profile, the result is `sampleRate / p` exactly when p is non-zero and that quotient lies in [65, 1200], and 0 in every other case |
| Tuner.DetectedFrequencyInRange | src/components/Tuner.tsx:283-288 | a detected period lies in [2, maxPeriod) and satisfies 65 * period <= sampleRate <= 1200 * period |
| Tuner.SilentBufferNoPitch | src/components/Tuner.tsx:234-242 | an all-zero buffer has no pitch |
| Tuner.ConstantBufferNoPitch | src/components/Tuner.tsx:258-280 | a constant buffer, however loud, has no pitch, because every normalised value after lag 0 is NaN |
| Tuner.VaryingBufferHasNoNaN | src/components/Tuner.tsx:259-262 | once two neighbouring samples differ, no normalised value is NaN |
| Tuner.LagsPastBufferDip | src/components/Tuner.tsx:248-262 | a lag at or past the buffer length normalises to 0, a dip, once the running sum is positive |
| Tuner.SignalEnergy | src/components/Tuner.tsx:234-237 | the accumulator loop computes the buffer's energy |
| Tuner.SquareDifferences | src/components/Tuner.tsx:245-255 | the new array holds the raw difference at every lag below `maxPeriod` |
| Tuner.LagDifference | src/components/Tuner.tsx:249-253 | the inner loop sums the squared differences over every overlapping position, giving the raw difference at that lag (0 when the lag reaches past the buffer) |
| Tuner.NormalizeLag | src/components/Tuner.tsx:259-262 | one pass adds the lag's raw difference to the running sum, stores the normalised value at that lag, and leaves every other entry as it was |
| Tuner.NormalizeInPlace | src/components/Tuner.tsx:258-263 | normalising in place leaves the array equal to the normalised profile |
| Tuner.FindBestPeriod | src/components/Tuner.tsx:266-280 | the scan and the inner run walk return the best period of the array, with `localMin` always equal to `lag` |
| Tuner.DetectPitch | src/components/Tuner.tsx:225-291 | `detectPitch` returns the detected pitch of the buffer |
| Tuner.ClosestNote | src/components/Tuner.tsx:66-87 | frequency 0 gives note "" and 0 cents; otherwise the cents lie in [-50, 50], are within half a cent of 100 times the distance to the nearest note (so 0 at an exact note), and the note text has a name and an octave |
| Tuner.NoteDecomposition | src/components/Tuner.tsx:77-86 | for a non-negative MIDI note, the text is `NOTES[i]` followed by the octave, with noteInt = 12 * (octave + 1) + i |
| Tuner.CentsSign | src/components/Tuner.tsx:79-80 | a pitch above the nearest note reads sharp (cents >= 0), one below it reads flat (cents <= 0), and an offset of at least half a cent sharp, or more than half a cent flat, gives a strictly non-zero reading |
| Tuner.BaseNoteIsName | src/components/Tuner.tsx:301 | for octaves 0 to 9, dropping the last character of the note text leaves exactly the note name |
| Tuner.AnalyzeStep | src/components/Tuner.tsx:295-312 | without a detection, note, frequency and offset are cleared; with one, the shown note is the closest note and the frequency is shown; the offset lies in [-50, 50], and it is the closest note's cents when the note minus its last character is the target and 0 otherwise |
| Tuner.TargetMatchComparesNames | src/components/Tuner.tsx:301-306 | in octaves 0 to 9 the target test compares note names: the offset is the cents for the target's name and 0 for any other |
| Tuner.AccuracyColor | src/components/Tuner.tsx:319-328 | grey iff no note is shown; otherwise green-500, green-400, green-300, yellow and red for absolute offsets below 5, below 15, below 30, below 50, and from 50 up |
| Tuner.DetectionIsColoured | src/components/Tuner.tsx:319-328 | a detection is never drawn grey, and it is red only at an offset of exactly 50 |
| Tuner.FeedbackMessage | src/components/Tuner.tsx:331-364 | each message is shown exactly when its guard holds: denied microphone, not listening, volume below 5, no note, the wrong note (naming the target), then Perfect below 5 cents, Sharp or Flat by the absolute offset |
| Tuner.MessageText | src/components/Tuner.tsx:331-364 | "Play <target>" carries the target verbatim, and the sharp and flat texts carry the absolute offset in decimal between "Sharp by " or "Flat by " and " cents", so the number can be read back |
| Tuner.TuningText | src/components/Tuner.tsx:359-361 | the template `<lead><cents> cents` starts with the lead and ends with " cents", and the digits between them read back as the cents |
| ProjectCard.TotalFeedback | src/components/ProjectCard.tsx:45-47 | the total is 0 iff every take's feedback list is absent or empty |
| ProjectCard.ResolvedFeedback | src/components/ProjectCard.tsx:49-51 | 0 <= resolved <= total; resolved equals total iff every item is resolved; resolved is 0 iff none is |
| ProjectCard.Progress | src/components/ProjectCard.tsx:53-55 | progress lies in [0, 100]; with feedback it is 100 when all of it is resolved and 0 when none is; without feedback it is 50 with a take and 0 without |
| ProjectCard.PercentBounds | src/components/ProjectCard.tsx:54 | the rounded percentage of resolved feedback lies in [0, 100] and hits the ends exactly for all and for none |
| ProjectCard.NearlyFullRoundsUp | src/components/ProjectCard.tsx:54 | with 200 or more items and one unresolved, the percentage rounds to 100 |
| ProjectCard.FullBarWithOpenFeedback | src/components/ProjectCard.tsx:53-120 | such a project shows a full green bar next to the warning icon |
| ProjectCard.BarColor | src/components/ProjectCard.tsx:88-94 | green iff progress >= 100, blue iff 30 < progress < 100, amber iff progress <= 30 |
| ProjectCard.FeedbackIcon | src/components/ProjectCard.tsx:114-120 | no icon iff there is no feedback; the check iff all of it is resolved; the warning otherwise |
| ProjectCard.CheckIconMeansFullBar | src/components/ProjectCard.tsx:88-120 | whenever the check icon shows, the bar is green |
| ProjectCard.StatusColorsDistinct | src/components/ProjectCard.tsx:26-39 | the four statuses get four different colour classes |
| ProjectCard.StatusColor | src/components/ProjectCard.tsx:26-39 | each of the four statuses gets its own class, and each class names exactly one status |
| AdminDashboard.Decide | src/pages/Index.tsx:16-36 | approving or rejecting sets `approved` to the decision and `pending` to false on the mentors with the id, changes nothing else about them, and leaves every other mentor, the length and the order as they were |
| AdminDashboard.Approve | src/pages/Index.tsx:16-25 | the mentors with the id become approved, not pending and not rejected; all others, the length and the order are kept |
| AdminDashboard.Reject | src/pages/Index.tsx:27-36 | the mentors with the id become rejected, neither approved nor pending; all others, the length and the order are kept |
| AdminDashboard.IsPending | src/pages/Index.tsx:54 | the pending test is JavaScript truthiness of an optional flag: a missing flag reads as false |
| AdminDashboard.IsApproved | src/pages/Index.tsx:125 | the approved test is JavaScript truthiness of an optional flag: a missing flag reads as false |
| AdminDashboard.IsRejected | src/pages/Index.tsx:192 | a rejected mentor is neither approved nor pending, and a mentor with no approved flag is never rejected |
| AdminDashboard.PendingList | src/pages/Index.tsx:54 | the "Pending Approvals" list holds exactly the pending mentors of the page's list |
| AdminDashboard.ApprovedList | src/pages/Index.tsx:125 | the "Approved Mentors" list holds exactly the approved mentors of the page's list |
| AdminDashboard.RejectedList | src/pages/Index.tsx:192 | the "Rejected Applications" list holds exactly the rejected mentors of the page's list |
| AdminDashboard.RejectedListedAlone | src/pages/Index.tsx:54-192 | a mentor in the rejected list appears in neither of the other two |
| AdminDashboard.DecisionPlacesMentor | src/pages/Index.tsx:16-36 | after a decision the mentor is not pending, and is in the approved list iff approved and in the rejected list iff rejected |
| AdminDashboard.UndecidedMentorListedNowhere | src/pages/Index.tsx:192 | a mentor with `approved` unset who is not pending appears in none of the three lists |
| AdminDashboard.ReconsiderApproves | src/pages/Index.tsx:228 | "Reconsider Approval" moves a rejected mentor into the approved list and out of the rejected and pending lists |
| AdminDashboard.LatestDecisionWins | src/pages/Index.tsx:16-36 | deciding twice on a mentor is the same as making only the second decision |
| AdminDashboard.StudentCount | src/pages/Index.tsx:38-40 | the count is at most the number of matches |
| AdminDashboard.NoStudentsIffUnmatched | src/pages/Index.tsx:38-40 | the count is 0 iff no match names the mentor |
| AdminDashboard.StudentCountAfterMatch | src/pages/Index.tsx:38-40 | a new match raises its own mentor's count by one and no other mentor's |
| MentorDashboard.DashboardMentor | src/pages/MentorDashboard.tsx:23-27 | no mentor iff the table is empty; otherwise the first approved mentor when one exists, else the first mentor |
| MentorDashboard.GenerateSessions | src/pages/MentorDashboard.tsx:31-47 | the loop produces exactly five sessions, the i-th being the generator's session i |
| MentorDashboard.GeneratedSessionsShape | src/pages/MentorDashboard.tsx:33-46 | the sessions have ids 1 to 5 in order, the mentor's id and instrument, and times 16:00 to 20:00 with a :30 end; their student ids lie in [1, 5] and are all different |
| MentorDashboard.CancelSession | src/pages/MentorDashboard.tsx:61-64 | a session remains iff it was there and has a different id |
| MentorDashboard.CancelUnknownSession | src/pages/MentorDashboard.tsx:61-64 | cancelling an id no session has returns the list unchanged |
| MentorDashboard.CancelTwice | src/pages/MentorDashboard.tsx:61-64 | cancelling the same id twice is the same as cancelling it once |
| MentorDashboard.ReviewQueue | src/pages/MentorDashboard.tsx:195-198 | a project is queued iff it has at least one take |
| MentorDashboard.QueueKeepsAllWithTakes | src/pages/MentorDashboard.tsx:195-198 | when every project has a take, the queue is the whole list in order |
| MentorDashboard.HasUnreviewedTakes | src/pages/MentorDashboard.tsx:200-202 | true iff some take has an absent or empty feedback list |
| MentorDashboard.BadgeLabel | src/pages/MentorDashboard.tsx:217-218 | "New" iff the project has an unreviewed take, "Reviewed" otherwise |
| MentorDashboard.ButtonLabel | src/pages/MentorDashboard.tsx:240 | "Review Project" iff the project has an unreviewed take, "View Project" otherwise |
| MentorDashboard.ReviewedHasFeedback | src/pages/MentorDashboard.tsx:200-202 | a project without unreviewed takes has at least one feedback item per take, resolved or not |
| MentorsListing.ListedMentors | src/pages/MentorsListing.tsx:22-29 | without an instrument every mentor is listed; with one, the list is exactly the store's matching mentors when there are any, and otherwise exactly the mentors of that instrument in table order, so it is not empty when some mentor plays it |
| MentorsListing.FallbackListsUnapproved | src/pages/MentorsListing.tsx:23-25 | when no approved mentor fits the query, every mentor of the instrument is listed, pending and rejected ones included |
| MentorsListing.MatchesListOnlyApproved | src/pages/MentorsListing.tsx:23-25 | when some approved mentor fits the query, only approved mentors are listed |
| MentorsListing.ListingPage.constructor | src/pages/MentorsListing.tsx:16-20 | the page starts with no selection and not matched |
| MentorsListing.ListingPage.SelectMentor | src/pages/MentorsListing.tsx:31-33 | after selecting a mentor, exactly the cards with its id are drawn selected |
| MentorsListing.ListingPage.ConfirmMatch | src/pages/MentorsListing.tsx:35-53 | a match is confirmed iff a mentor is selected, the student id is a number other than 0, and a student with that id exists; then exactly one match of that mentor and student is appended and the page is matched; otherwise nothing changes |
| MentorsListing.ListingPage.ResetMatch | src/pages/MentorsListing.tsx:55-58 | clears both the selection and the matched flag; no card is selected |
| MentorsListing.ListingPage.CancelSelection | src/pages/MentorsListing.tsx:107 | clears only the selection |
| MentorsListing.ListingPage.IsSelected | src/pages/MentorsListing.tsx:123 | a card is drawn selected only when a mentor is selected, and then exactly when its id equals the selected mentor's id, whatever its other fields |
| NewProjectForm.TitleFromFileName | src/components/NewProjectForm.tsx:58 | the title is the file name up to its first '.', with each '_' as a space; it contains neither '.' nor '_' |
| NewProjectForm.PlainNameIsTitle | src/components/NewProjectForm.tsx:58 | a file name without '.' or '_' is its own title |
| NewProjectForm.CustomTempo | src/components/NewProjectForm.tsx:89 | the tempo is the parsed value unless that is 0 or NaN, which give 120; it is never 0 |
| NewProjectForm.Form.constructor | src/components/NewProjectForm.tsx:34-41 | the form starts in library mode with nothing selected, typed or uploaded |
| NewProjectForm.Form.EnabledWhenCreatable | src/components/NewProjectForm.tsx:314 | the Create button is never disabled when creation would succeed |
| NewProjectForm.Form.StaleSongEnablesButton | src/components/NewProjectForm.tsx:314 | in custom mode, a song chosen earlier keeps the button enabled while creation fails for want of a title |
| NewProjectForm.Form.CreateDisabled | src/components/NewProjectForm.tsx:314 | the button is enabled whenever creation would succeed and whenever a song id is chosen; in library mode it is disabled exactly when no song is chosen |
| NewProjectForm.Form.OnDrop | src/components/NewProjectForm.tsx:45-65 | an empty drop changes nothing; otherwise the first file and its URL are kept, the form switches to custom mode, and the title is derived from the file name only when none was typed |
| NewProjectForm.Form.CreateProject | src/components/NewProjectForm.tsx:76-114 | a project is created iff the mode's checks pass (custom: title and upload; library: a chosen song among the instrument's songs); it is appended to the store with a fresh id for the form's student and instrument, using custom title, upload and tempo, or the song's title, sheet music and tempo; otherwise the store is unchanged |
| SheetMusicViewer.MeasureAt | src/components/SheetMusicViewer.tsx:40 | positions in (0, 100] fall in measures 1 to 10, position 0 in measure 0, and the measure's right edge lies within 10 of the position |
| SheetMusicViewer.DefaultComment | src/components/SheetMusicViewer.tsx:40-46 | the comment reads "Measure ", a number, then ": ", and for a click at or right of the left edge that number reads back as the clicked measure |
| SheetMusicViewer.FeedbackMarker | src/components/SheetMusicViewer.tsx:111-112 | feedback i is drawn at 10 times its measure number (1 when unset or 0) across and at 20 + 5i down |
| SheetMusicViewer.SavedFeedbackDrawnNearClick | src/components/SheetMusicViewer.tsx:53 | feedback saved from a click is drawn at most one measure to the right of the click and never to its left, and a click at the left edge is drawn at measure 1 |
| SheetMusicViewer.MarkersStackDown | src/components/SheetMusicViewer.tsx:112 | later feedback markers are drawn lower, 5 per item |
| SheetMusicViewer.Viewer.constructor | src/components/SheetMusicViewer.tsx:25-27 | the viewer starts with no annotations, none active and an empty comment |
| SheetMusicViewer.Viewer.ImageClick | src/components/SheetMusicViewer.tsx:31-48 | read-only viewers ignore clicks; otherwise one annotation is appended at the click and made active, and the comment is reset to "Measure n: " for the clicked measure; the active index always names an annotation |
| SheetMusicViewer.Viewer.SaveComment | src/components/SheetMusicViewer.tsx:50-58 | saving happens iff an annotation is active and a callback exists; it passes the annotation's measure and the comment, then clears the active index and the comment; otherwise nothing changes |
| SheetMusicViewer.Viewer.SelectMarker | src/components/SheetMusicViewer.tsx:96-99 | clicking marker i makes i active without adding an annotation |
| MentorCard.RenderStars | src/components/MentorCard.tsx:18-40 | `Math.floor(rating)` full stars (none when negative), then one half star iff the rating has a fractional part, then empty stars up to five; icons come in order full, half, empty; a rating in [0, 5] gives exactly five icons |
| MentorCard.SelectButtonLabel | src/components/MentorCard.tsx:109-113 | the button reads "Selected" iff the card is selected |

## Left out

- React rendering, hooks, routing, toasts and component props plumbing: handlers are modelled as state transitions of a class, not through the framework.
- Microphone and Web Audio I/O in the tuner (starting and stopping it, the animation-frame loop, the volume interval and `calculateVolume`): they are device I/O and timers. The volume and the listening and permission flags are inputs to `Tuner.FeedbackMessage`.
- The unused `calculateCents` and `NOTE_FREQUENCIES` of the tuner: nothing calls them.
- Floating point: samples, differences, frequencies and percentages are exact reals, so the 32-bit rounding of `Float32Array` and 64-bit rounding elsewhere are not modelled. Infinity cannot arise from the divisions the tuner makes (a zero running sum comes only with a zero numerator), so NaN is the only special value modelled.
- Tuner.ClosestNote: `Math.log2` is not modelled; the continuous note number is an input, so the contract does not tie the note to the frequency beyond frequency 0.
- Tuner.PitchOf: the sample rate is a natural number (audio sample rates are whole numbers of Hz).
- ProjectCard.StatusColor: the `default` branch of `getStatusColor` is not modelled, because `ProjectStatus` has exactly the four statuses and no other value reaches it.
- `Date` fields (`createdAt`, `recordedAt`, session dates) and the feedback `timestamp`: `new Date()` is a clock read. The latest-take date on the project card is left out for the same reason.
- The optional availability-slot and instrument-list fields of students and mentors: no core operation reads them.
- The form fields that creation never reads (composer, difficulty) and the uploaded `File` object beyond its name.
- `parseInt`, `URL.createObjectURL`, react-dropzone and the DOM geometry of the sheet-music viewer: the parsed values, the URL and the click position are inputs.
- `Math.max(...ids)` throwing a RangeError for very large tables: the model's tables have no size limit.
- Object aliasing: the store hands out the same project objects that pages later hold. The model returns values, so later changes through one reference are not seen through another.
- The mock session generator's `studentId` values are not checked against the student table, as in the source.
- Text.Lower: only the letters A to Z are lower-cased; Unicode case mapping beyond ASCII is not modelled.
- `src/components/VideoRecorder.tsx`: camera, media recorder, metronome oscillator and timers.
- `src/pages/StudentDashboard.tsx`, `src/components/ProjectDetail.tsx`, `src/pages/StudentSignup.tsx`, `src/pages/MentorSignup.tsx`: their handlers forward to the modelled store operations and show toasts; the signup pages' random avatar URLs are not modelled.
- `Home`, `NavBar`, `ProfileCard`, `MatchResults` and the toaster: presentation only.
