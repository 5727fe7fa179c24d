/**
 * The mentor listing (src/pages/MentorsListing.tsx): which mentors the page
 * lists for its query, and the selection and match confirmation a student
 * goes through.
 *
 * The query's `instrument` and `availability` are the empty string when
 * absent. The `student` parameter goes through `parseInt`, which is not
 * modelled: the page takes the parsed value, `None` standing for NaN and
 * `Some(0)` for a missing parameter (which is read as "0").
 */
module MentorsListing {

  import opened Types
  import opened Seqs
  import opened Store

  function PlaysInstrument(instrument: string): Mentor -> bool {
    (m: Mentor) => m.instrument == instrument
  }

  /**
   * The list effect: every mentor without an instrument; with one, the
   * store's matching mentors, or when there are none every mentor of that
   * instrument, approved or not.
   */
  function ListedMentors(mentors: seq<Mentor>, instrument: string, availability: string): (r: seq<Mentor>)
    ensures instrument == "" ==> r == mentors
    ensures instrument != "" ==> forall m :: m in r ==> m in mentors && m.instrument == instrument
    ensures instrument != "" && (exists i :: 0 <= i < |mentors| && mentors[i].instrument == instrument) ==> r != []
    ensures instrument != "" && FindMatchingMentors(mentors, instrument, availability) != [] ==>
      r == FindMatchingMentors(mentors, instrument, availability)
    ensures instrument != "" && FindMatchingMentors(mentors, instrument, availability) == [] ==>
      r == Filter(mentors, PlaysInstrument(instrument))
  {
    if instrument != "" then
      var found := FindMatchingMentors(mentors, instrument, availability);
      if |found| > 0 then found
      else
        var fallback := Filter(mentors, PlaysInstrument(instrument));
        assert forall i :: 0 <= i < |mentors| && mentors[i].instrument == instrument ==> mentors[i] in fallback;
        fallback
    else mentors
  }

  /**
   * When no approved mentor fits the query, the fallback lists every mentor
   * of the instrument, pending and rejected applicants included.
   */
  lemma FallbackListsUnapproved(mentors: seq<Mentor>, instrument: string, availability: string, m: Mentor)
    requires instrument != "" && FindMatchingMentors(mentors, instrument, availability) == []
    requires m in mentors && m.instrument == instrument
    ensures m in ListedMentors(mentors, instrument, availability)
  {
  }

  /** When some approved mentor fits, only approved mentors are listed. */
  lemma MatchesListOnlyApproved(mentors: seq<Mentor>, instrument: string, availability: string, m: Mentor)
    requires instrument != "" && FindMatchingMentors(mentors, instrument, availability) != []
    requires m in ListedMentors(mentors, instrument, availability)
    ensures m.approved == Some(true)
  {
  }

  function StudentWithId(id: int): Student -> bool {
    (s: Student) => s.id == id
  }

  /** The page's selection and match state over the store. */
  class ListingPage {
    var selected: Option<Mentor>
    var isMatched: bool
    const studentId: Option<int>
    const store: Store

    constructor (store0: Store, parsedStudent: Option<int>)
      ensures store == store0 && studentId == parsedStudent
      ensures selected.None? && !isMatched
    {
      store := store0;
      studentId := parsedStudent;
      selected := None;
      isMatched := false;
    }

    /** JavaScript truthiness of the parsed student id: a number other than 0. */
    predicate HasStudent()
      reads this
    {
      studentId.Some? && studentId.value != 0
    }

    /** `handleSelectMentor`. */
    method SelectMentor(m: Mentor)
      modifies this`selected
      ensures selected == Some(m)
      ensures forall card :: IsSelected(card) <==> card.id == m.id
    {
      selected := Some(m);
    }

    /**
     * `handleConfirmMatch`: with a mentor selected, a student id and a
     * student with that id in the store, appends one match of the two and
     * marks the page matched; otherwise changes nothing.
     */
    method ConfirmMatch() returns (confirmed: bool)
      modifies this`isMatched, store`matches
      ensures confirmed <==> selected.Some? && HasStudent()
                             && FindFirst(store.students, StudentWithId(studentId.value)).Some?
      ensures confirmed ==>
        var s := store.students[FindFirst(store.students, StudentWithId(studentId.value)).value];
        && s.id == studentId.value
        && store.matches == old(store.matches) + [Match(selected.value, s)]
        && isMatched
      ensures !confirmed ==> store.matches == old(store.matches) && isMatched == old(isMatched)
    {
      confirmed := false;
      if selected.Some? && studentId.Some? && studentId.value != 0 {
        var found := FindFirst(store.students, StudentWithId(studentId.value));
        if found.Some? {
          var student := store.students[found.value];
          var _ := store.AddMatch(Match(selected.value, student));
          isMatched := true;
          confirmed := true;
        }
      }
    }

    /** `handleResetMatch`: clears the selection and the matched flag. */
    method ResetMatch()
      modifies this`selected, this`isMatched
      ensures selected.None? && !isMatched
      ensures forall card :: !IsSelected(card)
    {
      selected := None;
      isMatched := false;
    }

    /** The Cancel button: clears the selection only. */
    method CancelSelection()
      modifies this`selected
      ensures selected.None? && isMatched == old(isMatched)
      ensures forall card :: !IsSelected(card)
    {
      selected := None;
    }

    /** A card is drawn selected when its mentor has the selected mentor's id. */
    predicate IsSelected(m: Mentor)
      reads this
      ensures IsSelected(m) ==> selected.Some?
      ensures selected.Some? ==> (IsSelected(m) <==> m.id == selected.value.id)
    {
      selected.Some? && selected.value.id == m.id
    }
  }
}
