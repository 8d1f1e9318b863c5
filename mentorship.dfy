/**
 * The mentorship page: the expertise chips offered, the mentor search and
 * expertise filter, the chip toggle, session feedback and the booking form. The
 * mentor list is a parameter; the fields the page only displays are left out.
 */
module Mentorship {
  import opened Wrappers
  import ListOps
  import opened Text

  datatype Mentor = Mentor(id: string, name: string, role: string, company: string, expertise: seq<string>)

  datatype Status = Completed | Upcoming | Cancelled

  datatype Session = Session(
    id: string, mentorId: string, mentorName: string, date: string, time: string, duration: string,
    status: Status, notes: Option<string>, rating: Option<int>, feedback: Option<string>)

  /** `mentors.map(m => m.expertise)`. */
  function ExpertiseLists(mentors: seq<Mentor>): (r: seq<seq<string>>)
    ensures |r| == |mentors| && forall i :: 0 <= i < |r| ==> r[i] == mentors[i].expertise
  {
    if mentors == [] then [] else [mentors[0].expertise] + ExpertiseLists(mentors[1..])
  }

  /** `Array.from(new Set(mentors.flatMap(m => m.expertise)))`. */
  function ExpertiseOptions(mentors: seq<Mentor>): seq<string> {
    ListOps.Dedup(ListOps.Flatten(ExpertiseLists(mentors)))
  }

  /** The chips are exactly the expertise of some mentor, each once. */
  lemma ExpertiseOptionsExact(mentors: seq<Mentor>, x: string)
    ensures ListOps.NoDup(ExpertiseOptions(mentors))
    ensures x in ExpertiseOptions(mentors) <==> exists i :: 0 <= i < |mentors| && x in mentors[i].expertise
  {
    var lists := ExpertiseLists(mentors);
    ListOps.DedupMember(ListOps.Flatten(lists), x);
    ListOps.FlattenMember(lists, x);
    if exists i :: 0 <= i < |lists| && x in lists[i] {
      var i :| 0 <= i < |lists| && x in lists[i];
      assert x in mentors[i].expertise;
    }
    if exists i :: 0 <= i < |mentors| && x in mentors[i].expertise {
      var i :| 0 <= i < |mentors| && x in mentors[i].expertise;
      assert x in lists[i];
    }
  }

  /** The name, role or company contains the query, ignoring case. */
  predicate MatchesSearch(m: Mentor, query: string) {
    ContainsIgnoringCase(m.name, query) || ContainsIgnoringCase(m.role, query) ||
    ContainsIgnoringCase(m.company, query)
  }

  /** No chip is selected, or the mentor has every selected expertise. */
  predicate MatchesExpertise(m: Mentor, selected: seq<string>) {
    |selected| == 0 || forall k :: 0 <= k < |selected| ==> selected[k] in m.expertise
  }

  predicate Shown(m: Mentor, query: string, selected: seq<string>) {
    MatchesSearch(m, query) && MatchesExpertise(m, selected)
  }

  /** `filteredMentors`. */
  function FilteredMentors(mentors: seq<Mentor>, query: string, selected: seq<string>): seq<Mentor> {
    ListOps.Filter(mentors, m => Shown(m, query, selected))
  }

  /** The result is the mentors that match both filters, in the list's order. */
  lemma FilteredMentorsExact(mentors: seq<Mentor>, query: string, selected: seq<string>)
    ensures ListOps.IsSublist(FilteredMentors(mentors, query, selected), mentors)
    ensures forall m :: m in FilteredMentors(mentors, query, selected) <==> m in mentors && Shown(m, query, selected)
  {
    ListOps.FilterIsOrderedSelection(mentors, m => Shown(m, query, selected));
  }

  /** An empty query and no selected chip show every mentor. */
  lemma NoFilterShowsAll(mentors: seq<Mentor>)
    ensures FilteredMentors(mentors, "", []) == mentors
  {
    forall i | 0 <= i < |mentors|
      ensures Shown(mentors[i], "", [])
    {
      EmptyQueryMatches(mentors[i].name);
    }
    ListOps.FilterKeepsAll(mentors, m => Shown(m, "", []));
  }

  /**
   * Selecting a chip that was not selected narrows the result to the mentors
   * shown before that have the new expertise; deselecting it again restores it.
   */
  lemma SelectingNarrows(mentors: seq<Mentor>, query: string, selected: seq<string>, e: string)
    requires e !in selected
    ensures FilteredMentors(mentors, query, ListOps.Toggle(selected, e)) ==
            ListOps.Filter(FilteredMentors(mentors, query, selected), (m: Mentor) => e in m.expertise)
    ensures FilteredMentors(mentors, query, ListOps.Toggle(ListOps.Toggle(selected, e), e)) ==
            FilteredMentors(mentors, query, selected)
  {
    var more := selected + [e];
    assert ListOps.Toggle(selected, e) == more;
    forall m: Mentor
      ensures MatchesExpertise(m, more) == (MatchesExpertise(m, selected) && e in m.expertise)
    {
      if MatchesExpertise(m, selected) && e in m.expertise {
        forall k | 0 <= k < |more| ensures more[k] in m.expertise {
          if k < |selected| {
            assert more[k] == selected[k];
          }
        }
      }
      if MatchesExpertise(m, more) {
        assert more[|selected|] == e;
        forall k | 0 <= k < |selected| ensures selected[k] in m.expertise {
          assert more[k] == selected[k];
        }
      }
    }
    ListOps.FilterFilter(mentors, m => Shown(m, query, selected), (m: Mentor) => e in m.expertise,
                         m => Shown(m, query, more));
    ListOps.ToggleTwice(selected, e);
  }

  /** `handleSessionFeedback`: the rating and feedback of every session with that id. */
  function SessionFeedback(sessions: seq<Session>, id: string, rating: int, feedback: string): (r: seq<Session>)
    ensures |r| == |sessions|
    ensures forall k :: 0 <= k < |sessions| && sessions[k].id == id ==>
              r[k] == sessions[k].(rating := Some(rating), feedback := Some(feedback))
    ensures forall k :: 0 <= k < |sessions| && sessions[k].id != id ==> r[k] == sessions[k]
  {
    if sessions == [] then []
    else
      var s := sessions[0];
      [if s.id == id then s.(rating := Some(rating), feedback := Some(feedback)) else s] +
      SessionFeedback(sessions[1..], id, rating, feedback)
  }

  /**
   * Feedback changes nothing but the rating and feedback of the session, and
   * feedback given again replaces the earlier one.
   */
  lemma FeedbackTouchesOnlyRatings(sessions: seq<Session>, id: string, r1: int, f1: string, r2: int, f2: string)
    ensures var r := SessionFeedback(sessions, id, r1, f1);
            forall k :: 0 <= k < |r| ==> r[k].(rating := sessions[k].rating, feedback := sessions[k].feedback) == sessions[k]
    ensures SessionFeedback(SessionFeedback(sessions, id, r1, f1), id, r2, f2) == SessionFeedback(sessions, id, r2, f2)
  {
    var once := SessionFeedback(sessions, id, r1, f1);
    var twice := SessionFeedback(once, id, r2, f2);
    forall k | 0 <= k < |sessions|
      ensures twice[k] == SessionFeedback(sessions, id, r2, f2)[k]
    {
      assert once[k].id == sessions[k].id;
    }
  }

  /** The booking form: the mentor picked, and the date and time typed. */
  datatype Booking = Booking(selectedMentor: Option<Mentor>, date: string, time: string)

  const NoBooking := Booking(None, "", "")

  /** `handleBooking`: pick a mentor and keep what was typed. */
  function HandleBooking(b: Booking, m: Mentor): (r: Booking)
    ensures r.selectedMentor == Some(m) && r.date == b.date && r.time == b.time
  {
    b.(selectedMentor := Some(m))
  }

  /** `handleSubmitBooking`: the mentor, the date and the time are all reset. */
  function HandleSubmitBooking(b: Booking): (r: Booking)
    ensures r.selectedMentor.None? && r.date == "" && r.time == ""
  {
    NoBooking
  }

  /** Submitting forgets the booking, whatever mentor was picked. */
  lemma SubmitForgetsBooking(b: Booking, m: Mentor)
    ensures HandleSubmitBooking(HandleBooking(b, m)) == HandleSubmitBooking(b) == NoBooking
  {
  }
}
