/**
  The handler that puts a Notes entry into a course's menu. It decides per
  course whether the entry is enabled and whether it is shown, keeping a memo
  from course id to the outcome of the provider's view-notes probe.
 */
module NotesCoursesHandler {
  import opened Outcomes
  import opened NotesData
  import opened CoreSite
  import NotesProvider

  datatype AccessType = AccessGuest | AccessDefault

  /** How the user reaches the course; the access data itself may be absent. */
  datatype AccessData = AccessData(accessType: AccessType)

  /** The user's course navigation options; `notes` is `None` when left undefined. */
  datatype NavOptions = NavOptions(notes: Option<bool>)

  predicate IsGuest(access: Option<AccessData>) {
    access.Some? && access.value.accessType == AccessGuest
  }

  /** The navigation option for notes, when the options define one. */
  function NavNotes(nav: Option<NavOptions>): Option<bool> {
    if nav.Some? then nav.value.notes else None
  }

  /**
    Whether the entry is enabled for a course: never for guests; otherwise the
    navigation option when it is defined, and `true` when it is not.
   */
  function IsEnabledForCourse(courseId: int, access: Option<AccessData>, nav: Option<NavOptions>): (enabled: bool)
    ensures IsGuest(access) ==> !enabled
    ensures !IsGuest(access) && NavNotes(nav).Some? ==> enabled == NavNotes(nav).value
    ensures enabled <==> !IsGuest(access) && NavNotes(nav) != Some(false)
  {
    if IsGuest(access) then false
    else if nav.Some? && nav.value.notes.Some? then nav.value.notes.value
    else true
  }

  /** The TypeError a callback raises when it reads a field of an undefined `this`. */
  datatype HandlerFault = UndefinedThis

  /** The answer, the memo afterwards, and whether the provider was probed. */
  datatype Display = Display(answer: Settled<bool, HandlerFault>, memo: map<int, bool>, probed: bool)

  /** The memo keeps every entry it had, with the same value. */
  predicate Extends(after: map<int, bool>, before: map<int, bool>) {
    forall c :: c in before ==> c in after && after[c] == before[c]
  }

  /**
    Whether the entry is shown for a course, as evidently intended. A defined
    navigation option wins; then a memo entry for the course is returned
    without probing; otherwise the view-notes probe runs (against `site` and
    `reply`) and its answer is stored for this course and returned. Guests are
    not excluded here.
   */
  function ShouldDisplayForCourse(courseId: int, access: Option<AccessData>, nav: Option<NavOptions>,
                                  memo: map<int, bool>, site: Lookup, reply: CallResult<CourseNotes>)
    : (d: Display)
    ensures d.answer.Resolved?
    ensures NavNotes(nav).Some? ==> d == Display(Resolved(NavNotes(nav).value), memo, false)
    ensures NavNotes(nav).None? && courseId in memo ==> d == Display(Resolved(memo[courseId]), memo, false)
    ensures d.probed <==> NavNotes(nav).None? && courseId !in memo
    ensures d.probed ==> d.answer.value == (site.Replied? && reply.Replied?)
    ensures d.probed ==>
      && d.memo.Keys == memo.Keys + {courseId}
      && d.memo[courseId] == d.answer.value
    ensures Extends(d.memo, memo)
    ensures d.memo.Keys <= memo.Keys + {courseId}
  {
    if nav.Some? && nav.value.notes.Some? then
      Display(Resolved(nav.value.notes.value), memo, false)
    else if courseId in memo then
      Display(Resolved(memo[courseId]), memo, false)
    else
      var enabled := NotesProvider.IsPluginViewNotesEnabledForCourse(courseId, site, reply).result;
      Display(Resolved(enabled), memo[courseId := enabled], true)
  }

  /**
    The same decision as the code stands: the probe's callback is a plain
    function, so `this` inside it is undefined and reading the memo field off
    it throws. On a memo miss the answer rejects and the memo is not filled.
   */
  function ShouldDisplayForCourseAsWritten(courseId: int, access: Option<AccessData>, nav: Option<NavOptions>,
                                           memo: map<int, bool>, site: Lookup, reply: CallResult<CourseNotes>)
    : (d: Display)
    ensures d.memo == memo
    ensures d.probed <==> NavNotes(nav).None? && courseId !in memo
    ensures d.answer.Rejected? <==> d.probed
    ensures NavNotes(nav).Some? ==> d.answer == Resolved(NavNotes(nav).value)
    ensures NavNotes(nav).None? && courseId in memo ==> d.answer == Resolved(memo[courseId])
  {
    if nav.Some? && nav.value.notes.Some? then
      Display(Resolved(nav.value.notes.value), memo, false)
    else if courseId in memo then
      Display(Resolved(memo[courseId]), memo, false)
    else
      // The probe runs (`probed`), but its answer never reaches the caller or the memo.
      Display(Rejected(UndefinedThis), memo, true)
  }

  /**
    As written, the memo never fills: the same course asked twice is probed
    twice and rejects both times, where the intended handler probes once and
    then answers from the memo.
   */
  lemma MemoNeverFilledAsWritten(courseId: int, site: Lookup, reply: CallResult<CourseNotes>)
    ensures var first := ShouldDisplayForCourseAsWritten(courseId, None, None, map[], site, reply);
            var second := ShouldDisplayForCourseAsWritten(courseId, None, None, first.memo, site, reply);
            first.answer.Rejected? && second.probed && second.answer.Rejected?
    ensures var first := ShouldDisplayForCourse(courseId, None, None, map[], site, reply);
            var second := ShouldDisplayForCourse(courseId, None, None, first.memo, site, reply);
            !second.probed && second.answer == first.answer
  {
  }

  /** Both decisions honour a defined navigation option for a user who is not a guest. */
  lemma NavOptionAgreement(courseId: int, access: Option<AccessData>, nav: Option<NavOptions>,
                           memo: map<int, bool>, site: Lookup, reply: CallResult<CourseNotes>)
    requires !IsGuest(access) && NavNotes(nav).Some?
    ensures ShouldDisplayForCourse(courseId, access, nav, memo, site, reply).answer
         == Resolved(IsEnabledForCourse(courseId, access, nav))
  {
  }

  /**
    Whether the entry is shown does not look at the access data: a guest is
    answered exactly like any other user, the exclusion lives only in
    `IsEnabledForCourse`.
   */
  lemma DisplayIgnoresAccess(courseId: int, access: Option<AccessData>, nav: Option<NavOptions>,
                             memo: map<int, bool>, site: Lookup, reply: CallResult<CourseNotes>)
    ensures ShouldDisplayForCourse(courseId, access, nav, memo, site, reply)
         == ShouldDisplayForCourse(courseId, Some(AccessData(AccessGuest)), nav, memo, site, reply)
  {
  }

  /** One request to the handler: the course, the access and options, and the site's answers. */
  datatype Query = Query(courseId: int, access: Option<AccessData>, nav: Option<NavOptions>,
                         site: Lookup, reply: CallResult<CourseNotes>)

  /**
    Runs queries in order against one handler, each settling before the next
    is made; yields the courses probed, in order, and the final memo.
   */
  function Replay(memo: map<int, bool>, queries: seq<Query>): (r: (seq<int>, map<int, bool>))
    decreases |queries|
  {
    if queries == [] then ([], memo)
    else
      var q := queries[0];
      var d := ShouldDisplayForCourse(q.courseId, q.access, q.nav, memo, q.site, q.reply);
      var rest := Replay(d.memo, queries[1..]);
      ((if d.probed then [q.courseId] else []) + rest.0, rest.1)
  }

  /** Over any run of queries settled one after another, the memo only grows and keeps every answer it held. */
  lemma {:induction false} ReplayExtendsMemo(memo: map<int, bool>, queries: seq<Query>)
    ensures Extends(Replay(memo, queries).1, memo)
    decreases |queries|
  {
    if queries != [] {
      var q := queries[0];
      var d := ShouldDisplayForCourse(q.courseId, q.access, q.nav, memo, q.site, q.reply);
      ReplayExtendsMemo(d.memo, queries[1..]);
    }
  }

  /**
    Over any run of queries settled one after another, each course is probed
    at most once, and never when the memo already held it.
   */
  lemma {:induction false} ProbedAtMostOnce(memo: map<int, bool>, queries: seq<Query>, courseId: int)
    ensures multiset(Replay(memo, queries).0)[courseId] <= if courseId in memo then 0 else 1
    decreases |queries|
  {
    if queries != [] {
      var q := queries[0];
      var d := ShouldDisplayForCourse(q.courseId, q.access, q.nav, memo, q.site, q.reply);
      var rest := Replay(d.memo, queries[1..]);
      ProbedAtMostOnce(d.memo, queries[1..], courseId);
      var head: seq<int> := if d.probed then [q.courseId] else [];
      assert Replay(memo, queries).0 == head + rest.0;
      assert multiset(head + rest.0) == multiset(head) + multiset(rest.0);
      if courseId in memo {
        assert courseId in d.memo;
      } else if d.probed && q.courseId == courseId {
        assert courseId in d.memo;
      }
    }
  }
}
