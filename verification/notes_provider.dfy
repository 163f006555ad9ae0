/**
  The notes provider: adding notes online, the course-notes read, and the
  checks that tell whether the notes features are enabled. Every remote
  interaction is an oracle parameter: `site` is the outcome of looking up the
  site, `reply` (or `probe`) the outcome of the one web-service call the
  operation makes, `invalidation` whether invalidating the cache key worked.
 */
module NotesProvider {
  import opened Outcomes
  import opened NotesData
  import opened CoreSite
  import opened CacheKeys

  const CreateNotes := "core_notes_create_notes"
  const GetCourseNotes := "core_notes_get_course_notes"
  const NotesFeature := "enablenotes"

  /** The user id the add-note probe uses, so that no note is ever created by it. */
  const ProbeUserId := -1

  /** The reply body of the create-notes web service; `None` is an empty (falsy) reply. */
  type CreateReply = Option<seq<NoteResult>>

  /** The error an online add rejects with: the failure itself, or the server's message. */
  datatype ErrorValue = FromCall(failure: CallFailure) | FromServer(message: string)

  /** The rejection object of an online add: the error and whether the web service raised it. */
  datatype AddError = AddError(error: ErrorValue, wserror: bool)

  /** The server refused the note when the first reply entry carries the refused id. */
  predicate ServerRefused(response: CreateReply) {
    response.Some? && 0 < |response.value| && response.value[0].noteid == RefusedNoteId
  }

  /** The online add went through: site found, call answered, first entry not refused. */
  predicate Accepted(site: Lookup, reply: CallResult<CreateReply>) {
    site.Replied? && reply.Replied? && !ServerRefused(reply.value)
  }

  /** The failure an online add ran into before the server could answer, if any. */
  function CallFailureOf(site: Lookup, reply: CallResult<CreateReply>): Option<CallFailure> {
    if site.Failed? then Some(site.failure)
    else if reply.Failed? then Some(reply.failure)
    else None
  }

  /** The single record an online add sends. */
  function NoteToSend(userId: int, courseId: int, publishState: string, text: string): (n: NoteRecord)
    ensures n.userid == userId && n.courseid == courseId
    ensures n.publishstate == publishState && n.text == text
    ensures n.format == 1
  {
    NoteRecord(userId, publishState, courseId, text, HtmlFormat)
  }

  /**
    Sends a batch of notes. An absent or empty batch resolves at once without
    contacting the site; otherwise one write carries the batch unchanged and
    its outcome is handed back as it is.
   */
  function AddNotesOnline(notes: Option<seq<NoteRecord>>, site: Lookup, reply: CallResult<CreateReply>)
    : (r: Step<Settled<CreateReply, CallFailure>>)
    ensures notes.None? || notes.value == [] ==> r == Step(Resolved(None), [])
    ensures r.effects != [] <==> notes.Some? && notes.value != [] && site.Replied?
    ensures r.effects != [] ==>
      r.effects == [Sent(Request(Write, CreateNotes, NotesPayload(notes.value), NoPreSets))]
    ensures notes.Some? && notes.value != [] ==>
      match CallFailureOf(site, reply)
      case Some(f) => r.result == Rejected(f)
      case None => r.result == Resolved(reply.value)
  {
    if notes.None? || |notes.value| == 0 then
      Step(Resolved(None), [])
    else if site.Failed? then
      Step(Rejected(site.failure), [])
    else
      var sent := [Sent(Request(Write, CreateNotes, NotesPayload(notes.value), NoPreSets))];
      match reply
      case Replied(response) => Step(Resolved(response), sent)
      case Failed(f) => Step(Rejected(f), sent)
  }

  /** Invalidates the notes cache of a course; `ok` is whether the site managed it. */
  function InvalidateNotes(courseId: int, ok: bool): (effects: seq<Effect>)
    ensures InvalidatedKeys(effects) == if ok then {NotesCacheKey(courseId)} else {}
  {
    if ok then [Invalidated(NotesCacheKey(courseId))] else []
  }

  /**
    Everything adding one note does to the site: once the site is found, a
    single create-notes write of the one record, and after an accepted add
    whose invalidation worked, the invalidation of the course's cache key.
   */
  function AddNoteEffects(userId: int, courseId: int, publishState: string, text: string,
                          site: Lookup, reply: CallResult<CreateReply>, invalidation: bool): seq<Effect>
  {
    (if site.Replied?
     then [Sent(Request(Write, CreateNotes, NotesPayload([NoteToSend(userId, courseId, publishState, text)]), NoPreSets))]
     else [])
    + (if Accepted(site, reply) && invalidation then [Invalidated(NotesCacheKey(courseId))] else [])
  }

  /**
    Adds one note online. A failed call rejects, flagged as a web-service error
    exactly when it is one; a reply whose first entry is refused rejects with
    the server's message as a web-service error; otherwise the course's notes
    cache key is invalidated and the add resolves even if that fails.
   */
  function AddNoteOnline(userId: int, courseId: int, publishState: string, text: string,
                         site: Lookup, reply: CallResult<CreateReply>, invalidation: bool)
    : (r: Step<Settled<(), AddError>>)
    ensures r.result.Resolved? <==> Accepted(site, reply)
    ensures CallFailureOf(site, reply).Some? ==>
      var f := CallFailureOf(site, reply).value;
      r.result == Rejected(AddError(FromCall(f), IsWebServiceError(f)))
    ensures site.Replied? && reply.Replied? && ServerRefused(reply.value) ==>
      r.result == Rejected(AddError(FromServer(reply.value.value[0].errormessage), true))
    ensures r.effects == AddNoteEffects(userId, courseId, publishState, text, site, reply, invalidation)
    // A consequence of the effects above, stated as the set of keys invalidated.
    ensures InvalidatedKeys(r.effects) ==
      if Accepted(site, reply) && invalidation then {NotesCacheKey(courseId)} else {}
  {
    var sent := AddNotesOnline(Some([NoteToSend(userId, courseId, publishState, text)]), site, reply);
    match sent.result
    case Rejected(e) =>
      Step(Rejected(AddError(FromCall(e), IsWebServiceError(e))), sent.effects)
    case Resolved(response) =>
      if ServerRefused(response) then
        Step(Rejected(AddError(FromServer(response.value[0].errormessage), true)), sent.effects)
      else
        var effects := sent.effects + InvalidateNotes(courseId, invalidation);
        InvalidatedKeysAppend(sent.effects, InvalidateNotes(courseId, invalidation));
        Step(Resolved(()), effects)
  }

  /**
    Adds a note. `online` is the connectivity the app reports; the branch that
    would store the note locally is disabled, so it has no effect. A sent note
    resolves `true`; a web-service error rejects with its error; any other
    failure resolves with no value and nothing is kept.
   */
  function AddNote(userId: int, courseId: int, publishState: string, text: string, online: bool,
                   site: Lookup, reply: CallResult<CreateReply>, invalidation: bool)
    : (r: Step<Settled<Option<bool>, ErrorValue>>)
    ensures r.result == Resolved(Some(true)) <==> Accepted(site, reply)
    ensures r.result == Resolved(None) <==>
      CallFailureOf(site, reply).Some? && !IsWebServiceError(CallFailureOf(site, reply).value)
    ensures r.result != Resolved(Some(false))
    ensures CallFailureOf(site, reply).Some? && IsWebServiceError(CallFailureOf(site, reply).value) ==>
      r.result == Rejected(FromCall(CallFailureOf(site, reply).value))
    ensures site.Replied? && reply.Replied? && ServerRefused(reply.value) ==>
      r.result == Rejected(FromServer(reply.value.value[0].errormessage))
    ensures r.effects == AddNoteEffects(userId, courseId, publishState, text, site, reply, invalidation)
    ensures InvalidatedKeys(r.effects) ==
      if Accepted(site, reply) && invalidation then {NotesCacheKey(courseId)} else {}
  {
    var sent := AddNoteOnline(userId, courseId, publishState, text, site, reply, invalidation);
    match sent.result
    case Resolved(_) => Step(Resolved(Some(true)), sent.effects)
    case Rejected(data) =>
      if data.wserror then Step(Rejected(data.error), sent.effects)
      else Step(Resolved(None), sent.effects)
  }

  /** The add never depends on the connectivity the app reports. */
  lemma AddNoteIgnoresConnectivity(userId: int, courseId: int, publishState: string, text: string,
                                   site: Lookup, reply: CallResult<CreateReply>, invalidation: bool)
    ensures AddNote(userId, courseId, publishState, text, true, site, reply, invalidation)
         == AddNote(userId, courseId, publishState, text, false, site, reply, invalidation)
  {
  }

  /** Both site-level checks: the notes feature is allowed and the web service exists. */
  function PluginEnabled(site: Lookup, wsFunction: string): (r: Settled<bool, CallFailure>)
    ensures r.Rejected? <==> site.Failed?
    ensures site.Failed? ==> r == Rejected(site.failure)
    ensures r == Resolved(true) <==>
      site.Replied? && CanUseAdvancedFeature(site.value, NotesFeature) && WsAvailable(site.value, wsFunction)
  {
    match site
    case Failed(f) => Rejected(f)
    case Replied(s) =>
      if !CanUseAdvancedFeature(s, NotesFeature) then Resolved(false)
      else if !WsAvailable(s, wsFunction) then Resolved(false)
      else Resolved(true)
  }

  function IsPluginAddNoteEnabled(site: Lookup): (r: Settled<bool, CallFailure>)
    ensures r.Rejected? <==> site.Failed?
    ensures site.Failed? ==> r == Rejected(site.failure)
    ensures r == Resolved(true) <==>
      site.Replied? && CanUseAdvancedFeature(site.value, NotesFeature) && WsAvailable(site.value, CreateNotes)
  {
    PluginEnabled(site, CreateNotes)
  }

  function IsPluginViewNotesEnabled(site: Lookup): (r: Settled<bool, CallFailure>)
    ensures r.Rejected? <==> site.Failed?
    ensures site.Failed? ==> r == Rejected(site.failure)
    ensures r == Resolved(true) <==>
      site.Replied? && CanUseAdvancedFeature(site.value, NotesFeature) && WsAvailable(site.value, GetCourseNotes)
  {
    PluginEnabled(site, GetCourseNotes)
  }

  /** With the notes feature switched off, neither site-level check can pass. */
  lemma FeatureGateDisablesBoth(site: Lookup)
    requires site.Replied? && !CanUseAdvancedFeature(site.value, NotesFeature)
    ensures IsPluginAddNoteEnabled(site) == Resolved(false)
    ensures IsPluginViewNotesEnabled(site) == Resolved(false)
  {
  }

  /** The record the add-note probe sends for a course: user -1, personal, empty text. */
  function ProbeNote(courseId: int): (n: NoteRecord)
    ensures n.userid == ProbeUserId && n.courseid == courseId
    ensures n.publishstate == "personal" && n.text == "" && n.format == 1
  {
    NoteRecord(ProbeUserId, "personal", courseId, "", HtmlFormat)
  }

  /**
    Whether the user may add notes in a course, found out by a cached read of
    the create-notes web service for a non-existent user. An answered probe
    means yes and a failed one no; only a failed site lookup rejects.
   */
  function IsPluginAddNoteEnabledForCourse(courseId: int, site: Lookup, probe: CallResult<CreateReply>)
    : (r: Step<Settled<bool, CallFailure>>)
    ensures r.result.Rejected? <==> site.Failed?
    ensures site.Failed? ==> r.result == Rejected(site.failure)
    ensures r.result == Resolved(true) <==> site.Replied? && probe.Replied?
    ensures site.Replied? ==>
      r.effects == [Sent(Request(Read, CreateNotes, NotesPayload([ProbeNote(courseId)]), NoPreSets))]
    ensures site.Failed? ==> r.effects == []
    ensures InvalidatedKeys(r.effects) == {}
  {
    match site
    case Failed(f) => Step(Rejected(f), [])
    case Replied(_) =>
      var sent := [Sent(Request(Read, CreateNotes, NotesPayload([ProbeNote(courseId)]), NoPreSets))];
      match probe
      case Replied(_) => Step(Resolved(true), sent)
      case Failed(_) => Step(Resolved(false), sent)
  }

  /**
    Cache options of the course-notes read: always the course's cache key;
    ignoring the cache switches off both the cached answer and the emergency
    fallback, and otherwise both are left at the site's defaults.
   */
  function NotesPreSets(courseId: int, ignoreCache: bool): (p: PreSets)
    ensures p.cacheKey == Some(NotesCacheKey(courseId))
    ensures ignoreCache <==> p.getFromCache == Some(false)
    ensures ignoreCache <==> p.emergencyCache == Some(false)
    ensures !ignoreCache ==> p.getFromCache.None? && p.emergencyCache.None?
  {
    var p := PreSets(Some(NotesCacheKey(courseId)), None, None);
    if ignoreCache then p.(getFromCache := Some(false), emergencyCache := Some(false)) else p
  }

  /** The one read the course-notes fetch issues. */
  function NotesRead(courseId: int, ignoreCache: bool): Request {
    Request(Read, GetCourseNotes, CoursePayload(courseId), NotesPreSets(courseId, ignoreCache))
  }

  /**
    The course-notes read as the code stands: with the offline merge disabled,
    only a call asking for online notes alone hands the fetched notes back;
    any other call resolves with no value.
   */
  function GetNotesAsWritten(courseId: int, ignoreCache: bool, onlyOnline: bool,
                             site: Lookup, reply: CallResult<CourseNotes>)
    : (r: Step<Settled<Option<CourseNotes>, CallFailure>>)
    ensures site.Failed? ==> r == Step(Rejected(site.failure), [])
    ensures site.Replied? ==> r.effects == [Sent(NotesRead(courseId, ignoreCache))]
    ensures site.Replied? && reply.Failed? ==> r.result == Rejected(reply.failure)
    ensures r.result.Resolved? && r.result.value.Some? ==> onlyOnline && reply == Replied(r.result.value.value)
    ensures site.Replied? && reply.Replied? && !onlyOnline ==> r.result == Resolved(None)
    ensures site.Replied? && reply.Replied? && onlyOnline ==> r.result == Resolved(Some(reply.value))
  {
    match site
    case Failed(f) => Step(Rejected(f), [])
    case Replied(_) =>
      var sent := [Sent(NotesRead(courseId, ignoreCache))];
      match reply
      case Failed(f) => Step(Rejected(f), sent)
      case Replied(notes) => Step(Resolved(if onlyOnline then Some(notes) else None), sent)
  }

  /**
    The course-notes read as evidently intended: it resolves with the fetched
    notes whether or not offline notes were asked for, since there are no
    offline notes to merge.
   */
  function GetNotes(courseId: int, ignoreCache: bool, onlyOnline: bool,
                    site: Lookup, reply: CallResult<CourseNotes>)
    : (r: Step<Settled<Option<CourseNotes>, CallFailure>>)
    ensures site.Failed? ==> r == Step(Rejected(site.failure), [])
    ensures site.Replied? ==> r.effects == [Sent(NotesRead(courseId, ignoreCache))]
    ensures site.Replied? && reply.Failed? ==> r.result == Rejected(reply.failure)
    ensures site.Replied? && reply.Replied? ==> r.result == Resolved(Some(reply.value))
  {
    match site
    case Failed(f) => Step(Rejected(f), [])
    case Replied(_) =>
      var sent := [Sent(NotesRead(courseId, ignoreCache))];
      match reply
      case Failed(f) => Step(Rejected(f), sent)
      case Replied(notes) => Step(Resolved(Some(notes)), sent)
  }

  /** Asking for online notes alone, the code as written and as intended agree. */
  lemma GetNotesAgreesWhenOnlyOnline(courseId: int, ignoreCache: bool, site: Lookup, reply: CallResult<CourseNotes>)
    ensures GetNotesAsWritten(courseId, ignoreCache, true, site, reply) == GetNotes(courseId, ignoreCache, true, site, reply)
  {
  }

  /** The default call the notes list makes loses the notes the site sent back. */
  lemma GetNotesAsWrittenDropsNotes(notes: CourseNotes)
    ensures GetNotesAsWritten(5, false, false, Replied(Site({}, {})), Replied(notes)).result == Resolved(None)
    ensures GetNotes(5, false, false, Replied(Site({}, {})), Replied(notes)).result == Resolved(Some(notes))
  {
  }

  /**
    Whether notes can be viewed in a course: the course-notes read, asking for
    online notes only and allowing the cache, succeeds. It never rejects.
   */
  function IsPluginViewNotesEnabledForCourse(courseId: int, site: Lookup, reply: CallResult<CourseNotes>)
    : (r: Step<bool>)
    ensures r.result <==> site.Replied? && reply.Replied?
    ensures site.Replied? ==> r.effects == [Sent(NotesRead(courseId, false))]
    ensures site.Failed? ==> r.effects == []
    ensures site.Replied? ==> r.effects[0].request.preSets.getFromCache.None?
    ensures InvalidatedKeys(r.effects) == {}
  {
    var fetched := GetNotes(courseId, false, true, site, reply);
    Step(fetched.result.Resolved?, fetched.effects)
  }

  /** Reference meaning of the offline check: some listed note is flagged offline. */
  ghost predicate SomeOffline(notes: seq<Note>) {
    exists i :: 0 <= i < |notes| && notes[i].offline
  }

  /** Whether any note of a list is offline; an absent or empty list has none. */
  method HasOfflineNote(notes: Option<seq<Note>>) returns (found: bool)
    ensures notes.None? || notes.value == [] ==> !found
    ensures found <==> notes.Some? && SomeOffline(notes.value)
  {
    if notes.None? || |notes.value| == 0 {
      return false;
    }
    var list := notes.value;
    var i := 0;
    while i < |list|
      invariant 0 <= i <= |list|
      invariant forall j :: 0 <= j < i ==> !list[j].offline
    {
      if list[i].offline {
        return true;
      }
      i := i + 1;
    }
    return false;
  }
}
