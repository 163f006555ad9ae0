/**
  The site a provider talks to, reduced to an oracle: looking the site up,
  and each read or write on it, either yields a value or fails; a failure is
  either a web-service error (the server answered and refused) or some other
  failure (transport, storage, site lookup).
 */
module CoreSite {
  import opened Outcomes
  import opened NotesData

  datatype CallFailure = WebServiceError(message: string) | OtherError(message: string)

  /** The utility that tells web-service errors apart from every other failure. */
  predicate IsWebServiceError(f: CallFailure) {
    f.WebServiceError?
  }

  /** What one remote call (or the site lookup) settles with. */
  datatype CallResult<+T> = Replied(value: T) | Failed(failure: CallFailure)

  /** The parts of a site's configuration the notes add-on consults. */
  datatype Site = Site(enabledFeatures: set<string>, availableFunctions: set<string>)

  predicate CanUseAdvancedFeature(site: Site, feature: string) {
    feature in site.enabledFeatures
  }

  predicate WsAvailable(site: Site, wsFunction: string) {
    wsFunction in site.availableFunctions
  }

  /** The outcome of looking up the site by id. */
  type Lookup = CallResult<Site>

  datatype Mode = Read | Write

  /** Per-call cache options; `None` is an option left unset. */
  datatype PreSets = PreSets(cacheKey: Option<string>, getFromCache: Option<bool>, emergencyCache: Option<bool>)

  const NoPreSets := PreSets(None, None, None)

  datatype Payload = NotesPayload(notes: seq<NoteRecord>) | CoursePayload(courseid: int)

  datatype Request = Request(mode: Mode, wsFunction: string, payload: Payload, preSets: PreSets)

  /** What an operation did to the site: a call it issued, or a cache key it invalidated. */
  datatype Effect = Sent(request: Request) | Invalidated(key: string)

  /** The result of an operation together with its effects, in order. */
  datatype Step<+T> = Step(result: T, effects: seq<Effect>)

  /** The cache keys a run of effects invalidated. */
  function InvalidatedKeys(effects: seq<Effect>): set<string> {
    if effects == [] then {}
    else (if effects[0].Invalidated? then {effects[0].key} else {}) + InvalidatedKeys(effects[1..])
  }

  /** Effects that run one after the other invalidate the keys of both. */
  lemma {:induction false} InvalidatedKeysAppend(first: seq<Effect>, second: seq<Effect>)
    ensures InvalidatedKeys(first + second) == InvalidatedKeys(first) + InvalidatedKeys(second)
    decreases |first|
  {
    if first == [] {
      assert first + second == second;
    } else {
      assert (first + second)[0] == first[0];
      assert (first + second)[1..] == first[1..] + second;
      InvalidatedKeysAppend(first[1..], second);
    }
  }
}
