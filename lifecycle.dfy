/**
 * What one call of `getUuid`, `setUuid`, `trackEvent`/`track` and
 * `countEvents` does to the component's state, as relations between the
 * state before and after. `getUuid` is nondeterministic where it draws a
 * fresh identifier, so each step relates a state to every outcome the
 * generator allows. Both components are specified by these relations.
 */
module Lifecycle {
  import opened Wrappers
  import opened Utf8
  import opened Cookies
  import opened Events

  /** The component's public configuration. */
  datatype Config = Config(cookieName: string, cookieParams: Params, actionNameLength: int)

  /** `cookieName = '__muid'`, `cookieParams = []`, `actionNameLength = 25`. */
  const DefaultConfig: Config := Config("__muid", map[], 25)

  /** The private `_uuid` (None is null), the response cookies and the event table. */
  datatype Snapshot = Snapshot(cache: Option<string>, responseCookies: map<string, Cookie>, events: seq<EventRow>)

  /** The error `trackEvent` throws (`InvalidParamException`). */
  datatype Error = InvalidParam(message: string)

  const ActionTooLong: Error := InvalidParam("Action name is too long.")

  /** Which of the three branches of `getUuid` a call takes. */
  datatype Resolution = Cached | FromRequest | Generated

  /**
   * PHP truthiness of a cookie value: null, "" and "0" are falsy, every other
   * string (so "00", "0.0" and " " too) is truthy.
   */
  predicate Truthy(v: Option<string>)
    ensures Truthy(v) ==> v.Some? && |v.value| >= 1
    ensures v.Some? && |v.value| >= 2 ==> Truthy(v)
    ensures v.Some? && |v.value| == 1 ==> (Truthy(v) <==> v.value[0] != '0')
  {
    v.Some? && v.value != "" && v.value != "0"
  }

  /** `request->cookies->getValue(name)`: the value sent under `name`, or the default null. */
  function RequestValue(request: map<string, string>, name: string): (v: Option<string>)
    ensures v.Some? <==> name in request
    ensures v.Some? ==> v.value == request[name]
  {
    if name in request then Some(request[name]) else None
  }

  /**
   * The branch `getUuid` takes: the cache when `_uuid` is not null, else the
   * request cookie when it was sent and is neither "" nor "0", else a fresh draw.
   */
  function ResolutionOf(cfg: Config, request: map<string, string>, s: Snapshot): (res: Resolution)
    ensures res == Cached <==> s.cache.Some?
    ensures res == FromRequest <==>
      s.cache.None? && cfg.cookieName in request && request[cfg.cookieName] !in {"", "0"}
    ensures res == Generated <==>
      s.cache.None? && (cfg.cookieName !in request || request[cfg.cookieName] in {"", "0"})
  {
    if s.cache.Some? then Cached
    else if Truthy(RequestValue(request, cfg.cookieName)) then FromRequest
    else Generated
  }

  /** How many identifiers a call taking branch `res` draws from the generator. */
  function DrawsFor(res: Resolution): nat {
    if res == Generated then 1 else 0
  }

  /** The cookie `setUuid(id)` sends. */
  function IdCookie(cfg: Config, id: string): Cookie {
    Configure(MergeNameValue(cfg.cookieParams, cfg.cookieName, id))
  }

  /**
   * The state after `setUuid(id)`: `_uuid` is `id`, the response holds the
   * cookie named `cookieName` with value `id` and the other cookie
   * parameters, and no other response cookie and no event row changed.
   */
  function SetUuidState(cfg: Config, s: Snapshot, id: string): (s': Snapshot)
    ensures s'.cache == Some(id) && s'.events == s.events
    ensures s'.responseCookies.Keys == s.responseCookies.Keys + {cfg.cookieName}
    ensures s'.responseCookies[cfg.cookieName] == Cookie(cfg.cookieName, id, cfg.cookieParams - {NameKey, ValueKey})
    ensures forall n :: n in s.responseCookies && n != cfg.cookieName ==>
      n in s'.responseCookies && s'.responseCookies[n] == s.responseCookies[n]
  {
    NameAndValueWin(cfg.cookieParams, cfg.cookieName, id);
    var c := IdCookie(cfg, id);
    s.(cache := Some(id), responseCookies := s.responseCookies[c.name := c])
  }

  /**
   * `getUuid()` may return `id` and leave state `s'` when started in `s`.
   * Whatever the branch, the returned identifier is then the cached one, the
   * table is as it was, and no response cookie other than `cookieName` changed.
   */
  predicate GetUuidStep(cfg: Config, request: map<string, string>, s: Snapshot, id: string, s': Snapshot)
    ensures GetUuidStep(cfg, request, s, id, s') ==> s'.cache == Some(id) && s'.events == s.events
    ensures GetUuidStep(cfg, request, s, id, s') ==>
      s'.responseCookies.Keys <= s.responseCookies.Keys + {cfg.cookieName}
    ensures GetUuidStep(cfg, request, s, id, s') ==>
      forall n :: n in s.responseCookies && n != cfg.cookieName ==>
        n in s'.responseCookies && s'.responseCookies[n] == s.responseCookies[n]
  {
    match ResolutionOf(cfg, request, s)
    case Cached => Some(id) == s.cache && s' == s
    case FromRequest => Some(id) == RequestValue(request, cfg.cookieName) && s' == s.(cache := Some(id))
    case Generated => s' == SetUuidState(cfg, s, id)
  }

  /**
   * `trackEvent(action, target, value)` may end with `r` in state `s'`. On
   * success the inserted row carries the identifier `getUuid` resolved,
   * which is then the cached one.
   */
  predicate TrackStep(cfg: Config, request: map<string, string>, s: Snapshot,
                      action: string, target: Option<int>, value: Option<string>,
                      r: Outcome<Error>, s': Snapshot)
    ensures TrackStep(cfg, request, s, action, target, value, r, s') ==>
      |s'.events| == |s.events| + (if r.Pass? then 1 else 0) && s'.events[..|s.events|] == s.events
  {
    if ByteLength(action) > cfg.actionNameLength then
      r == Fail(ActionTooLong) && s' == s
    else
      r == Pass && s'.cache.Some? &&
      GetUuidStep(cfg, request, s, s'.cache.value, s'.(events := s.events)) &&
      s'.events == s.events + [EventRow(s'.cache.value, action, target, value)]
  }

  /** `countEvents(action, target, value)` may return `n` and leave state `s'`. */
  predicate CountStep(cfg: Config, request: map<string, string>, s: Snapshot,
                      action: Filter<string>, target: Filter<int>, value: Filter<string>,
                      n: nat, s': Snapshot)
    ensures CountStep(cfg, request, s, action, target, value, n, s') ==> s'.events == s.events && n <= |s.events|
  {
    s'.cache.Some? &&
    GetUuidStep(cfg, request, s, s'.cache.value, s') &&
    n == CountMatching(s.events, Criteria(s'.cache.value, action, target, value))
  }

  // ---------------------------------------------------------------------
  // Identifier lifecycle

  /** With an identifier cached, `getUuid` returns it and changes nothing. */
  lemma CachedIsReturned(cfg: Config, request: map<string, string>, s: Snapshot, id: string, s': Snapshot)
    requires s.cache.Some? && GetUuidStep(cfg, request, s, id, s')
    ensures id == s.cache.value && s' == s
  {
  }

  /** Two consecutive `getUuid` calls return the same identifier, and the second changes nothing. */
  lemma GetUuidIdempotent(cfg: Config, request: map<string, string>,
                          s0: Snapshot, id1: string, s1: Snapshot, id2: string, s2: Snapshot)
    requires GetUuidStep(cfg, request, s0, id1, s1)
    requires GetUuidStep(cfg, request, s1, id2, s2)
    ensures id2 == id1 && s2 == s1
  {
    CachedIsReturned(cfg, request, s1, id2, s2);
  }

  /**
   * With nothing cached and a truthy request cookie, `getUuid` returns that
   * cookie's value, caches it and writes no response cookie.
   */
  lemma RequestCookieIsAdopted(cfg: Config, request: map<string, string>, s: Snapshot, id: string, s': Snapshot)
    requires s.cache.None? && Truthy(RequestValue(request, cfg.cookieName))
    requires GetUuidStep(cfg, request, s, id, s')
    ensures cfg.cookieName in request && id == request[cfg.cookieName]
    ensures s'.cache == Some(id) && s'.responseCookies == s.responseCookies && s'.events == s.events
  {
  }

  /**
   * With nothing cached and the request cookie missing, "" or "0", `getUuid`
   * returns a freshly drawn identifier, caches it and sends it under the
   * configured cookie name.
   */
  lemma MissingCookieIsGenerated(cfg: Config, request: map<string, string>, s: Snapshot, id: string, s': Snapshot)
    requires s.cache.None?
    requires cfg.cookieName !in request || request[cfg.cookieName] in {"", "0"}
    requires GetUuidStep(cfg, request, s, id, s')
    ensures ResolutionOf(cfg, request, s) == Generated
    ensures s' == SetUuidState(cfg, s, id)
    ensures cfg.cookieName in s'.responseCookies && s'.responseCookies[cfg.cookieName].value == id
  {
  }

  /** After `setUuid(x)`, `getUuid` returns `x` without consulting the request or the generator. */
  lemma SetThenGet(cfg: Config, request: map<string, string>, s: Snapshot, x: string, id: string, s': Snapshot)
    requires GetUuidStep(cfg, request, SetUuidState(cfg, s, x), id, s')
    ensures id == x && s' == SetUuidState(cfg, s, x)
    ensures ResolutionOf(cfg, request, SetUuidState(cfg, s, x)) == Cached
  {
  }

  /**
   * `getUuid` is determined by the state and the generator's value: two
   * runs from the same state that cache the same identifier agree entirely.
   */
  lemma GetUuidDeterministic(cfg: Config, request: map<string, string>, s: Snapshot,
                             id1: string, s1: Snapshot, id2: string, s2: Snapshot)
    requires GetUuidStep(cfg, request, s, id1, s1) && GetUuidStep(cfg, request, s, id2, s2)
    requires ResolutionOf(cfg, request, s) == Generated ==> id1 == id2
    ensures id1 == id2 && s1 == s2
  {
  }

  // ---------------------------------------------------------------------
  // Event log

  /**
   * `trackEvent` fails exactly when `strlen(action)` exceeds the limit, and
   * then the table, the cached identifier and the response cookies are as
   * before.
   */
  lemma TrackValidatesFirst(cfg: Config, request: map<string, string>, s: Snapshot,
                            action: string, target: Option<int>, value: Option<string>,
                            r: Outcome<Error>, s': Snapshot)
    requires TrackStep(cfg, request, s, action, target, value, r, s')
    ensures r.Fail? <==> ByteLength(action) > cfg.actionNameLength
    ensures r.Fail? ==> r.error == ActionTooLong && s' == s
  {
  }

  /** An action name longer than the limit in characters is always refused. */
  lemma TooManyCharactersRefused(cfg: Config, request: map<string, string>, s: Snapshot,
                                 action: string, target: Option<int>, value: Option<string>,
                                 r: Outcome<Error>, s': Snapshot)
    requires |action| > cfg.actionNameLength
    requires TrackStep(cfg, request, s, action, target, value, r, s')
    ensures r == Fail(ActionTooLong) && s' == s
  {
  }

  /**
   * A successful `trackEvent` appends exactly one row, tagged with the
   * resolved identifier, behind the unchanged existing rows.
   */
  lemma TrackAppendsOneRow(cfg: Config, request: map<string, string>, s: Snapshot,
                           action: string, target: Option<int>, value: Option<string>,
                           r: Outcome<Error>, s': Snapshot)
    requires TrackStep(cfg, request, s, action, target, value, r, s')
    requires r.Pass?
    ensures |s'.events| == |s.events| + 1 && s'.events[..|s.events|] == s.events
    ensures s'.events[|s.events|] == EventRow(s'.cache.value, action, target, value)
    ensures s.cache.Some? ==> s'.cache == s.cache
  {
    assert s'.events[..|s.events|] == s.events;
  }

  /** A row `trackEvent` inserts is counted by `countEvents` with the same arguments. */
  lemma TrackedRowMatches(uuid: string, action: string, target: Option<int>, value: Option<string>)
    ensures Matches(EventRow(uuid, action, target, value), Criteria(uuid, Some(Some(action)), Some(target), Some(value)))
    ensures Matches(EventRow(uuid, action, target, value), Unfiltered(uuid))
  {
  }

  /** `countEvents` never changes the table and its result never exceeds the unfiltered count. */
  lemma CountIsReadOnly(cfg: Config, request: map<string, string>, s: Snapshot,
                        action: Filter<string>, target: Filter<int>, value: Filter<string>,
                        n: nat, s': Snapshot)
    requires CountStep(cfg, request, s, action, target, value, n, s')
    ensures s'.events == s.events
    ensures n <= CountMatching(s.events, Unfiltered(s'.cache.value)) <= |s.events|
  {
    CountAtMostUnfiltered(s.events, Criteria(s'.cache.value, action, target, value));
  }

  /**
   * `countEvents(a, t, v)`, then two successful `trackEvent(a, t, v)`, then
   * `countEvents(a, t, v)` again: the second count is the first plus two.
   */
  lemma TrackTwiceCountsTwo(cfg: Config, request: map<string, string>,
                            a: string, t: Option<int>, v: Option<string>,
                            s0: Snapshot, n0: nat, s1: Snapshot, r1: Outcome<Error>, s2: Snapshot,
                            r2: Outcome<Error>, s3: Snapshot, n3: nat, s4: Snapshot)
    requires CountStep(cfg, request, s0, Some(Some(a)), Some(t), Some(v), n0, s1)
    requires TrackStep(cfg, request, s1, a, t, v, r1, s2) && r1.Pass?
    requires TrackStep(cfg, request, s2, a, t, v, r2, s3) && r2.Pass?
    requires CountStep(cfg, request, s3, Some(Some(a)), Some(t), Some(v), n3, s4)
    ensures n3 == n0 + 2
  {
    var id := s1.cache.value;
    var c := Criteria(id, Some(Some(a)), Some(t), Some(v));
    CachedIsReturned(cfg, request, s1, s2.cache.value, s2.(events := s1.events));
    CachedIsReturned(cfg, request, s2, s3.cache.value, s3.(events := s2.events));
    CachedIsReturned(cfg, request, s3, s4.cache.value, s4);
    TrackedRowMatches(id, a, t, v);
    CountAppend(s1.events, EventRow(id, a, t, v), c);
    CountAppend(s2.events, EventRow(id, a, t, v), c);
  }

  /**
   * `trackEvent` is determined by the state and the generator's value: two
   * runs from the same state that end with the same cached identifier agree.
   */
  lemma TrackDeterministic(cfg: Config, request: map<string, string>, s: Snapshot,
                           action: string, target: Option<int>, value: Option<string>,
                           r1: Outcome<Error>, s1: Snapshot, r2: Outcome<Error>, s2: Snapshot)
    requires TrackStep(cfg, request, s, action, target, value, r1, s1)
    requires TrackStep(cfg, request, s, action, target, value, r2, s2)
    requires s1.cache == s2.cache
    ensures r1 == r2 && s1 == s2
  {
    if r1.Pass? {
      GetUuidDeterministic(cfg, request, s, s1.cache.value, s1.(events := s.events), s2.cache.value, s2.(events := s.events));
      assert s1 == s1.(events := s.events).(events := s1.events);
    }
  }

  /** Two identical rows count twice when they match and not at all otherwise. */
  lemma CountTwin(row: EventRow, c: Criteria)
    ensures CountMatching([row, row], c) == if Matches(row, c) then 2 else 0
  {
    CountAppend([], row, c);
    CountAppend([row], row, c);
    assert [row] + [row] == [row, row];
  }

  /** "click" is five bytes long, within the default limit. */
  lemma ClickFits()
    ensures ByteLength("click") == 5 <= DefaultConfig.actionNameLength
  {
    assert IsAscii("click");
  }

  /**
   * Starting from an empty table with the default configuration: after
   * `trackEvent("click", 5, "buy")` twice, `countEvents("click", 5, "buy")`
   * and `countEvents("click")` are 2 and `countEvents("other")` is 0.
   */
  lemma ClickExample(request: map<string, string>, s0: Snapshot,
                     r1: Outcome<Error>, s1: Snapshot, r2: Outcome<Error>, s2: Snapshot,
                     n: nat, s3: Snapshot, m: nat, s4: Snapshot, k: nat, s5: Snapshot)
    requires s0.events == []
    requires TrackStep(DefaultConfig, request, s0, "click", Some(5), Some("buy"), r1, s1)
    requires TrackStep(DefaultConfig, request, s1, "click", Some(5), Some("buy"), r2, s2)
    requires CountStep(DefaultConfig, request, s2, Some(Some("click")), Some(Some(5)), Some(Some("buy")), n, s3)
    requires CountStep(DefaultConfig, request, s3, Some(Some("click")), None, None, m, s4)
    requires CountStep(DefaultConfig, request, s4, Some(Some("other")), None, None, k, s5)
    ensures r1 == Pass && r2 == Pass
    ensures n == 2 && m == 2 && k == 0
  {
    var cfg := DefaultConfig;
    ClickFits();
    var id := s1.cache.value;
    var row := EventRow(id, "click", Some(5), Some("buy"));
    CachedIsReturned(cfg, request, s1, s2.cache.value, s2.(events := s1.events));
    assert s2.events == [row, row];
    CachedIsReturned(cfg, request, s2, s3.cache.value, s3);
    CachedIsReturned(cfg, request, s3, s4.cache.value, s4);
    CachedIsReturned(cfg, request, s4, s5.cache.value, s5);
    CountTwin(row, Criteria(id, Some(Some("click")), Some(Some(5)), Some(Some("buy"))));
    CountTwin(row, Criteria(id, Some(Some("click")), None, None));
    CountTwin(row, Criteria(id, Some(Some("other")), None, None));
  }
}
