/**
 * `TrackComponent`, the earlier form of `UuidComponent`: the same
 * identifier lifecycle, with `track` in place of `trackEvent` and no
 * counting.
 */
module TrackComponents {
  import opened Wrappers
  import opened Utf8
  import opened Cookies
  import opened Events
  import opened Host
  import opened Lifecycle
  import UuidComponents

  class TrackComponent {
    var cookieName: string
    /** Parameter-value pairs overriding the default cookie parameters. */
    var cookieParams: Params
    /** Limit of the action name's length in bytes. */
    var actionNameLength: int
    /** The private `_uuid`; `None` is null. */
    var uuidCache: Option<string>

    const app: Application
    const generator: GuidGenerator

    function Cfg(): Config
      reads this`cookieName, this`cookieParams, this`actionNameLength
    {
      Config(cookieName, cookieParams, actionNameLength)
    }

    function Snap(): Snapshot
      reads this`uuidCache, app
    {
      Snapshot(uuidCache, app.responseCookies, app.events)
    }

    constructor (app: Application, generator: GuidGenerator)
      ensures this.app == app && this.generator == generator
      ensures Cfg() == DefaultConfig && uuidCache == None
    {
      this.app := app;
      this.generator := generator;
      cookieName := "__muid";
      cookieParams := map[];
      actionNameLength := 25;
      uuidCache := None;
    }

    /** Returns the visitor's identifier, drawing and sending a new one when none is known. */
    method GetUuid() returns (id: string)
      modifies this`uuidCache, app`responseCookies, generator
      ensures GetUuidStep(Cfg(), app.requestCookies, old(Snap()), id, Snap())
      ensures generator.draws == old(generator.draws) + DrawsFor(ResolutionOf(Cfg(), app.requestCookies, old(Snap())))
    {
      if uuidCache.Some? {
        return uuidCache.value;
      }
      var fromCookie := RequestValue(app.requestCookies, cookieName);
      if Truthy(fromCookie) {
        uuidCache := Some(fromCookie.value);
        return uuidCache.value;
      }
      var guid := generator.GetGuid();
      SetUuid(guid);
      id := uuidCache.value;
    }

    /** Sets the identifier and sends it in the configured cookie. */
    method SetUuid(uuid: string)
      modifies this`uuidCache, app`responseCookies
      ensures Snap() == SetUuidState(Cfg(), old(Snap()), uuid)
    {
      var params := MergeNameValue(cookieParams, cookieName, uuid);
      var cookie := Configure(params);
      app.AddResponseCookie(cookie);
      uuidCache := Some(uuid);
    }

    /** Records one action of the visitor; refuses an action name longer than the limit. */
    method Track(action: string, target: Option<int>, value: Option<string>) returns (r: Outcome<Error>)
      modifies this`uuidCache, app`responseCookies, app`events, generator
      ensures TrackStep(Cfg(), app.requestCookies, old(Snap()), action, target, value, r, Snap())
      ensures generator.draws == old(generator.draws) +
        (if r.Pass? then DrawsFor(ResolutionOf(Cfg(), app.requestCookies, old(Snap()))) else 0)
    {
      if ByteLength(action) > actionNameLength {
        return Fail(ActionTooLong);
      }
      var uuid := GetUuid();
      app.InsertEvent(EventRow(uuid, action, target, value));
      r := Pass;
    }
  }

  /**
   * The two components behave alike: started from equal configuration and
   * state over separate applications that received the same request
   * cookies, `UuidComponent.trackEvent` and `TrackComponent.track` give the
   * same outcome and the same new state whenever they settle on the same
   * identifier (always, unless both had to draw a fresh one).
   */
  method TrackAgreesWithTrackEvent(u: UuidComponents.UuidComponent, t: TrackComponent,
                                   action: string, target: Option<int>, value: Option<string>)
      returns (ru: Outcome<Error>, rt: Outcome<Error>)
    requires u.app != t.app && u.generator != t.generator
    requires u.Cfg() == t.Cfg() && u.Snap() == t.Snap() && u.app.requestCookies == t.app.requestCookies
    modifies u`uuidCache, u.app`responseCookies, u.app`events, u.generator
    modifies t`uuidCache, t.app`responseCookies, t.app`events, t.generator
    ensures ResolutionOf(t.Cfg(), t.app.requestCookies, old(t.Snap())) != Generated ==> u.Snap() == t.Snap()
    ensures u.Snap().cache == t.Snap().cache ==> ru == rt && u.Snap() == t.Snap()
  {
    ghost var s := u.Snap();
    ru := u.TrackEvent(action, target, value);
    rt := t.Track(action, target, value);
    if ResolutionOf(t.Cfg(), t.app.requestCookies, s) != Generated || u.Snap().cache == t.Snap().cache {
      if ru.Pass? && rt.Pass? {
        GetUuidDeterministic(u.Cfg(), u.app.requestCookies, s,
          u.Snap().cache.value, u.Snap().(events := s.events), t.Snap().cache.value, t.Snap().(events := s.events));
      }
      TrackDeterministic(u.Cfg(), u.app.requestCookies, s, action, target, value, ru, u.Snap(), rt, t.Snap());
    }
  }
}
