/** `UuidComponent`: the identifier lifecycle, event tracking and event counting. */
module UuidComponents {
  import opened Wrappers
  import opened Utf8
  import opened Cookies
  import opened Events
  import opened Host
  import opened Lifecycle

  class UuidComponent {
    var cookieName: string
    /** Parameter-value pairs overriding the default cookie parameters. */
    var cookieParams: Params
    /** Limit of the action name's length in bytes. */
    var actionNameLength: int
    /** The private `_uuid`; `None` is null. */
    var uuidCache: Option<string>

    const app: Application
    const generator: GuidGenerator

    function Cfg(): Config
      reads this`cookieName, this`cookieParams, this`actionNameLength
    {
      Config(cookieName, cookieParams, actionNameLength)
    }

    function Snap(): Snapshot
      reads this`uuidCache, app
    {
      Snapshot(uuidCache, app.responseCookies, app.events)
    }

    constructor (app: Application, generator: GuidGenerator)
      ensures this.app == app && this.generator == generator
      ensures Cfg() == DefaultConfig && uuidCache == None
    {
      this.app := app;
      this.generator := generator;
      cookieName := "__muid";
      cookieParams := map[];
      actionNameLength := 25;
      uuidCache := None;
    }

    /** Returns the visitor's identifier, drawing and sending a new one when none is known. */
    method GetUuid() returns (id: string)
      modifies this`uuidCache, app`responseCookies, generator
      ensures GetUuidStep(Cfg(), app.requestCookies, old(Snap()), id, Snap())
      ensures generator.draws == old(generator.draws) + DrawsFor(ResolutionOf(Cfg(), app.requestCookies, old(Snap())))
    {
      if uuidCache.Some? {
        return uuidCache.value;
      }
      var fromCookie := RequestValue(app.requestCookies, cookieName);
      if Truthy(fromCookie) {
        uuidCache := Some(fromCookie.value);
        return uuidCache.value;
      }
      var guid := generator.GetGuid();
      SetUuid(guid);
      id := uuidCache.value;
    }

    /** Sets the identifier and sends it in the configured cookie. */
    method SetUuid(uuid: string)
      modifies this`uuidCache, app`responseCookies
      ensures Snap() == SetUuidState(Cfg(), old(Snap()), uuid)
    {
      var params := MergeNameValue(cookieParams, cookieName, uuid);
      var cookie := Configure(params);
      app.AddResponseCookie(cookie);
      uuidCache := Some(uuid);
    }

    /** Records one event of the visitor; refuses an action name longer than the limit. */
    method TrackEvent(action: string, target: Option<int>, value: Option<string>) returns (r: Outcome<Error>)
      modifies this`uuidCache, app`responseCookies, app`events, generator
      ensures TrackStep(Cfg(), app.requestCookies, old(Snap()), action, target, value, r, Snap())
      ensures generator.draws == old(generator.draws) +
        (if r.Pass? then DrawsFor(ResolutionOf(Cfg(), app.requestCookies, old(Snap()))) else 0)
    {
      if ByteLength(action) > actionNameLength {
        return Fail(ActionTooLong);
      }
      var uuid := GetUuid();
      app.InsertEvent(EventRow(uuid, action, target, value));
      r := Pass;
    }

    /** Counts the visitor's events, each filter narrowing the count unless it is `None`. */
    method CountEvents(action: Filter<string>, target: Filter<int>, value: Filter<string>) returns (count: nat)
      modifies this`uuidCache, app`responseCookies, generator
      ensures CountStep(Cfg(), app.requestCookies, old(Snap()), action, target, value, count, Snap())
      ensures generator.draws == old(generator.draws) + DrawsFor(ResolutionOf(Cfg(), app.requestCookies, old(Snap())))
    {
      var uuid := GetUuid();
      var query := Criteria(uuid, None, None, None);
      if action.Some? {
        query := query.(action := action);
      }
      if target.Some? {
        query := query.(target := target);
      }
      if value.Some? {
        query := query.(value := value);
      }
      count := CountMatching(app.events, query);
    }
  }

  /**
   * A caller's view: counting, tracking the same event twice and counting
   * again raises the count by two, whatever the cookies and the generator do.
   */
  method TrackTwiceThenCount(c: UuidComponent, a: string, t: Option<int>, v: Option<string>)
      returns (before: nat, after: nat)
    requires ByteLength(a) <= c.actionNameLength
    modifies c`uuidCache, c.app`responseCookies, c.app`events, c.generator
    ensures after == before + 2
  {
    ghost var s0 := c.Snap();
    before := c.CountEvents(Some(Some(a)), Some(t), Some(v));
    ghost var s1 := c.Snap();
    var r1 := c.TrackEvent(a, t, v);
    ghost var s2 := c.Snap();
    var r2 := c.TrackEvent(a, t, v);
    ghost var s3 := c.Snap();
    after := c.CountEvents(Some(Some(a)), Some(t), Some(v));
    TrackTwiceCountsTwo(c.Cfg(), c.app.requestCookies, a, t, v, s0, before, s1, r1, s2, r2, s3, after, c.Snap());
  }
}
