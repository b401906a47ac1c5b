/**
 * The collaborators the components reach through `Yii::$app` and
 * `NumberHelper`, replaced by in-memory state.
 */
module Host {
  import opened Cookies
  import opened Events

  /** The request's cookies, the response's cookie collection and the event table. */
  class Application {
    /** Cookies the client sent: name to value. The request is read only. */
    const requestCookies: map<string, string>
    /** Cookies to send back, keyed by cookie name as the response collection keys them. */
    var responseCookies: map<string, Cookie>
    /** The rows of `uuid_event`, oldest first. */
    var events: seq<EventRow>

    constructor (requestCookies: map<string, string>)
      ensures this.requestCookies == requestCookies
      ensures responseCookies == map[] && events == []
    {
      this.requestCookies := requestCookies;
      responseCookies := map[];
      events := [];
    }

    /** `response->cookies->add(c)`: replaces any cookie of the same name. */
    method AddResponseCookie(c: Cookie)
      modifies this`responseCookies
      ensures responseCookies == old(responseCookies)[c.name := c]
    {
      responseCookies := responseCookies[c.name := c];
    }

    /** `createCommand()->insert('uuid_event', row)->execute()`. */
    method InsertEvent(row: EventRow)
      modifies this`events
      ensures events == old(events) + [row]
    {
      events := events + [row];
    }
  }

  /**
   * `NumberHelper::getGuid()`, a random source outside the model. The values
   * it yields are a parameter (`source`); callers learn nothing about them
   * except that one more was drawn.
   */
  class GuidGenerator {
    const source: nat -> string
    /** How many identifiers have been drawn so far. */
    var draws: nat

    constructor (source: nat -> string)
      ensures draws == 0
    {
      this.source := source;
      draws := 0;
    }

    method GetGuid() returns (guid: string)
      modifies this
      ensures draws == old(draws) + 1
    {
      guid := source(draws);
      draws := draws + 1;
    }
  }
}
