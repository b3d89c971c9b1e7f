/**
 * A parsed URL as the WHATWG URL Standard's `URL` object holds it, reduced
 * to what the login initiation reads and changes: the host and the query
 * list behind `searchParams`.  Parsing is not modelled; a parser is passed
 * in as a function, with `None` standing for the TypeError that
 * `new URL(...)` throws on input it cannot parse.
 */
module Urls {
  import opened Wrappers
  import opened SearchParams

  /** The components of a parsed URL; `host` includes any port. */
  datatype UrlParts = UrlParts(protocol: string, host: string, pathname: string, query: seq<Param>, hash: string)

  /** The URL parser, as a function from text to components. */
  type Parser = string -> Option<UrlParts>

  /** `name=value` pairs joined by `&`, without percent-encoding. */
  function QueryString(q: seq<Param>): string {
    if q == [] then ""
    else if |q| == 1 then q[0].name + "=" + q[0].value
    else q[0].name + "=" + q[0].value + "&" + QueryString(q[1..])
  }

  /**
   * The `href` of a URL: an empty query list leaves no "?", as the URL's
   * query becomes null when its `searchParams` are emptied.
   */
  function Serialize(u: UrlParts): string {
    u.protocol + "//" + u.host + u.pathname + (if u.query == [] then "" else "?" + QueryString(u.query)) + u.hash
  }

  /** A `URL` object: the components are fixed, `searchParams` is updated in place. */
  class Url {
    const protocol: string
    const host: string
    const pathname: string
    const hash: string
    var query: seq<Param>

    constructor(parts: UrlParts)
      ensures Parts() == parts
    {
      protocol, host, pathname, hash := parts.protocol, parts.host, parts.pathname, parts.hash;
      query := parts.query;
    }

    function Parts(): UrlParts
      reads this
    {
      UrlParts(protocol, host, pathname, query, hash)
    }

    /** `toString()` */
    function Href(): string
      reads this
    {
      Serialize(Parts())
    }

    /** `searchParams.set(name, value)` */
    method SetSearchParam(name: string, value: string)
      modifies this
      ensures query == SetParam(old(query), name, value)
      ensures GetAll(query, name) == [value]
    {
      query := SetParam(query, name, value);
      SetParamGetAll(old(query), name, value);
    }

    /** `searchParams.delete(name)` */
    method DeleteSearchParam(name: string)
      modifies this
      ensures query == DeleteParam(old(query), name)
      ensures GetAll(query, name) == []
    {
      query := DeleteParam(query, name);
      WithoutSpec(old(query), {name});
    }
  }
}
