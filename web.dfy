/** The boundary of the two API routes: the request they read, the URL
    resolution they delegate to the platform, and the reply of the upstream
    webscraper service they call. */
module Web {
  import opened Collections

  /** The parts of a WHATWG URL object the routes read. */
  datatype Url = Url(href: string, protocol: string, hostname: string, pathname: string)

  /** `new URL(href, base)`: `None` where the constructor throws. */
  type Resolver = (string, string) -> Option<Url>

  /** `new URL(s)`: the parsed URL, or the message of the error it throws. */
  datatype UrlParse = Parsed(url: Url) | Invalid(message: string)

  /** An incoming API request: its HTTP method and the body's `url` field
      (`""` when the field is absent or empty, both falsy). */
  datatype Request = Request(httpMethod: string, url: string)

  const MethodNotAllowed := "Method not allowed"
  const MissingUrl := "Missing URL parameter"

  /** A request turned away before the upstream call: the status and the
      body's `message`. */
  datatype Refusal = Refusal(status: int, message: string)

  /** The checks both routes make before the upstream call, in order; `None`
      lets the request through. `apiKey` is the configured key, `""` when
      unset, and `missingKey` the route's message for that case. */
  function Gate(req: Request, apiKey: string, missingKey: string): (r: Option<Refusal>)
    ensures r.None? <==> req.httpMethod == "POST" && req.url != [] && apiKey != []
    ensures req.httpMethod != "POST" ==> r == Some(Refusal(405, MethodNotAllowed))
    ensures req.httpMethod == "POST" && req.url == [] ==> r == Some(Refusal(400, MissingUrl))
    ensures req.httpMethod == "POST" && req.url != [] && apiKey == [] ==> r == Some(Refusal(500, missingKey))
  {
    if req.httpMethod != "POST" then Some(Refusal(405, MethodNotAllowed))
    else if req.url == [] then Some(Refusal(400, MissingUrl))
    else if apiKey == [] then Some(Refusal(500, missingKey))
    else None
  }

  /** The upstream webscraper call as the handler sees it: a non-2xx status
      with the body's `error` text (`""` when absent); a 2xx whose `data` is
      the page (`None` when the HTML is empty or absent); or an exception
      (the request failed or the body was not JSON) with its message, which
      lands in the handler's `catch`. */
  datatype Upstream<P> = Failed(status: int, error: string) | Delivered(content: Option<P>) | Threw(message: string)

  /** `getAbsoluteUrl(href, base)` behind the callers' truthiness tests: the
      resolved `href`, or `None` when `href` is empty, does not resolve, or
      resolves to an empty `href`. */
  function AbsoluteHref(href: string, base: string, resolve: Resolver): (r: Option<string>)
    ensures r.Some? <==> href != [] && resolve(href, base).Some? && resolve(href, base).value.href != []
    ensures r.Some? ==> r.value == resolve(href, base).value.href
  {
    if href == [] then None
    else
      match resolve(href, base)
      case None => None
      case Some(u) => if u.href == [] then None else Some(u.href)
  }

  /** `AbsoluteHref` applied to each of `hrefs`, in order. */
  function Absolutes(hrefs: seq<string>, base: string, resolve: Resolver): (r: seq<Option<string>>)
    ensures |r| == |hrefs|
    ensures forall i :: 0 <= i < |hrefs| ==> r[i] == AbsoluteHref(hrefs[i], base, resolve)
    decreases |hrefs|
  {
    if hrefs == [] then []
    else Absolutes(hrefs[..|hrefs| - 1], base, resolve) + [AbsoluteHref(hrefs[|hrefs| - 1], base, resolve)]
  }

  lemma AbsolutesSnoc(hrefs: seq<string>, h: string, base: string, resolve: Resolver)
    ensures Absolutes(hrefs + [h], base, resolve) == Absolutes(hrefs, base, resolve) + [AbsoluteHref(h, base, resolve)]
  {
    assert (hrefs + [h])[..|hrefs|] == hrefs;
  }

  lemma AbsolutesAppend(xs: seq<string>, ys: seq<string>, base: string, resolve: Resolver)
    ensures Absolutes(xs + ys, base, resolve) == Absolutes(xs, base, resolve) + Absolutes(ys, base, resolve)
  {
  }
}
