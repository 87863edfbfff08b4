/**
 * The URL endpoint of the backend (Backend/handlers/url_handler.go): a
 * request names a URL and an operation; the URL is parsed, cleaned in place
 * by `cleanCanonical`, `cleanRedirection` or both, and sent back as text.
 *
 * Parsing is a parameter (`url.Parse` is not part of this model), and the
 * URL is reduced to the five components the handler reads or writes.
 */
module UrlHandler {
  import opened Wrappers
  import opened JsText

  /** The components of a parsed URL that the handler touches. */
  datatype UrlParts = UrlParts(scheme: string, host: string, path: string, rawQuery: string, fragment: string)

  /** `strings.TrimSuffix`: `s` without `suffix` when it ends with it, else `s` itself. */
  function TrimSuffix(s: string, suffix: string): (r: string)
    ensures r == s || r + suffix == s
    ensures r != s <==> suffix != "" && |suffix| <= |s| && s[|s| - |suffix|..] == suffix
  {
    if |suffix| <= |s| && s[|s| - |suffix|..] == suffix then s[..|s| - |suffix|] else s
  }

  /** The components after `cleanCanonical`. */
  function Canonical(u: UrlParts): UrlParts {
    u.(rawQuery := "", fragment := "", path := TrimSuffix(u.path, "/"))
  }

  /** The host every redirected URL gets. */
  const RedirectHost := "www.byfood.com"

  /** The components after `cleanRedirection`. */
  function Redirected(u: UrlParts): UrlParts {
    u.(host := RedirectHost, scheme := "https", path := ToLower(u.path))
  }

  /** `path` ends with `suffix`. */
  predicate EndsWith(path: string, suffix: string) {
    |suffix| <= |path| && path[|path| - |suffix|..] == suffix
  }

  /**
   * `cleanCanonical` drops the query and fragment and at most one trailing
   * slash: the path shrinks by one exactly when it ended in `/`.
   */
  lemma CanonicalDropsOneSlash(u: UrlParts)
    ensures var c := Canonical(u);
      c.rawQuery == "" && c.fragment == "" && c.scheme == u.scheme && c.host == u.host &&
      (EndsWith(u.path, "/") ==> c.path + "/" == u.path) &&
      (!EndsWith(u.path, "/") ==> c.path == u.path)
  {
  }

  /** Cleaning twice is cleaning once, except on a path ending in `//`, whose second slash goes on the second pass. */
  lemma CanonicalIdempotentIffNoDoubleSlash(u: UrlParts)
    ensures Canonical(Canonical(u)) == Canonical(u) <==> !EndsWith(u.path, "//")
  {
    var p := u.path;
    if EndsWith(p, "//") {
      assert p[|p| - 1] == '/' && p[|p| - 2] == '/';
      var once := Canonical(u).path;
      assert once == p[..|p| - 1];
      assert once[|once| - 1..] == "/";
      assert |Canonical(Canonical(u)).path| < |once|;
    } else if EndsWith(p, "/") {
      var once := Canonical(u).path;
      assert once == p[..|p| - 1];
    }
  }

  /** A concrete case: `/a//` loses one slash per pass. */
  lemma CanonicalNotIdempotent()
    ensures var u := UrlParts("https", "byfood.com", "/a//", "", "");
      Canonical(u).path == "/a/" && Canonical(Canonical(u)).path == "/a"
  {
    var u := UrlParts("https", "byfood.com", "/a//", "", "");
    assert u.path[3..] == "/";
    assert Canonical(u).path == "/a/";
    assert "/a/"[2..] == "/";
  }

  /** `cleanRedirection` is idempotent. */
  lemma RedirectedIdempotent(u: UrlParts)
    ensures Redirected(Redirected(u)) == Redirected(u)
  {
    ToLowerIdempotent(u.path);
  }

  /** Lower-casing and trimming one trailing slash commute. */
  lemma {:induction false} LowerTrimCommute(path: string)
    ensures ToLower(TrimSuffix(path, "/")) == TrimSuffix(ToLower(path), "/")
  {
    var lowered := ToLower(path);
    if EndsWith(path, "/") {
      assert lowered[|lowered| - 1] == '/';
      assert lowered[|lowered| - 1..] == "/";
      assert ToLower(path[..|path| - 1]) == lowered[..|lowered| - 1];
    } else if path != [] {
      assert path[|path| - 1..] != "/";
      assert path[|path| - 1] != '/';
      assert lowered[|lowered| - 1] != '/';
      assert lowered[|lowered| - 1..] != "/";
    }
  }

  /**
   * Operation `all` runs `cleanCanonical` then `cleanRedirection`: no query or
   * fragment, the fixed scheme and host, and the lower-cased path with one
   * trailing slash removed. The two cleaners commute.
   */
  lemma AllResult(u: UrlParts)
    ensures var r := Redirected(Canonical(u));
      r.rawQuery == "" && r.fragment == "" && r.scheme == "https" && r.host == RedirectHost &&
      r.path == TrimSuffix(ToLower(u.path), "/")
    ensures Redirected(Canonical(u)) == Canonical(Redirected(u))
  {
    LowerTrimCommute(u.path);
  }

  /**
   * `URL.String()` for these components: `scheme:`, then `//host` when there
   * is a scheme or host, the path, `?query` and `#fragment` when non-empty.
   */
  function Serialize(u: UrlParts): string {
    (if u.scheme != "" then u.scheme + ":" else "") +
    (if (u.scheme != "" || u.host != "") && (u.host != "" || u.path != "") then "//" + u.host else "") +
    (if u.path != "" && u.path[0] != '/' && u.host != "" then "/" else "") + u.path +
    (if u.rawQuery != "" then "?" + u.rawQuery else "") +
    (if u.fragment != "" then "#" + u.fragment else "")
  }

  /** The parsed URL, edited in place by the cleaners. */
  class Url {
    var scheme: string
    var host: string
    var path: string
    var rawQuery: string
    var fragment: string

    function Parts(): UrlParts
      reads this
    {
      UrlParts(scheme, host, path, rawQuery, fragment)
    }

    constructor(parts: UrlParts)
      ensures Parts() == parts
    {
      scheme := parts.scheme;
      host := parts.host;
      path := parts.path;
      rawQuery := parts.rawQuery;
      fragment := parts.fragment;
    }

    /** `cleanCanonical`. */
    method CleanCanonical()
      modifies this
      ensures Parts() == Canonical(old(Parts()))
    {
      rawQuery := "";
      fragment := "";
      path := TrimSuffix(path, "/");
    }

    /** `cleanRedirection`. */
    method CleanRedirection()
      modifies this
      ensures Parts() == Redirected(old(Parts()))
    {
      host := RedirectHost;
      scheme := "https";
      path := ToLower(path);
    }
  }

  /* ---------------------------------------------------------------- the endpoint */

  /** The JSON body: each field absent (or null) or a string. */
  datatype UrlRequest = UrlRequest(url: Option<string>, operation: Option<string>)

  /** The operations the binding tags accept. */
  const Operations: set<string> := {"canonical", "redirection", "all"}

  /** `binding:"required"` on both fields (an empty string counts as missing) and `oneof` on the operation. */
  predicate Binds(req: UrlRequest) {
    req.url.Some? && req.url.value != "" &&
    req.operation.Some? && req.operation.value != "" && req.operation.value in Operations
  }

  /** The `switch` on the operation: the cleaned components, or none for an unknown name. */
  function Apply(operation: string, u: UrlParts): (r: Option<UrlParts>)
    ensures r.Some? <==> operation in Operations
  {
    if operation == "canonical" then Some(Canonical(u))
    else if operation == "redirection" then Some(Redirected(u))
    else if operation == "all" then Some(Redirected(Canonical(u)))
    else None
  }

  datatype Body = Processed(processedUrl: string) | Failed(error: string)

  datatype Response = Response(status: int, body: Body)

  /**
   * `ProcessURL`: 400 with "Invalid input" when the body does not bind, 400
   * with "Malformed URL" when the URL does not parse, otherwise 200 with the
   * cleaned URL.
   */
  method ProcessURL(req: UrlRequest, parse: string -> Option<UrlParts>) returns (response: Response)
    ensures !Binds(req) ==> response == Response(400, Failed("Invalid input"))
    ensures Binds(req) && parse(req.url.value).None? ==> response == Response(400, Failed("Malformed URL"))
    ensures response.status == 200 <==> Binds(req) && parse(req.url.value).Some?
    ensures response.status == 200 ==>
      response.body == Processed(Serialize(Apply(req.operation.value, parse(req.url.value).value).value))
  {
    if !Binds(req) {
      return Response(400, Failed("Invalid input"));
    }
    var parsed := parse(req.url.value);
    if parsed.None? {
      return Response(400, Failed("Malformed URL"));
    }
    var u := new Url(parsed.value);
    var operation := req.operation.value;
    if operation == "canonical" {
      u.CleanCanonical();
    } else if operation == "redirection" {
      u.CleanRedirection();
    } else if operation == "all" {
      u.CleanCanonical();
      u.CleanRedirection();
    } else {
      return Response(400, Failed("Invalid operation"));
    }
    response := Response(200, Processed(Serialize(u.Parts())));
  }

  /** A request whose operation is outside the three names is refused, whatever the URL. */
  lemma UnknownOperationRefused(url: string, operation: string)
    requires operation !in Operations
    ensures !Binds(UrlRequest(Some(url), Some(operation)))
    ensures !Binds(UrlRequest(None, Some(operation))) && !Binds(UrlRequest(Some(url), None))
  {
  }
}
