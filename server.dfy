/**
 * The lexer's web server, without its sockets: parsing a received request
 * (method and request target from the request line, section 3 of RFC 9112;
 * the content after the empty line that ends the header section, section
 * 2.1), a route table of two entries, and first-match route resolution with a
 * 404 fallback.
 *
 * The request buffer is modelled as the full `string` the bytes were read
 * into, NUL padding included.
 */
module Server {
  import opened Text
  import opened ResponseCreator

  const ROUTES_MAX_SIZE: nat := 2

  /** `enum http_method`. */
  datatype HttpMethod = HttpGet | HttpPost | HttpOther

  /** A route callback is a function pointer; here it is an opaque identifier. */
  type CallbackId = nat

  datatype Route = Route(path: CString, httpMethod: HttpMethod, callback: CallbackId)

  datatype Request = Request(httpMethod: HttpMethod, path: CString, content: CString)

  /** The method a request-line token names: only GET and POST are told apart. */
  function MethodOf(name: string): (m: HttpMethod)
    ensures m == HttpGet <==> name == "GET"
    ensures m == HttpPost <==> name == "POST"
    ensures m == HttpOther <==> name != "GET" && name != "POST"
  {
    if name == "GET" then HttpGet else if name == "POST" then HttpPost else HttpOther
  }

  /** There is a space at or after position `from`. */
  predicate SpaceFrom(s: string, from: nat)
  {
    exists i :: from <= i < |s| && s[i] == ' '
  }

  /** The position of the first space at or after `from`. */
  function FirstSpace(s: string, from: nat): (i: nat)
    requires SpaceFrom(s, from)
    ensures from <= i < |s| && s[i] == ' '
    ensures forall j :: from <= j < i ==> s[j] != ' '
    decreases |s| - from
  {
    if s[from] == ' ' then from else FirstSpace(s, from + 1)
  }

  /**
   * `SV_getRequestHttpMethod`: count the bytes before the first space,
   * classify them, and leave `requestPtr` just after that space.
   */
  method GetRequestHttpMethod(request: string) returns (httpMethod: HttpMethod, requestPtr: nat)
    requires SpaceFrom(request, 0)
    ensures requestPtr == FirstSpace(request, 0) + 1
    ensures httpMethod == MethodOf(CStr(request[..requestPtr - 1]))
  {
    var methodLen := 0;
    while request[methodLen] != ' '
      invariant SpaceFrom(request, methodLen)
      invariant forall j :: 0 <= j < methodLen ==> request[j] != ' '
      decreases |request| - methodLen
    {
      methodLen := methodLen + 1;
    }
    var strMethod := CStr(request[..methodLen]);
    httpMethod := MethodOf(strMethod);
    requestPtr := methodLen + 1;
  }

  /**
   * `SV_getRequestPath`: the bytes from `requestPtr` up to the next space,
   * as a C string; `requestPtr` itself is only read.
   */
  method GetRequestPath(request: string, requestPtr: nat) returns (path: CString)
    requires SpaceFrom(request, requestPtr)
    ensures path == CStr(request[requestPtr..FirstSpace(request, requestPtr)])
  {
    var routeLen := 0;
    while request[requestPtr + routeLen] != ' '
      invariant SpaceFrom(request, requestPtr + routeLen)
      invariant forall j :: requestPtr <= j < requestPtr + routeLen ==> request[j] != ' '
      decreases |request| - routeLen
    {
      routeLen := routeLen + 1;
    }
    path := CStr(request[requestPtr..requestPtr + routeLen]);
  }

  /**
   * `SV_getRequestContent`: what follows the first CRLF CRLF of the request
   * (seen as a C string, since `strstr` and `strcpy` stop at a NUL).
   */
  function RequestContent(request: string): (content: CString)
    requires Find(CStr(request), BLANK_LINE).Some?
    ensures var c := CStr(request);
            var start := |c| - |content|;
            && start >= 4
            && OccursAt(c, BLANK_LINE, start - 4)
            && (forall j :: 0 <= j < start - 4 ==> !OccursAt(c, BLANK_LINE, j))
            && c[start..] == content
  {
    var c := CStr(request);
    var i := Find(c, BLANK_LINE).value;
    c[i + 4..]
  }

  /**
   * The server reads a request's content by the same rule that frames its
   * responses: applied to a rendered response, it yields exactly the
   * appended content and the final CRLF.
   */
  lemma ContentOfRenderedResponse(r: Response)
    ensures Find(CStr(Render(r)), BLANK_LINE).Some?
    ensures RequestContent(Render(r)) == Concat(r.chunks) + CRLF
  {
    RenderIsCString(r);
    CStrOfNulFree(Render(r));
    RenderedContent(r);
  }

  /**
   * `SV_parseRequest` after the `read`: method, path and content of the
   * received bytes.
   */
  method ParseRequest(buff: string) returns (request: Request)
    requires SpaceFrom(buff, 0) && SpaceFrom(buff, FirstSpace(buff, 0) + 1)
    requires Find(CStr(buff), BLANK_LINE).Some?
    ensures request.httpMethod == MethodOf(CStr(buff[..FirstSpace(buff, 0)]))
    ensures request.path == CStr(buff[FirstSpace(buff, 0) + 1..FirstSpace(buff, FirstSpace(buff, 0) + 1)])
    ensures request.content == RequestContent(buff)
  {
    var httpMethod, requestPtr := GetRequestHttpMethod(buff);
    var path := GetRequestPath(buff, requestPtr);
    var content := RequestContent(buff);
    request := Request(httpMethod, path, content);
  }

  /**
   * A token without space, followed by a space, starting at `from`: the next
   * space ends it.
   */
  lemma TokenAt(buff: string, from: nat, token: string)
    requires from + |token| < |buff| && buff[from + |token|] == ' '
    requires buff[from..from + |token|] == token && ' ' !in token
    ensures SpaceFrom(buff, from)
    ensures FirstSpace(buff, from) == from + |token|
  {
    forall j | from <= j < from + |token| ensures buff[j] != ' ' {
      assert buff[j] == buff[from..from + |token|][j - from];
    }
  }

  /** Where the method and path of a request starting with `<m> <path> ` lie. */
  lemma RequestLineFields(buff: string, m: string, path: string)
    requires m + " " + path + " " <= buff
    ensures |m| + 1 + |path| < |buff|
    ensures buff[..|m|] == m && buff[|m|] == ' '
    ensures buff[|m| + 1..|m| + 1 + |path|] == path && buff[|m| + 1 + |path|] == ' '
  {
    var line := m + " " + path + " ";
    assert buff[..|line|] == line;
    assert buff[..|m|] == line[..|m|];
    assert buff[|m| + 1..|m| + 1 + |path|] == line[|m| + 1..|m| + 1 + |path|];
    assert buff[|m|] == line[|m|];
    assert buff[|m| + 1 + |path|] == line[|m| + 1 + |path|];
  }

  /**
   * A request whose request line starts with a method and a path that hold
   * no space and no NUL: `ParseRequest` applies to it and gives back the
   * method that token names, and the path.
   */
  lemma RequestLineRoundTrip(buff: string, m: string, path: CString)
    requires ' ' !in m && '\0' !in m && ' ' !in path
    requires m + " " + path + " " <= buff
    ensures SpaceFrom(buff, 0) && FirstSpace(buff, 0) == |m|
    ensures SpaceFrom(buff, |m| + 1) && FirstSpace(buff, |m| + 1) == |m| + 1 + |path|
    ensures MethodOf(CStr(buff[..FirstSpace(buff, 0)])) == MethodOf(m)
    ensures CStr(buff[FirstSpace(buff, 0) + 1..FirstSpace(buff, FirstSpace(buff, 0) + 1)]) == path
  {
    RequestLineFields(buff, m, path);
    assert buff[0..|m|] == buff[..|m|];
    TokenAt(buff, 0, m);
    TokenAt(buff, |m| + 1, path);
    CStrOfNulFree(m);
    CStrOfNulFree(path);
  }

  /**
   * For a request made of non-empty header lines, an empty line and a body
   * without NUL, the content read back is exactly the body.
   */
  lemma RequestBodyParsed(lines: seq<string>, body: string)
    requires |lines| > 0 && forall i :: 0 <= i < |lines| ==> IsLine(lines[i])
    requires '\0' !in body
    ensures Find(CStr(Lines(lines) + CRLF + body), BLANK_LINE).Some?
    ensures RequestContent(Lines(lines) + CRLF + body) == body
  {
    var buff := Lines(lines) + CRLF + body;
    LinesAreNulFree(lines);
    CStrOfNulFree(buff);
    LinesEndAtFirstBlankLine(lines, body);
  }

  /** The index of the first route whose method and path both equal the request's. */
  function Resolve(routes: seq<Route>, request: Request): (r: Option<nat>)
    ensures r.Some? ==>
      (r.value < |routes| && routes[r.value].httpMethod == request.httpMethod && routes[r.value].path == request.path)
    ensures r.Some? ==> forall j :: 0 <= j < r.value ==>
      !(routes[j].httpMethod == request.httpMethod && routes[j].path == request.path)
    ensures r.None? ==> forall j :: 0 <= j < |routes| ==>
      !(routes[j].httpMethod == request.httpMethod && routes[j].path == request.path)
  {
    if |routes| == 0 then None
    else
      var r := Resolve(routes[..|routes| - 1], request);
      var last := routes[|routes| - 1];
      if r.Some? then r
      else if last.httpMethod == request.httpMethod && last.path == request.path then Some(|routes| - 1)
      else None
  }

  /** The creator contents behind the 404 answer: JSON, no content. */
  const NOT_FOUND: Response := Response(404, TypeJson, [])

  /**
   * The response text the server sends for `request`: the rendering of what
   * the matching route's callback produced, or the 404 response.
   */
  function Answer(routes: seq<Route>, request: Request, handler: (CallbackId, Request) -> Response): string
  {
    match Resolve(routes, request)
    case Some(i) => Render(handler(routes[i].callback, request))
    case None => Render(NOT_FOUND)
  }

  /** A request no route matches is answered with status 404. */
  lemma UnmatchedIsNotFound(routes: seq<Route>, request: Request, handler: (CallbackId, Request) -> Response)
    requires forall j :: 0 <= j < |routes| ==>
      !(routes[j].httpMethod == request.httpMethod && routes[j].path == request.path)
    ensures StatusCodeOf(Answer(routes, request, handler)) == Some(404)
  {
    StatusCodeRoundTrip(NOT_FOUND);
  }

  /** Of two routes for the same method and path, the one registered first answers. */
  lemma EarlierRouteWins(routes: seq<Route>, request: Request, i: nat, handler: (CallbackId, Request) -> Response)
    requires i < |routes|
    requires routes[i].httpMethod == request.httpMethod && routes[i].path == request.path
    requires forall j :: 0 <= j < i ==>
      !(routes[j].httpMethod == request.httpMethod && routes[j].path == request.path)
    ensures Answer(routes, request, handler) == Render(handler(routes[i].callback, request))
  {
    var r := Resolve(routes, request);
    assert r.Some?;
    assert r.value == i;
  }

  class Server {
    const routes: array<Route>
    var routesPtr: nat
    var port: uint16

    ghost predicate Valid()
      reads this
    {
      routes.Length == ROUTES_MAX_SIZE && routesPtr <= ROUTES_MAX_SIZE
    }

    /** The registered routes, in registration order. */
    ghost function Routes(): seq<Route>
      reads this, routes
      requires Valid()
    {
      routes[..routesPtr]
    }

    /** `server_init`: no routes yet. */
    constructor (port: uint16)
      ensures Valid() && fresh(routes)
      ensures this.port == port && Routes() == []
    {
      routes := new Route[ROUTES_MAX_SIZE];
      routesPtr := 0;
      this.port := port;
    }

    /**
     * `server_addRoute`: store the route in the next free slot. With both
     * slots taken it fails (the server then exits) and stores nothing.
     */
    method AddRoute(path: CString, httpMethod: HttpMethod, callback: CallbackId) returns (ok: bool)
      requires Valid()
      modifies this, routes
      ensures Valid() && port == old(port)
      ensures ok <==> old(routesPtr) < ROUTES_MAX_SIZE
      ensures ok ==> Routes() == old(Routes()) + [Route(path, httpMethod, callback)]
      ensures !ok ==> Routes() == old(Routes())
    {
      if routesPtr == ROUTES_MAX_SIZE {
        return false;
      }
      routes[routesPtr] := Route(path, httpMethod, callback);
      routesPtr := routesPtr + 1;
      ok := true;
    }

    /**
     * `SV_solveRouteAndGetResponse`: scan the routes in registration order
     * and render the response of the first one matching both method and
     * path; without a match, render a fresh 404 JSON creator.
     */
    method SolveRouteAndGetResponse(request: Request, handler: (CallbackId, Request) -> Response)
      returns (response: string)
      requires Valid()
      ensures response == Answer(Routes(), request, handler)
    {
      for i := 0 to routesPtr
        invariant forall j :: 0 <= j < i ==>
          !(routes[j].httpMethod == request.httpMethod && routes[j].path == request.path)
      {
        var currentRoute := routes[i];
        if currentRoute.httpMethod == request.httpMethod && currentRoute.path == request.path {
          EarlierRouteWins(Routes(), request, i, handler);
          return Render(handler(currentRoute.callback, request));
        }
      }
      var rc := new Creator(TypeJson, 404);
      response := rc.GetResponse();
      assert Resolve(Routes(), request).None?;
    }
  }
}
