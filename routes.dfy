/** The middleware and routes the server registers: Basic authentication
    against one fixed credential pair, then a fixed table from method and path
    to a handler, with the not-found handler as the fallback. */
module Routes {
  import opened Catalog
  import opened Metrics
  import opened BatchImport
  import opened Handlers

  /** The one credential pair the server accepts. */
  const Username: string := "kamol"
  const Password: string := "hasan"

  datatype Credentials = Credentials(user: string, password: string)

  /** The Basic scheme (RFC 7617, section 2) as a decision: the request carries
      a user-id and password and they are the configured pair. */
  predicate Authorized(c: Option<Credentials>)
  {
    c == Some(Credentials(Username, Password))
  }

  /** A registered path: a literal, or a literal prefix followed by one
      `:id` segment. */
  datatype Pattern = Exact(path: string) | WithId(prefix: string)

  datatype Endpoint =
    | ListBooks      // GetBooks
    | ShowBook       // GetBook
    | ImportBooks    // PostBook, body bound as a BookList
    | ReplaceBook    // UpdateBook, body bound as a Book
    | Exposition     // the metrics exposition handler
    | Favicon        // registered with no handler

  datatype Route = Route(verb: string, pattern: Pattern, endpoint: Endpoint)

  /** The routes in registration order. */
  const Table: seq<Route> := [
    Route("GET", Exact("/books"), ListBooks),
    Route("GET", WithId("/books/"), ShowBook),
    Route("POST", Exact("/books"), ImportBooks),
    Route("POST", WithId("/books/"), ReplaceBook),
    Route("GET", Exact("/metrics"), Exposition),
    Route("GET", Exact("/favicon.ico"), Favicon)
  ]

  /** What a `:id` can bind to: one non-empty path segment. */
  predicate IsSegment(s: string)
  {
    s != [] && '/' !in s
  }

  /** The parameter a pattern captures from `path`, if it matches; a literal
      captures the empty string. */
  function Match(p: Pattern, path: string): (m: Option<string>)
    ensures p.Exact? ==> (m.Some? <==> path == p.path)
    ensures p.WithId? && m.Some? ==> IsSegment(m.value) && path == p.prefix + m.value
  {
    match p
    case Exact(q) => if path == q then Some("") else None
    case WithId(prefix) =>
      if |prefix| < |path| && path[..|prefix|] == prefix && IsSegment(path[|prefix|..])
      then Some(path[|prefix|..])
      else None
  }

  /** A route that applies to `verb` and `path`. */
  predicate Applies(r: Route, verb: string, path: string)
  {
    r.verb == verb && Match(r.pattern, path).Some?
  }

  datatype Target = Found(endpoint: Endpoint, id: string) | Unmatched

  /** The first route of `table` that applies, with what it captured. */
  function RouteIn(table: seq<Route>, verb: string, path: string): (t: Target)
    ensures t == Unmatched <==> forall i | 0 <= i < |table| :: !Applies(table[i], verb, path)
    ensures t.Found? ==> exists i | 0 <= i < |table| ::
              Applies(table[i], verb, path) && table[i].endpoint == t.endpoint
              && Match(table[i].pattern, path) == Some(t.id)
  {
    if table == [] then Unmatched
    else if Applies(table[0], verb, path) then Found(table[0].endpoint, Match(table[0].pattern, path).value)
    else
      var t := RouteIn(table[1..], verb, path);
      assert forall i | 1 <= i < |table| :: table[i] == table[1..][i - 1];
      t
  }

  /** The first route that applies is the one taken. */
  lemma {:induction false} FirstApplicableRoute(table: seq<Route>, verb: string, path: string, k: nat)
    requires k < |table| && Applies(table[k], verb, path)
    requires forall i | 0 <= i < k :: !Applies(table[i], verb, path)
    ensures RouteIn(table, verb, path) == Found(table[k].endpoint, Match(table[k].pattern, path).value)
  {
    if k > 0 {
      assert !Applies(table[0], verb, path);
      FirstApplicableRoute(table[1..], verb, path, k - 1);
    }
  }

  /** The router: the registered route for this method and path, if any.
      Only GET and POST are registered; an id route hands on one path segment
      after `/books/`, and a literal route hands on nothing. */
  function Dispatch(verb: string, path: string): (t: Target)
    ensures t.Found? ==> verb == "GET" || verb == "POST"
    ensures t.Found? && (t.endpoint == ShowBook || t.endpoint == ReplaceBook) ==>
              IsSegment(t.id) && path == "/books/" + t.id
    ensures t.Found? && t.endpoint != ShowBook && t.endpoint != ReplaceBook ==> t.id == ""
  {
    RouteIn(Table, verb, path)
  }

  /** None of the literal paths of the table has the shape `/books/<id>`. */
  lemma LiteralsAreNotIdPaths(path: string)
    requires path == "/books" || path == "/metrics" || path == "/favicon.ico"
    ensures Match(WithId("/books/"), path) == None
  {
    if |path| > 7 {
      assert path[..7][1] == path[1] != 'b' == "/books/"[1];
    }
  }

  /** No two routes apply to the same request, so the registration order
      does not matter and every request has at most one route. */
  lemma TableUnambiguous(verb: string, path: string, i: nat, j: nat)
    requires i < j < |Table|
    ensures !(Applies(Table[i], verb, path) && Applies(Table[j], verb, path))
  {
    if Applies(Table[i], verb, path) && Applies(Table[j], verb, path) {
      var pi, pj := Table[i].pattern, Table[j].pattern;
      if pi.WithId? && pj.Exact? {
        LiteralsAreNotIdPaths(pj.path);
      }
    }
  }

  /** GET /books reaches GetBooks. */
  lemma DispatchListing()
    ensures Dispatch("GET", "/books") == Found(ListBooks, "")
  {
  }

  /** GET /books/<id> reaches GetBook with the segment as its id. */
  lemma DispatchShow(id: string)
    requires IsSegment(id)
    ensures Dispatch("GET", "/books/" + id) == Found(ShowBook, id)
  {
    var path := "/books/" + id;
    assert path[..7] == "/books/" && path[7..] == id;
    FirstApplicableRoute(Table, "GET", path, 1);
  }

  /** POST /books reaches PostBook. */
  lemma DispatchImport()
    ensures Dispatch("POST", "/books") == Found(ImportBooks, "")
  {
  }

  /** POST /books/<id> reaches UpdateBook with the segment as its id. */
  lemma DispatchReplace(id: string)
    requires IsSegment(id)
    ensures Dispatch("POST", "/books/" + id) == Found(ReplaceBook, id)
  {
    var path := "/books/" + id;
    assert path[..7] == "/books/" && path[7..] == id;
    FirstApplicableRoute(Table, "POST", path, 3);
  }

  /** GET /metrics is a route of its own, never the fallback. */
  lemma DispatchMetrics()
    ensures Dispatch("GET", "/metrics") == Found(Exposition, "")
  {
    var path := "/metrics";
    LiteralsAreNotIdPaths(path);
    assert path != "/books" by { assert path[1] != "/books"[1]; }
    FirstApplicableRoute(Table, "GET", path, 4);
  }

  /** GET /favicon.ico is a route of its own, never the fallback. */
  lemma DispatchFavicon()
    ensures Dispatch("GET", "/favicon.ico") == Found(Favicon, "")
  {
    var path := "/favicon.ico";
    LiteralsAreNotIdPaths(path);
    assert path != "/books" && path != "/metrics" by { assert path[1] != "/books"[1] && path[1] != "/metrics"[1]; }
    FirstApplicableRoute(Table, "GET", path, 5);
  }

  /** A request body, in the shape it decodes to. */
  datatype Payload = NoPayload | Malformed | ListPayload(list: BookList) | BookPayload(book: Book)

  /** What the JSON binder hands PostBook: the decoded list, or the zero
      `BookList` when the body is empty, malformed or of the other shape. The
      binder reports no error of its own, so the handler always runs. */
  function BoundList(p: Payload): (l: BookList)
    ensures !p.ListPayload? ==> l.items == []
  {
    if p.ListPayload? then p.list else BookList([])
  }

  /** What the JSON binder hands UpdateBook: the decoded book, or the zero
      `Book` otherwise. */
  function BoundBook(p: Payload): (b: Book)
    ensures !p.BookPayload? ==> b == Book("", "", "")
  {
    if p.BookPayload? then p.book else Book("", "", "")
  }

  /** What a request carries that the core looks at. `uri` is the raw request
      URI, which labels the not-found counter. */
  datatype Request = Request(verb: string, path: string, uri: string,
                             authorization: Option<Credentials>, payload: Payload)

  /** A handler invocation with its arguments. */
  datatype Call =
    | CallGetBooks
    | CallGetBook(id: string)
    | CallPostBook(list: BookList)
    | CallUpdateBook(id: string, book: Book)
    | CallExposition
    | CallFavicon
    | CallNotFound(verb: string, uri: string)

  datatype Decision = Challenge | Run(call: Call)

  /** What happens to a request before any handler of the core runs. */
  function Decide(req: Request): (d: Decision)
    ensures d == Challenge <==> !Authorized(req.authorization)
    ensures d.Run? && d.call.CallNotFound? <==>
              Authorized(req.authorization) && Dispatch(req.verb, req.path) == Unmatched
    ensures d.Run? && d.call.CallNotFound? ==> d.call == CallNotFound(req.verb, req.uri)
    ensures d.Run? && d.call.CallPostBook? ==> d.call.list == BoundList(req.payload)
    ensures d.Run? && d.call.CallUpdateBook? ==> d.call.book == BoundBook(req.payload)
  {
    if !Authorized(req.authorization) then Challenge
    else
      match Dispatch(req.verb, req.path)
      case Unmatched => Run(CallNotFound(req.verb, req.uri))
      case Found(ListBooks, _) => Run(CallGetBooks)
      case Found(ShowBook, id) => Run(CallGetBook(id))
      case Found(ImportBooks, _) => Run(CallPostBook(BoundList(req.payload)))
      case Found(ReplaceBook, id) => Run(CallUpdateBook(id, BoundBook(req.payload)))
      case Found(Exposition, _) => Run(CallExposition)
      case Found(Favicon, _) => Run(CallFavicon)
  }

  /** The `method` label a data handler puts on the request counter. */
  function MethodLabel(c: Call): string
  {
    match c
    case CallPostBook(_) => "POST"
    case CallUpdateBook(_, _) => "Update"
    case _ => "GET"
  }

  /** The four handlers that read or write the table. */
  predicate IsDataCall(c: Call)
  {
    c.CallGetBooks? || c.CallGetBook? || c.CallPostBook? || c.CallUpdateBook?
  }

  datatype Response =
    | Unauthorized            // 401 with a Basic challenge
    | Written(writes: seq<Reply>)
    | MetricsPage             // the exposition format, not modelled
    | NoContent               // a route with no handler

  /** Serves one request, start to finish. */
  method Serve(s: BookServer, req: Request, f: Faults) returns (resp: Response)
    requires s.Valid()
    modifies s.engine, s.counters
    ensures s.Valid()
    ensures !Authorized(req.authorization) ==> resp == Unauthorized
    ensures !(Decide(req).Run? && (IsDataCall(Decide(req).call) || Decide(req).call.CallNotFound?)) ==>
              unchanged(s.engine) && unchanged(s.counters)
    ensures Decide(req).Run? && Decide(req).call.CallNotFound? ==>
              && resp == Written([Reply(StatusBadRequest, NoBody)])
              && unchanged(s.engine)
              && s.counters.notFoundTotal == Bumped(old(s.counters.notFoundTotal), NotFoundLabel(req.verb, req.uri))
              && s.counters.requestTotal == old(s.counters.requestTotal)
    ensures Decide(req).Run? && IsDataCall(Decide(req).call) ==>
              && resp.Written? && resp.writes != []
              && s.counters.requestTotal == Bumped(old(s.counters.requestTotal),
                                                   RequestLabel(MethodLabel(Decide(req).call), StatusOf(s.policy, resp.writes)))
              && s.counters.notFoundTotal == old(s.counters.notFoundTotal)
    ensures Decide(req) == Run(CallGetBooks) || (Decide(req).Run? && Decide(req).call.CallGetBook?) ==>
              s.engine.rows == old(s.engine.rows)
    ensures Decide(req).Run? && Decide(req).call.CallGetBook? ==>
              resp == Written([Lookup(s.engine.rows, Decide(req).call.id, 0 in f.lookup)])
    ensures Decide(req).Run? && Decide(req).call.CallPostBook? ==>
              s.engine.rows == Import(old(s.engine.rows), Decide(req).call.list.items, f).rows
    ensures Decide(req).Run? && Decide(req).call.CallUpdateBook? ==>
              var c := Decide(req).call;
              s.engine.rows == if !f.update && c.id in old(s.engine.rows)
                               then old(s.engine.rows)[c.id := Book(c.id, c.book.name, c.book.author)]
                               else old(s.engine.rows)
  {
    var d := Decide(req);
    match d
    case Challenge =>
      resp := Unauthorized;
    case Run(call) =>
      match call
      case CallGetBooks =>
        var w := s.GetBooks(f);
        resp := Written(w);
      case CallGetBook(id) =>
        var w := s.GetBook(id, f);
        resp := Written(w);
      case CallPostBook(list) =>
        var w := s.PostBook(list, f);
        resp := Written(w);
      case CallUpdateBook(id, book) =>
        var w := s.UpdateBook(id, book, f);
        resp := Written(w);
      case CallExposition =>
        resp := MetricsPage;
      case CallFavicon =>
        resp := NoContent;
      case CallNotFound(verb, uri) =>
        var w := s.NotFoundFunc(verb, uri);
        resp := Written(w);
  }
}
