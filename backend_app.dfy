/** The application of the route-per-resource backend: `cors`, which ends
    every OPTIONS request, `express.json`, whose parse failure goes straight
    to the error handler, which router serves a path, whether the `protect`
    middleware stands in front of it, and the error-handling middleware. `protect` itself is not part of this model:
    its outcome on a request (the identity it admits, or none) is a
    parameter. */
module BackendApp {
  import opened Json
  import opened Text

  datatype Router = Users | Activities | Nutrition | Goals | Progress

  /** One `app.use(prefix, [protect,] router)`. */
  datatype Mount = Mount(prefix: string, gated: bool, router: Router)

  /** The mounts, in the order they are registered. */
  const Mounts: seq<Mount> := [
    Mount("/api/users", false, Users),
    Mount("/api/activities", true, Activities),
    Mount("/api/nutrition", true, Nutrition),
    Mount("/api/goals", true, Goals),
    Mount("/api/progress", true, Progress)
  ]

  /** Express's prefix match for `app.use`: the prefix, compared without
      regard to ASCII case, ends at the end of the path or at a '/'. */
  predicate Under(prefix: string, path: string) {
    && |prefix| <= |path|
    && Lower(path[..|prefix|]) == Lower(prefix)
    && (|path| == |prefix| || path[|prefix|] == '/')
  }

  /** The first mount whose prefix the path falls under. */
  function MountFor(path: string, mounts: seq<Mount>): (r: Option<Mount>)
    ensures r.Some? ==> r.value in mounts && Under(r.value.prefix, path)
    ensures r.None? ==> forall m | m in mounts :: !Under(m.prefix, path)
  {
    if mounts == [] then None
    else if Under(mounts[0].prefix, path) then Some(mounts[0])
    else MountFor(path, mounts[1..])
  }

  /** The error `express.json` raises on a body it cannot parse. */
  datatype BodyError = BodyError(message: string, stack: string)

  /** What the middleware looks at: whether the method is OPTIONS, the
      path, and the body's parse error if any. */
  datatype Request = Request(options: bool, path: string, broken: Option<BodyError>)

  /** What happens to a request before a handler answers it. */
  datatype Outcome =
    | Preflight                                   // `cors` answered 204 with no body
    | Errored(reply: ErrorReply)                  // the error handler answered
    | NoRoute                                     // no mount serves the path
    | Refused                                     // `protect` answered instead of the router
    | Handled(router: Router, identity: Option<nat>)  // the router runs, with `req.user`

  /** Route a request through the middleware in registration order.
      `admitted` is the identity `protect` would put on the request, or
      `None` when it would refuse it. A router mounted without `protect`
      runs with no identity at all. A body that does not parse reaches the
      error handler while the status is still 200. */
  function Dispatch(req: Request, admitted: Option<nat>, nodeEnv: Option<string>): (r: Outcome)
    ensures req.options ==> r == Preflight
    ensures !req.options && req.broken.Some? ==>
              r == Errored(HandleError(200, req.broken.value.message, req.broken.value.stack, nodeEnv))
    ensures r.Handled? || r.Refused? || r.NoRoute? ==> !req.options && req.broken.None?
    ensures r.Handled? ==> exists m | m in Mounts :: Under(m.prefix, req.path) && m.router == r.router
    ensures r.Handled? && r.router != Users ==> r.identity == admitted && admitted.Some?
    ensures r.Handled? && r.router == Users ==> r.identity.None?
    ensures r == NoRoute <==> !req.options && req.broken.None? && forall m | m in Mounts :: !Under(m.prefix, req.path)
  {
    if req.options then Preflight
    else if req.broken.Some? then
      Errored(HandleError(200, req.broken.value.message, req.broken.value.stack, nodeEnv))
    else
      match MountFor(req.path, Mounts)
      case None => NoRoute
      case Some(m) =>
        if !m.gated then Handled(m.router, None)
        else if admitted.None? then Refused
        else Handled(m.router, admitted)
  }

  /** A body that does not parse is answered 500 with the parser's message,
      whatever the path and whatever `protect` would decide. */
  lemma BrokenBodyIs500(path: string, e: BodyError, admitted: Option<nat>, nodeEnv: Option<string>)
    ensures var r := Dispatch(Request(false, path, Some(e)), admitted, nodeEnv);
            r.Errored? && r.reply.status == 500 && r.reply.message == e.message
  {
  }

  /** Every mount prefix is lower case, and the prefixes are told apart by
      their sixth character. */
  lemma MountPrefixes()
    ensures forall i | 0 <= i < |Mounts| :: |Mounts[i].prefix| > 5 && Lower(Mounts[i].prefix) == Mounts[i].prefix
    ensures forall i, j | 0 <= i < j < |Mounts| :: Mounts[i].prefix[5] != Mounts[j].prefix[5]
  {
  }

  /** No path falls under two mounts, so the order of registration does
      not matter. */
  lemma MountsDisjoint(path: string, i: nat, j: nat)
    requires i < |Mounts| && j < |Mounts|
    requires Under(Mounts[i].prefix, path) && Under(Mounts[j].prefix, path)
    ensures i == j
  {
    MountPrefixes();
    var p, q := Mounts[i].prefix, Mounts[j].prefix;
    assert Lower(path[..|p|])[5] == LowerChar(path[5]) == Lower(p)[5] == p[5];
    assert Lower(path[..|q|])[5] == LowerChar(path[5]) == Lower(q)[5] == q[5];
  }

  /** A path under a mount is served by that mount. */
  lemma {:induction false} MountForUnder(path: string, i: nat)
    requires i < |Mounts| && Under(Mounts[i].prefix, path)
    ensures MountFor(path, Mounts) == Some(Mounts[i])
  {
    var r := MountFor(path, Mounts);
    var j :| 0 <= j < |Mounts| && Mounts[j] == r.value;
    MountsDisjoint(path, i, j);
  }

  /** A prefix, optionally followed by a '/' and more, falls under it. */
  lemma UnderPrefix(prefix: string, rest: string)
    requires rest == [] || rest[0] == '/'
    ensures Under(prefix, prefix + rest)
  {
    assert (prefix + rest)[..|prefix|] == prefix;
  }

  /** The user routes run without `protect`: whatever `protect` would
      decide, they run and see no identity. */
  lemma UsersUngated(rest: string, admitted: Option<nat>, nodeEnv: Option<string>)
    requires rest == [] || rest[0] == '/'
    ensures Dispatch(Request(false, "/api/users" + rest, None), admitted, nodeEnv) == Handled(Users, None)
  {
    UnderPrefix("/api/users", rest);
    MountForUnder("/api/users" + rest, 0);
  }

  /** `GET /api/users/profile` reaches the users router without an
      identity whatever the token, so `getProfile` answers 404. */
  lemma ProfileSeesNoUser(admitted: Option<nat>, nodeEnv: Option<string>)
    ensures Dispatch(Request(false, "/api/users/profile", None), admitted, nodeEnv) == Handled(Users, None)
  {
    assert "/api/users/profile" == "/api/users" + "/profile";
    UsersUngated("/profile", admitted, nodeEnv);
  }

  /** The four resource routers run behind `protect`: a request it refuses
      never reaches them, and one it admits reaches them with its identity. */
  lemma ResourcesGated(i: nat, rest: string, admitted: Option<nat>, nodeEnv: Option<string>)
    requires 1 <= i < |Mounts|
    requires rest == [] || rest[0] == '/'
    ensures Mounts[i].router != Users
    ensures var req := Request(false, Mounts[i].prefix + rest, None);
            admitted.None? ==> Dispatch(req, admitted, nodeEnv) == Refused
    ensures var req := Request(false, Mounts[i].prefix + rest, None);
            admitted.Some? ==> Dispatch(req, admitted, nodeEnv) == Handled(Mounts[i].router, admitted)
  {
    UnderPrefix(Mounts[i].prefix, rest);
    MountForUnder(Mounts[i].prefix + rest, i);
  }

  /** The error handler's status: 500 while the response still says 200,
      otherwise the status already set. */
  function ErrorStatus(current: int): (r: int)
    ensures r != 200
    ensures current != 200 ==> r == current
  {
    if current == 200 then 500 else current
  }

  /** The error handler's body: the error's message, and its stack unless
      `NODE_ENV` is 'production'. */
  datatype ErrorReply = ErrorReply(status: int, message: string, stack: Option<string>)

  function HandleError(current: int, message: string, stack: string, nodeEnv: Option<string>): (r: ErrorReply)
    ensures r.status == ErrorStatus(current) && r.message == message
    ensures r.stack.None? <==> nodeEnv == Some("production")
    ensures r.stack.Some? ==> r.stack.value == stack
  {
    ErrorReply(ErrorStatus(current), message, if nodeEnv == Some("production") then None else Some(stack))
  }

  /** Handling an error a second time changes nothing. */
  lemma HandleErrorTwice(current: int, message: string, stack: string, nodeEnv: Option<string>)
    ensures var r := HandleError(current, message, stack, nodeEnv);
            HandleError(r.status, message, stack, nodeEnv) == r
  {
  }
}
