/**
 * The Org agent: the client of the user service's organisation resource.
 * Each method builds a request descriptor (verb, URL, JSON body, the
 * `bearer` header, paging) and maps the call's outcome through its own table
 * of explicit statuses before the generic fallback for 400 and above.
 * `Org.Get` fans out four fetches and annotates the users it receives.
 */
module OrgAgent {
  import opened JsValue
  import opened Http

  /** `per_page` of every paginated call. */
  const PerPage: int := 100

  // ---------------------------------------------------------------------------
  // The user service's routes, as a table the descriptors are checked against
  // ---------------------------------------------------------------------------

  datatype Method =
    | Create | GetInfo | Update | DeleteOrg | GetUsers | AddUser
    | RemoveUser | GetPackages | GetTeams | AddTeam

  /** One piece of a route's path: fixed text, the organisation, or the user. */
  datatype Segment = Lit(text: string) | OrgName | UserId

  datatype Route = Route(verb: Verb, path: seq<Segment>, paged: bool, hasBody: bool)

  /** The route each Org method calls. */
  function RouteOf(m: Method): Route {
    match m
    case Create => Route(Put, [Lit("/org")], false, true)
    case GetInfo => Route(Get, [Lit("/org/"), OrgName], false, false)
    case Update => Route(Post, [Lit("/org/"), OrgName], false, true)
    case DeleteOrg => Route(Delete, [Lit("/org/"), OrgName], false, false)
    case GetUsers => Route(Get, [Lit("/org/"), OrgName, Lit("/user")], true, false)
    case AddUser => Route(Put, [Lit("/org/"), OrgName, Lit("/user")], false, true)
    case RemoveUser => Route(Delete, [Lit("/org/"), OrgName, Lit("/user/"), UserId], false, false)
    case GetPackages => Route(Get, [Lit("/org/"), OrgName, Lit("/package")], true, false)
    case GetTeams => Route(Get, [Lit("/org/"), OrgName, Lit("/team")], true, false)
    case AddTeam => Route(Put, [Lit("/org/"), OrgName, Lit("/team")], false, true)
  }

  /** The path a route denotes for one organisation and user. */
  function Expand(path: seq<Segment>, name: string, userId: string): string
    decreases |path|
  {
    if path == [] then ""
    else
      var piece := match path[0] case Lit(t) => t case OrgName => name case UserId => userId;
      piece + Expand(path[1..], name, userId)
  }

  /** A descriptor calls method `m`'s route on `host` as JSON, paging by `PerPage` where the route pages. */
  predicate Follows(r: Request, host: string, m: Method, name: string, userId: string) {
    && r.verb == RouteOf(m).verb
    && r.url == host + Expand(RouteOf(m).path, name, userId)
    && r.json
    && (r.query.Some? <==> RouteOf(m).paged)
    && (r.query.Some? ==> r.query.value.perPage == PerPage)
    && (r.body.Some? <==> RouteOf(m).hasBody)
  }

  /** `page || 0`, the page default of `getPackages` and `getTeams`. */
  function PageOrZero(page: Value): (p: Value)
    ensures Truthy(page) ==> p == page
    ensures !Truthy(page) ==> p == Num(0)
  {
    Or(page, Num(0))
  }

  /** The page default of `getUsers`: 0 only when no page was given. */
  function PageUnlessUndefined(page: Value): (p: Value)
    ensures page.Undefined? ==> p == Num(0)
    ensures !page.Undefined? ==> p == page
  {
    if page.Undefined? then Num(0) else page
  }

  /** The two defaults agree except on a falsy page other than `undefined` and `0`. */
  lemma PageDefaultsDiffer(page: Value)
    ensures PageOrZero(page) != PageUnlessUndefined(page) <==>
      !Truthy(page) && !page.Undefined? && page != Num(0)
  {
  }

  /** `opts = opts || {}` */
  function OptionsOrEmpty(opts: Value): (o: Value)
    ensures !Nullish(o)
    ensures Truthy(opts) ==> o == opts
  {
    Or(opts, Obj(map[]))
  }

  // ---------------------------------------------------------------------------
  // Status tables and the per-method mappings
  // ---------------------------------------------------------------------------

  function CreateUnauthorized(scope: Value): string {
    "no bearer token included in creation of " + ToJsString(scope)
  }

  const ScopeInUse := "The provided Org's @scope name is already in use"
  const OrgNotFound := "org not found"
  const TeamNameInUse := "The provided Team's name is already in use for this Org"

  function AddTeamUnauthorized(teamName: Value): string {
    "no bearer token included in adding of team " + ToJsString(teamName)
  }

  /** What `getTeams` accepts on 401: an empty page. */
  function EmptyPage(): Value {
    Obj(map["count" := Num(0), "items" := Arr([])])
  }

  function CreateTable(scope: Value): StatusTable {
    [(401, Reject(CreateUnauthorized(scope))), (409, Reject(ScopeInUse))]
  }

  function UpdateTable(): StatusTable {
    [(401, Reject("user is unauthorized to modify this organization")), (404, Reject(OrgNotFound))]
  }

  function DeleteTable(): StatusTable {
    [(401, Reject("user is unauthorized to delete this organization")), (404, Reject(OrgNotFound))]
  }

  function AddUserTable(): StatusTable {
    [(401, Reject("bearer is unauthorized to add this user to this organization")), (404, Reject("user not found"))]
  }

  function GetInfoTable(): StatusTable {
    [(404, Reject("Org not found"))]
  }

  function ListTable(): StatusTable {
    [(404, Reject(OrgNotFound))]
  }

  function GetTeamsTable(): StatusTable {
    [(401, AcceptWith(EmptyPage())), (404, Reject("Org or Team not found"))]
  }

  function RemoveUserTable(): StatusTable {
    [(404, Reject("org or user not found"))]
  }

  function AddTeamTable(teamName: Value): StatusTable {
    [(401, Reject(AddTeamUnauthorized(teamName))), (404, Reject("Org not found")), (409, Reject(TeamNameInUse))]
  }

  /**
   * `create`: 401 and 409 have their own messages, tested before the
   * fallback; the 401 message names `opts.scope` of the defaulted options.
   */
  function CreateResult(opts: Value, outcome: Outcome): (r: Result<Value>)
    ensures r == Classify(CreateTable(Prop(OptionsOrEmpty(opts), "scope")), outcome)
  {
    var scope := Prop(OptionsOrEmpty(opts), "scope");
    match outcome
    case TransportFailure(e) => Fail(Transport(e))
    case Response(status, body) =>
      if status == 401 then Fail(Typed(CreateUnauthorized(scope), status))
      else if status == 409 then
        ClassifyExplicit(CreateTable(scope), status, body, 1);
        Fail(Typed(ScopeInUse, status))
      else if status >= 400 then
        ClassifyFallback(CreateTable(scope), status, body);
        Fail(Typed(ErrorMessage(body), status))
      else
        ClassifySuccess(CreateTable(scope), status, body);
        Ok(body)
  }

  /**
   * `update` with the fallback error built from the response body. The source
   * names an undeclared variable there; `UpdateAsWritten` models that.
   */
  function UpdateResult(outcome: Outcome): (r: Result<Value>)
    ensures r == Classify(UpdateTable(), outcome)
  {
    match outcome
    case TransportFailure(e) => Fail(Transport(e))
    case Response(status, org) =>
      if status == 401 then Fail(Typed("user is unauthorized to modify this organization", status))
      else if status == 404 then Fail(Typed(OrgNotFound, status))
      else if status >= 400 then
        ClassifyFallback(UpdateTable(), status, org);
        Fail(Typed(ErrorMessage(org), status))
      else
        ClassifySuccess(UpdateTable(), status, org);
        Ok(org)
  }

  /** What a callback-style method's response handler does: call back with a result, or throw. */
  datatype CallbackEffect = Reports(result: Result<Value>) | Throws(exception: string)

  const BodyNotDefined := "ReferenceError: body is not defined"

  /** `update` as written: its fallback reads the undeclared `body` and throws before calling back. */
  function UpdateAsWritten(outcome: Outcome): (e: CallbackEffect)
    ensures e.Throws? <==> outcome.Response? && outcome.statusCode >= 400 && outcome.statusCode != 401 && outcome.statusCode != 404
  {
    match outcome
    case TransportFailure(err) => Reports(Fail(Transport(err)))
    case Response(status, org) =>
      if status == 401 then Reports(Fail(Typed("user is unauthorized to modify this organization", status)))
      else if status == 404 then Reports(Fail(Typed(OrgNotFound, status)))
      else if status >= 400 then Throws(BodyNotDefined)
      else Reports(Ok(org))
  }

  /** As written, a 500 from the service never reaches `update`'s caller; the corrected mapping reports it. */
  lemma UpdateFallbackLost(status: int, body: Value)
    requires status >= 400 && status != 401 && status != 404
    ensures UpdateAsWritten(Response(status, body)) == Throws(BodyNotDefined)
    ensures UpdateResult(Response(status, body)) == Fail(Typed(ErrorMessage(body), status))
  {
  }

  /** On every other outcome the two agree. */
  lemma UpdateAgreesOffFallback(outcome: Outcome)
    requires !(outcome.Response? && outcome.statusCode >= 400 && outcome.statusCode != 401 && outcome.statusCode != 404)
    ensures UpdateAsWritten(outcome) == Reports(UpdateResult(outcome))
  {
  }

  /** `delete`: 401 and 404 have their own messages. */
  function DeleteResult(outcome: Outcome): (r: Result<Value>)
    ensures r == Classify(DeleteTable(), outcome)
  {
    match outcome
    case TransportFailure(e) => Fail(Transport(e))
    case Response(status, body) =>
      if status == 401 then Fail(Typed("user is unauthorized to delete this organization", status))
      else if status == 404 then Fail(Typed(OrgNotFound, status))
      else if status >= 400 then
        ClassifyFallback(DeleteTable(), status, body);
        Fail(Typed(ErrorMessage(body), status))
      else
        ClassifySuccess(DeleteTable(), status, body);
        Ok(body)
  }

  /** `addUser`: 401 and 404 have their own messages. */
  function AddUserResult(outcome: Outcome): (r: Result<Value>)
    ensures r == Classify(AddUserTable(), outcome)
  {
    match outcome
    case TransportFailure(e) => Fail(Transport(e))
    case Response(status, user) =>
      if status == 401 then Fail(Typed("bearer is unauthorized to add this user to this organization", status))
      else if status == 404 then Fail(Typed("user not found", status))
      else if status >= 400 then
        ClassifyFallback(AddUserTable(), status, user);
        Fail(Typed(ErrorMessage(user), status))
      else
        ClassifySuccess(AddUserTable(), status, user);
        Ok(user)
  }

  /** `getInfo`: only 404 has its own message. */
  function GetInfoResult(outcome: Outcome): (r: Result<Value>)
    ensures r == Classify(GetInfoTable(), outcome)
  {
    match outcome
    case TransportFailure(e) => Fail(Transport(e))
    case Response(status, body) =>
      if status == 404 then Fail(Typed("Org not found", status))
      else if status >= 400 then Fail(Typed(ErrorMessage(body), status))
      else Ok(body)
  }

  /** `getPackages`: only 404 has its own message. */
  function GetPackagesResult(outcome: Outcome): (r: Result<Value>)
    ensures r == Classify(ListTable(), outcome)
  {
    match outcome
    case TransportFailure(e) => Fail(Transport(e))
    case Response(status, pkgs) =>
      if status == 404 then Fail(Typed(OrgNotFound, status))
      else if status >= 400 then Fail(Typed(ErrorMessage(pkgs), status))
      else Ok(pkgs)
  }

  /** `getUsers`: only 404 has its own message. */
  function GetUsersResult(outcome: Outcome): (r: Result<Value>)
    ensures r == Classify(ListTable(), outcome)
  {
    match outcome
    case TransportFailure(e) => Fail(Transport(e))
    case Response(status, users) =>
      if status == 404 then Fail(Typed(OrgNotFound, status))
      else if status >= 400 then Fail(Typed(ErrorMessage(users), status))
      else Ok(users)
  }

  /** `getTeams`: 401 is a success with an empty page; 404 has its own message. */
  function GetTeamsResult(outcome: Outcome): (r: Result<Value>)
    ensures r == Classify(GetTeamsTable(), outcome)
    ensures outcome.Response? && outcome.statusCode == 401 ==> r == Ok(EmptyPage())
  {
    match outcome
    case TransportFailure(e) => Fail(Transport(e))
    case Response(status, body) =>
      if status == 401 then Ok(EmptyPage())
      else if status == 404 then Fail(Typed("Org or Team not found", status))
      else if status >= 400 then
        ClassifyFallback(GetTeamsTable(), status, body);
        Fail(Typed(ErrorMessage(body), status))
      else
        ClassifySuccess(GetTeamsTable(), status, body);
        Ok(body)
  }

  /** `removeUser`: only 404 has its own message. */
  function RemoveUserResult(outcome: Outcome): (r: Result<Value>)
    ensures r == Classify(RemoveUserTable(), outcome)
  {
    match outcome
    case TransportFailure(e) => Fail(Transport(e))
    case Response(status, removedUser) =>
      if status == 404 then Fail(Typed("org or user not found", status))
      else if status >= 400 then Fail(Typed(ErrorMessage(removedUser), status))
      else Ok(removedUser)
  }

  /** `addTeam`: 401 (naming `opts.teamName`), then 404, then 409, then the fallback. */
  function AddTeamResult(opts: Value, outcome: Outcome): (r: Result<Value>)
    ensures r == Classify(AddTeamTable(Prop(OptionsOrEmpty(opts), "teamName")), outcome)
  {
    var teamName := Prop(OptionsOrEmpty(opts), "teamName");
    match outcome
    case TransportFailure(e) => Fail(Transport(e))
    case Response(status, body) =>
      if status == 401 then Fail(Typed(AddTeamUnauthorized(teamName), status))
      else if status == 404 then
        ClassifyExplicit(AddTeamTable(teamName), status, body, 1);
        Fail(Typed("Org not found", status))
      else if status == 409 then
        ClassifyExplicit(AddTeamTable(teamName), status, body, 2);
        Fail(Typed(TeamNameInUse, status))
      else if status >= 400 then
        ClassifyFallback(AddTeamTable(teamName), status, body);
        Fail(Typed(ErrorMessage(body), status))
      else
        ClassifySuccess(AddTeamTable(teamName), status, body);
        Ok(body)
  }

  /** Of all the Org methods, only `getTeams` turns a 401 into a success. */
  lemma OnlyTeamsAcceptsUnauthorized(createOpts: Value, teamOpts: Value, body: Value)
    ensures GetTeamsResult(Response(401, body)).Ok?
    ensures CreateResult(createOpts, Response(401, body)).Fail?
    ensures UpdateResult(Response(401, body)).Fail?
    ensures DeleteResult(Response(401, body)).Fail?
    ensures AddUserResult(Response(401, body)).Fail?
    ensures GetInfoResult(Response(401, body)).Fail?
    ensures GetPackagesResult(Response(401, body)).Fail?
    ensures GetUsersResult(Response(401, body)).Fail?
    ensures RemoveUserResult(Response(401, body)).Fail?
    ensures AddTeamResult(teamOpts, Response(401, body)).Fail?
  {
  }

  // ---------------------------------------------------------------------------
  // The user annotation of `get`
  // ---------------------------------------------------------------------------

  const SponsoredByOrgValue := "by-org"

  /**
   * One step of the `map` over `users.items`: an object gains `avatar`, the
   * resolver's value for its `email`, and `sponsoredByOrg`, whether its
   * `sponsored` is exactly "by-org"; no other field changes. Reading `email`
   * of `null` or `undefined` throws; other primitives are returned unchanged
   * (JavaScript ignores property writes on them).
   */
  function AnnotateUser(user: Value, avatar: Value -> Value): (r: Result<Value>)
    ensures r.Fail? <==> Nullish(user)
    ensures r.Fail? ==> r.error == ScriptFault("TypeError")
    ensures !Nullish(user) && !user.Obj? ==> r == Ok(user)
    ensures user.Obj? ==> r.Ok? && r.value.Obj?
    ensures user.Obj? ==> r.value.fields.Keys == user.fields.Keys + {"avatar", "sponsoredByOrg"}
    ensures user.Obj? ==> r.value.fields["avatar"] == avatar(Prop(user, "email"))
    ensures user.Obj? ==>
      r.value.fields["sponsoredByOrg"] == Bool(Prop(user, "sponsored") == Str(SponsoredByOrgValue))
    ensures user.Obj? ==>
      forall k :: k in user.fields && k != "avatar" && k != "sponsoredByOrg" ==> r.value.fields[k] == user.fields[k]
  {
    match user
    case Undefined => Fail(ScriptFault("TypeError"))
    case Null => Fail(ScriptFault("TypeError"))
    case Obj(fields) =>
      var withAvatar := fields["avatar" := avatar(Prop(user, "email"))];
      Ok(Obj(withAvatar["sponsoredByOrg" := Bool(Prop(Obj(withAvatar), "sponsored") == Str(SponsoredByOrgValue))]))
    case _ => Ok(user)
  }

  /** `users.items.map(...)`: every user annotated in order; the first unreadable one throws. */
  function AnnotateUsers(items: seq<Value>, avatar: Value -> Value): (r: Result<seq<Value>>)
    ensures r.Ok? <==> forall i :: 0 <= i < |items| ==> !Nullish(items[i])
    ensures r.Fail? ==> r.error == ScriptFault("TypeError")
    ensures r.Ok? ==> |r.value| == |items|
    ensures r.Ok? ==> forall i :: 0 <= i < |items| ==> Ok(r.value[i]) == AnnotateUser(items[i], avatar)
    decreases |items|
  {
    if items == [] then Ok([])
    else
      match AnnotateUser(items[0], avatar)
      case Fail(e) => Fail(e)
      case Ok(first) =>
        match AnnotateUsers(items[1..], avatar)
        case Fail(e) => Fail(e)
        case Ok(rest) =>
          assert forall i :: 1 <= i < |items| ==> items[i] == items[1..][i - 1];
          Ok([first] + rest)
  }

  /** `ret.users.items = users.items.map(...)`: the page keeps every other field; a page without an item array throws. */
  function AnnotatePage(users: Value, avatar: Value -> Value): (r: Result<Value>)
    ensures r.Fail? ==> r.error == ScriptFault("TypeError")
    ensures r.Ok? <==> (
      && users.Obj? && "items" in users.fields && users.fields["items"].Arr?
      && forall i :: 0 <= i < |users.fields["items"].elems| ==> !Nullish(users.fields["items"].elems[i]))
    ensures r.Ok? ==> r.value.Obj? && r.value.fields.Keys == users.fields.Keys
    ensures r.Ok? ==> forall k :: k in users.fields && k != "items" ==> r.value.fields[k] == users.fields[k]
    ensures r.Ok? ==> r.value.fields["items"].Arr?
    ensures r.Ok? ==> AnnotateUsers(users.fields["items"].elems, avatar) == Ok(r.value.fields["items"].elems)
  {
    if users.Obj? && "items" in users.fields && users.fields["items"].Arr? then
      match AnnotateUsers(users.fields["items"].elems, avatar)
      case Fail(e) => Fail(e)
      case Ok(items) => Ok(Obj(users.fields["items" := Arr(items)]))
    else Fail(ScriptFault("TypeError"))
  }

  /** The aggregate `get` resolves to. */
  datatype OrgView = OrgView(info: Value, users: Value, packages: Value, teams: Value)

  predicate FailedWith(r: Result<Value>, e: Failure) {
    r.Fail? && r.error == e
  }

  class Org {
    /** The logged-in user's token, sent as the `bearer` header of every call. */
    const bearer: string

    constructor (bearer: string)
      ensures this.bearer == bearer
    {
      this.bearer := bearer;
    }

    /** `create`: PUT `/org` with `name` = `opts.scope` and `human_name` only for a truthy `opts.humanName`. */
    function CreateRequest(host: string, opts: Value): (r: Request)
      ensures Follows(r, host, Create, "", "") && r.bearer == bearer
      ensures
        var o := OptionsOrEmpty(opts);
        var humanName := Prop(o, "humanName");
        r.body == Some(Obj(map[
          "name" := Prop(o, "scope"),
          "resource" := Obj(if Truthy(humanName) then map["human_name" := humanName] else map[])]))
      ensures r.body.value.fields["resource"].Obj?
      ensures "human_name" in r.body.value.fields["resource"].fields <==> Truthy(Prop(OptionsOrEmpty(opts), "humanName"))
    {
      var o := OptionsOrEmpty(opts);
      var humanName := Prop(o, "humanName");
      var resource: map<string, Value> := if Truthy(humanName) then map["human_name" := humanName] else map[];
      Request(Put, host + "/org", true, Some(Obj(map["name" := Prop(o, "scope"), "resource" := Obj(resource)])), bearer, None)
    }

    /** `update`: POST the whole object to `/org/<data.name>`. */
    function UpdateRequest(host: string, data: map<string, Value>): (r: Request)
      ensures Follows(r, host, Update, ToJsString(Prop(Obj(data), "name")), "") && r.bearer == bearer
      ensures r.body == Some(Obj(data))
    {
      Request(Post, host + "/org/" + ToJsString(Prop(Obj(data), "name")), true, Some(Obj(data)), bearer, None)
    }

    /** `delete`: DELETE `/org/<name>`. */
    function DeleteRequest(host: string, name: string): (r: Request)
      ensures Follows(r, host, DeleteOrg, name, "") && r.bearer == bearer
    {
      Request(Delete, host + "/org/" + name, true, None, bearer, None)
    }

    /** `addUser`: PUT the user object to `/org/<name>/user`; the source asserts it is an object. */
    function AddUserRequest(host: string, name: string, user: Value): (r: Request)
      requires user.Obj? || user.Arr?
      ensures Follows(r, host, AddUser, name, "") && r.bearer == bearer
      ensures r.body == Some(user)
    {
      Request(Put, host + "/org/" + name + "/user", true, Some(user), bearer, None)
    }

    /** `getInfo`: GET `/org/<name>`. */
    function InfoRequest(host: string, name: string): (r: Request)
      ensures Follows(r, host, GetInfo, name, "") && r.bearer == bearer
    {
      Request(Verb.Get, host + "/org/" + name, true, None, bearer, None)
    }

    /** `getPackages`: GET `/org/<name>/package`, page `page || 0`. */
    function PackagesRequest(host: string, name: string, page: Value): (r: Request)
      ensures Follows(r, host, GetPackages, name, "") && r.bearer == bearer
      ensures r.query == Some(Query(PerPage, PageOrZero(page)))
    {
      Request(Verb.Get, host + "/org/" + name + "/package", true, None, bearer, Some(Query(PerPage, PageOrZero(page))))
    }

    /** `getUsers`: GET `/org/<name>/user`, page 0 only when none was given. */
    function UsersRequest(host: string, name: string, page: Value): (r: Request)
      ensures Follows(r, host, GetUsers, name, "") && r.bearer == bearer
      ensures r.query == Some(Query(PerPage, PageUnlessUndefined(page)))
    {
      Request(Verb.Get, host + "/org/" + name + "/user", true, None, bearer, Some(Query(PerPage, PageUnlessUndefined(page))))
    }

    /** `getTeams`: GET `/org/<name>/team`, page `page || 0`; the name is not checked to be a string. */
    function TeamsRequest(host: string, name: Value, page: Value): (r: Request)
      ensures Follows(r, host, GetTeams, ToJsString(name), "") && r.bearer == bearer
      ensures r.query == Some(Query(PerPage, PageOrZero(page)))
    {
      Request(Verb.Get, host + "/org/" + ToJsString(name) + "/team", true, None, bearer, Some(Query(PerPage, PageOrZero(page))))
    }

    /** `removeUser`: DELETE `/org/<name>/user/<userId>`. */
    function RemoveUserRequest(host: string, name: Value, userId: Value): (r: Request)
      ensures Follows(r, host, RemoveUser, ToJsString(name), ToJsString(userId)) && r.bearer == bearer
    {
      Request(Delete, host + "/org/" + ToJsString(name) + "/user/" + ToJsString(userId), true, None, bearer, None)
    }

    /** `addTeam`: PUT `{scope, name, description}` to `/org/<opts.orgScope>/team`. */
    function AddTeamRequest(host: string, opts: Value): (r: Request)
      ensures Follows(r, host, AddTeam, ToJsString(Prop(OptionsOrEmpty(opts), "orgScope")), "") && r.bearer == bearer
      ensures
        var o := OptionsOrEmpty(opts);
        r.body == Some(Obj(map[
          "scope" := Prop(o, "orgScope"),
          "name" := Prop(o, "teamName"),
          "description" := Prop(o, "description")]))
    {
      var o := OptionsOrEmpty(opts);
      var body := map["scope" := Prop(o, "orgScope"), "name" := Prop(o, "teamName"), "description" := Prop(o, "description")];
      Request(Put, host + "/org/" + ToJsString(Prop(o, "orgScope")) + "/team", true, Some(Obj(body)), bearer, None)
    }

    /** The four fetches of `get`, each with the default page. */
    function GetRequests(host: string, name: string): (rs: seq<Request>)
      ensures |rs| == 4
      ensures forall i :: 0 <= i < 4 ==> rs[i].bearer == bearer
      ensures Follows(rs[0], host, GetInfo, name, "")
      ensures Follows(rs[1], host, GetUsers, name, "") && rs[1].query.value.page == Num(0)
      ensures Follows(rs[2], host, GetPackages, name, "") && rs[2].query.value.page == Num(0)
      ensures Follows(rs[3], host, GetTeams, name, "") && rs[3].query.value.page == Num(0)
    {
      [InfoRequest(host, name), UsersRequest(host, name, Undefined),
       PackagesRequest(host, name, Undefined), TeamsRequest(host, Str(name), Undefined)]
    }

    /**
     * `get`: all or nothing over the four fetches. It fails with some failing
     * fetch's error, or with the annotation's only when every fetch succeeded,
     * and otherwise passes info, packages and teams on unchanged with the
     * users annotated.
     */
    function Get(info: Outcome, users: Outcome, packages: Outcome, teams: Outcome, avatar: Value -> Value): (r: Result<OrgView>)
      ensures
        var ri, ru, rp, rt := GetInfoResult(info), GetUsersResult(users), GetPackagesResult(packages), GetTeamsResult(teams);
        && (r.Ok? <==> ri.Ok? && ru.Ok? && rp.Ok? && rt.Ok? && AnnotatePage(ru.value, avatar).Ok?)
        && (r.Ok? ==> r.value.info == ri.value && r.value.packages == rp.value && r.value.teams == rt.value
                      && Ok(r.value.users) == AnnotatePage(ru.value, avatar))
        && (r.Fail? ==> FailedWith(ri, r.error) || FailedWith(ru, r.error) || FailedWith(rp, r.error)
                        || FailedWith(rt, r.error)
                        || (ri.Ok? && ru.Ok? && rp.Ok? && rt.Ok? && AnnotatePage(ru.value, avatar) == Fail(r.error)))
    {
      var ri, ru, rp, rt := GetInfoResult(info), GetUsersResult(users), GetPackagesResult(packages), GetTeamsResult(teams);
      if ri.Fail? then Fail(ri.error)
      else if ru.Fail? then Fail(ru.error)
      else if rp.Fail? then Fail(rp.error)
      else if rt.Fail? then Fail(rt.error)
      else
        match AnnotatePage(ru.value, avatar)
        case Fail(e) => Fail(e)
        case Ok(annotated) => Ok(OrgView(ri.value, annotated, rp.value, rt.value))
    }
  }

  /** The example of one sponsored user: it comes back flagged and with the resolver's avatar. */
  lemma GetOneSponsoredUser(org: Org, avatar: Value -> Value)
    ensures
      var user := Obj(map["email" := Str("a@x.com"), "sponsored" := Str("by-org")]);
      var r := org.Get(Response(200, Obj(map["name" := Str("acme")])),
                       Response(200, Obj(map["items" := Arr([user])])),
                       Response(200, Obj(map["items" := Arr([])])),
                       Response(200, Obj(map["items" := Arr([])])), avatar);
      && r.Ok?
      && r.value.users.fields["items"].elems[0].fields["sponsoredByOrg"] == Bool(true)
      && r.value.users.fields["items"].elems[0].fields["avatar"] == avatar(Str("a@x.com"))
  {
    var user := Obj(map["email" := Str("a@x.com"), "sponsored" := Str("by-org")]);
    var items := [user];
    assert !Nullish(items[0]);
    var annotated := AnnotateUsers(items, avatar);
    assert Ok(annotated.value[0]) == AnnotateUser(user, avatar);
  }
}
