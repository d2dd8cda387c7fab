# Org agent, error pages, corporate pages and homepage — a Dafny model

This project models the decision logic of a web front-end's request plumbing:

- **The Org agent** (`OrgAgent`, over the shared `JsValue` and `Http` modules). An
  `Org` holds the caller's bearer token. Each method builds a request descriptor:
  verb, URL, JSON body, the `bearer` header and paging. Each method also maps the
  call's outcome to exactly one result:
  - the transport error,
  - a typed error from that method's own status table,
  - a generic typed error carrying the body for any other status of 400 or more,
  - or success with the body.

  Each per-method mapping is written as the source's if-chain. It is proved equal
  to `Http.Classify` applied to that method's table, and `Classify`'s precedence
  rules are proved once. The descriptors are proved to follow a route table of
  the user service. `Org.Get` combines the four fetches all-or-nothing and
  annotates every user.
- **The error-page extension** (`ErrorHandler`). Responses that are not Boom
  errors pass through. For a Boom error it picks the status via the fallback
  chain, annotates the response object in place and renders the not-found view
  or the internal view.
- **Corporate pages** (`CorporatePages`). It validates the page name, builds the
  raw-content URL and handles the literal "Not Found" body.
- **The homepage** (`Homepage`). The `npmo` flag chooses which branches run. A
  package-count failure is replaced by `null`; every other failure is fatal.

The HTTP client, the avatar resolver, the Markdown renderer, the feature-flag
lookup and the stack renderer are collaborators. Their results are inputs to the
model: an `Outcome` per call, a function parameter, a boolean, a string. The
user-service host, which the source reads from the environment, is the `host`
parameter of each descriptor.

Three details of the code the model follows as written:
- `delete` uses its own `body` parameter in its fallback error. Only `update`
  names an undeclared variable (see Findings).
- `per_page` is always 100. The `page` default differs between methods:
  `getUsers` replaces only `undefined`, while `getPackages` and `getTeams` apply
  `page || 0`.
- A name that is not a string makes the agent throw an assertion error. The
  model types those names as `string` instead of adding a validation-error path.

## Model

| member | source | states |
|---|---|---|
| `OrgAgent.Org.constructor` | agents/org.js:8-16 | the agent keeps the bearer it was given; every descriptor below carries it as `bearer` |
| `OrgAgent.Org.CreateRequest` | agents/org.js:18-38 | PUT `<host>/org`, JSON. The body's `name` is `opts.scope`. `resource.human_name` is present iff `opts.humanName` is truthy. Falsy `opts` reads as `{}` |
| `OrgAgent.CreateResult` | agents/org.js:18-66 | equals `Classify` over {401: "no bearer token included in creation of " + `opts.scope` of the defaulted options, 409: scope-in-use message}, so 401 and 409 win over the body fallback and every error's statusCode is the response status |
| `OrgAgent.Org.UpdateRequest` | agents/org.js:97-109 | POST the whole object to `<host>/org/<data.name>` with the bearer |
| `OrgAgent.UpdateResult` | agents/org.js:111-135 | equals `Classify` over {401: unauthorized-to-modify, 404: "org not found"}, with the fallback message taken from the response body |
| `OrgAgent.UpdateAsWritten` | agents/org.js:128-131 | on a response, the code as written throws exactly on statuses of 400 or more other than 401 and 404, and never calls back for them (its transport path is under Left out) |
| `OrgAgent.UpdateFallbackLost` | agents/org.js:128-131 | for such a status the as-written handler throws the ReferenceError, while the corrected mapping reports a typed error with that status |
| `OrgAgent.UpdateAgreesOffFallback` | agents/org.js:111-135 | on every other outcome, as-written and corrected `update` report the same result |
| `OrgAgent.Org.DeleteRequest` | agents/org.js:138-148 | DELETE `<host>/org/<name>` with the bearer, no body |
| `OrgAgent.DeleteResult` | agents/org.js:149-173 | equals `Classify` over {401: unauthorized-to-delete, 404: "org not found"} |
| `OrgAgent.Org.AddUserRequest` | agents/org.js:176-190 | PUT the user object to `<host>/org/<name>/user`. Requires the object that the source asserts |
| `OrgAgent.AddUserResult` | agents/org.js:191-215 | equals `Classify` over {401: unauthorized-to-add, 404: "user not found"} |
| `OrgAgent.Org.InfoRequest` | agents/org.js:219-232 | GET `<host>/org/<name>` with the bearer |
| `OrgAgent.GetInfoResult` | agents/org.js:233-251 | equals `Classify` over {404: "Org not found"} |
| `OrgAgent.Org.PackagesRequest` | agents/org.js:255-275 | GET `<host>/org/<name>/package`, `per_page` 100, `page` falls back to 0 when falsy |
| `OrgAgent.GetPackagesResult` | agents/org.js:276-294 | equals `Classify` over {404: "org not found"} |
| `OrgAgent.Org.UsersRequest` | agents/org.js:298-320 | GET `<host>/org/<name>/user`, `per_page` 100, `page` 0 only when undefined |
| `OrgAgent.GetUsersResult` | agents/org.js:321-339 | equals `Classify` over {404: "org not found"} |
| `OrgAgent.PageDefaultsDiffer` | agents/org.js:255-305 | the two page defaults differ exactly on a falsy page other than `undefined` and 0 |
| `OrgAgent.Org.TeamsRequest` | agents/org.js:344-363 | GET `<host>/org/<String(name)>/team`, `per_page` 100, `page` falls back to 0 when falsy |
| `OrgAgent.GetTeamsResult` | agents/org.js:364-389 | equals `Classify` over {401: accept `{count: 0, items: []}`, 404: "Org or Team not found"}; a 401 is that success |
| `OrgAgent.OnlyTeamsAcceptsUnauthorized` | agents/org.js:369-374 | of the ten methods, only `getTeams` turns a 401 into a success |
| `OrgAgent.Org.RemoveUserRequest` | agents/org.js:393-405 | DELETE `<host>/org/<name>/user/<userId>` with the bearer |
| `OrgAgent.RemoveUserResult` | agents/org.js:406-424 | equals `Classify` over {404: "org or user not found"} |
| `OrgAgent.Org.AddTeamRequest` | agents/org.js:429-445 | PUT `{scope, name, description}` from `opts` to `<host>/org/<opts.orgScope>/team` |
| `OrgAgent.AddTeamResult` | agents/org.js:429-480 | equals `Classify` over 401 (naming `opts.teamName` of the defaulted options), then 404, then 409 (team-name-in-use), then the fallback |
| `OrgAgent.Org.GetRequests` | agents/org.js:73-78 | `get` issues `getInfo`, `getUsers`, `getPackages` and `getTeams` for the name, each with page 0 and the bearer |
| `OrgAgent.AnnotateUser` | agents/org.js:85-89 | an object gains `avatar` = resolver(email) and `sponsoredByOrg` = (`sponsored` is exactly "by-org"). No other field changes. A null or undefined entry throws |
| `OrgAgent.AnnotateUsers` | agents/org.js:85-89 | succeeds iff no entry is null or undefined. Then it keeps length and order, and entry i is entry i annotated |
| `OrgAgent.AnnotatePage` | agents/org.js:84-89 | the users page keeps every other field and gets its items annotated. A page without an item array throws |
| `OrgAgent.Org.Get` | agents/org.js:69-95 | succeeds iff all four fetches and the annotation succeed. Then info, packages and teams are the fetched values and users the annotated page. Otherwise it fails with some failing fetch's error, or with the annotation's error only when all four fetches succeeded |
| `OrgAgent.GetOneSponsoredUser` | agents/org.js:80-93 | one user sponsored "by-org" comes back with `sponsoredByOrg` true and the resolver's avatar for its email |
| `Http.Classify` | agents/org.js:42-64 | transport errors pass through. An explicit row yields its verdict. A missing row at 400 or more yields an error with the body as message. Every typed error carries the response status |
| `Http.ClassifyExplicit` | agents/org.js:46-56 | an explicit row wins over the generic fallback, for the first row with that status |
| `Http.ClassifyFallback` | agents/org.js:58-62 | a status of 400 or more without a row gives `Error(body)` with that status |
| `Http.ClassifySuccess` | agents/org.js:64 | a status below 400 without a row succeeds with the body unchanged |
| `JsValue.ErrorMessage` | agents/org.js:59 | `new Error(body).message` is the body itself for a string body, and empty for `undefined` |
| `ErrorHandler.ChooseStatus` | lib/error-handler.js:18 | the response's own status if truthy, else the Boom output's if truthy, else 500; never 0 |
| `ErrorHandler.ViewFor` | lib/error-handler.js:23-36 | status 404 renders `errors/not-found`, and every other status renders `errors/internal` |
| `ErrorHandler.OnPreResponse` | lib/error-handler.js:9-38 | a non-Boom response continues untouched. A Boom response gets `correlationID` = request id, `features` copied, and `npmoFullStack` set only off 404 with `npmo` on. It is rendered with the chosen status, `text/html`, `utf-8` |
| `ErrorHandler.OutputStatusDecidesView` | lib/error-handler.js:18-24 | with the own status unset or 0, the output status decides the code and the view |
| `CorporatePages.MatchesNamePattern` | services/corporate/methods/getPage.js:14 | the pattern accepts exactly the non-empty strings of ASCII letters, digits, `-` and `_` |
| `CorporatePages.CheckName` | services/corporate/methods/getPage.js:14-17 | a string name is accepted iff it matches, and becomes the URL segment. An absent name goes through as "undefined". Any other value is rejected |
| `CorporatePages.AcceptedNameStaysInRepo` | services/corporate/methods/getPage.js:14-22 | an accepted string name has no `/` or `.`, so the URL stays inside the repository's directory |
| `CorporatePages.PageUrl` | services/corporate/methods/getPage.js:19-22 | the URL is `https://raw.githubusercontent.com/npm/<repo>/master/` + name + `.md` |
| `CorporatePages.PageUrlRoundTrip` | services/corporate/methods/getPage.js:22 | the name can be read back from the URL, so distinct names fetch distinct files |
| `CorporatePages.GetPage` | services/corporate/methods/getPage.js:11-41 | a rejected name gives (error, null) with no fetch. Otherwise the URL is fetched. A body of exactly "Not Found" gives (that error, null). Another string body is rendered. A non-string body is passed on with the fetch's error |
| `CorporatePages.StaticPage` | services/corporate/methods/getPage.js:7 | `static` reads from `npm/static-pages` on `master` |
| `CorporatePages.PolicyPage` | services/corporate/methods/getPage.js:8 | `policy` reads from `npm/policies` on `master` |
| `Homepage.Actions` | handlers/homepage.js:8-34 | `modified` and `dependents` (count 12, TTL 60 s and 1800 s) and `explicit` always run. `downloads` and `totalPackages` run iff `npmo` is off |
| `Homepage.Settled` | handlers/homepage.js:30-33 | a failing `totalPackages` becomes `null`; every other branch keeps its outcome |
| `Homepage.Started` | handlers/homepage.js:18-34 | the started branches are exactly the keys of `actions` |
| `Homepage.FirstFailure` | handlers/homepage.js:36-47 | nothing is reported iff every started branch settled successfully; otherwise the report is one branch's error |
| `Homepage.Handle` | handlers/homepage.js:12-48 | it replies with an error iff a started branch other than `totalPackages` failed, and that error is one of theirs. Otherwise it renders `homepage` with the five results. `downloads` and `totalPackages` are `undefined` under `npmo`, and a failed count is `null` |
| `Homepage.TotalPackagesNonFatal` | handlers/homepage.js:30-33 | the count's outcome never decides whether the page renders |
| `Homepage.NpmoSkipsBranches` | handlers/homepage.js:28-34 | with `npmo` on, the reply does not depend on the download and count branches at all |
| `Homepage.DownloadsFatal` | handlers/homepage.js:28-47 | a failing `downloads` fails the page when `npmo` is off, and changes nothing when it is on |

## Left out

- The HTTP client, the user service, GitHub and the package and download backends: each call's outcome is an input (`Http.Outcome`, `CorporatePages.Fetched`, `Homepage.Outcomes`).
- Promise and callback plumbing (`new P`, `P.all`, `P.props`, `nodeify`): results are values, not deferred calls.
- OrgAgent.Org.Get: when several fetches fail, the real rejection is whichever settles first in time. The model picks the first in listing order, and its contract promises only some failing fetch's error.
- Homepage.Handle: the same for several failing branches. The model reports the first in creation order, and its contract promises only some failing branch's error.
- OrgAgent.AnnotateUser: the source mutates the fetched user objects in place. The model returns updated values, since nothing else holds those freshly decoded objects. An array-valued entry would gain the two properties in JavaScript; the model returns it unchanged, as its values have no arrays with named properties.
- Transport errors in `update`, `delete`, `getPackages` and `getUsers`: after reporting the error, the source goes on to read the status of the missing response and throws. The model stops at the reported transport error.
- OrgAgent.UpdateAsWritten: on a transport error it reports the error and does not model the second throw that follows it, for the reason above.
- `removeUser`'s extra `id` and `userId` options: the client ignores them, so they are not in the descriptor.
- The `USER_API` environment variable: the host is a parameter of every descriptor.
- The avatar resolver, the Markdown renderer, the feature-flag lookup, `utils.stackToString` and view rendering: each is a function parameter, a boolean or a string input. The model checks the character class directly instead of going through the validation library.
- Logging (`bole`, `request.logger`) and the TTL caching inside the package list collaborator: the TTLs appear only as the values passed to it.
- JavaScript numbers are modelled as integers, so `String(n)` on a fractional number is not modelled. Property reads cover an object's own data fields only. The one built-in the core reads is `users.items.map` in `get`; the model covers it by requiring `items` to be an array, and any other users page makes `get` fail with a TypeError.
- Calling `Org(bearer)` without `new`: it builds the same agent, so only the constructor is modelled. A non-string bearer or name fails the source's assertions; the model rules these out by typing them as `string`.
- handlers/enterprise-trial-signup.js is not part of this model. It is I/O orchestration over HubSpot, the customer agent, trial creation and email.

## Findings

| source | as written | input that shows it | evidently intended | confidence | as-written member | corrected member |
|---|---|---|---|---|---|---|
| agents/org.js:128-131 | `update`'s fallback builds `new Error(body)` but the response body is the parameter `org`; `body` is undeclared, so the handler throws a ReferenceError and never calls back | a response with status 500 to `update` (`OrgAgent.UpdateFallbackLost`) | report `Error(org)` with `statusCode` 500 to the callback | high; not executed | `OrgAgent.UpdateAsWritten` | `OrgAgent.UpdateResult` |
