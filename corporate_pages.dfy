/**
 * Corporate content pages: a page name is checked against the character
 * class `[a-zA-Z0-9-_]+`, turned into the raw-content URL of a Markdown file
 * in one of npm's GitHub repositories, and the fetched text is rendered to
 * HTML, except that the literal body "Not Found" becomes the error.
 */
module CorporatePages {
  import opened JsValue
  import opened Http

  const RawHost := "https://raw.githubusercontent.com/"
  const GitHubOrg := "npm"
  const Branch := "master"
  const StaticPagesRepo := "static-pages"
  const PoliciesRepo := "policies"
  const NotFoundBody := "Not Found"

  /** The characters the name pattern admits: ASCII letters, digits, `-` and `_`. */
  predicate NameChar(c: char) {
    ('a' <= c <= 'z') || ('A' <= c <= 'Z') || ('0' <= c <= '9') || c == '-' || c == '_'
  }

  /** The pattern matched left to right, one character at a time. */
  function AllNameChars(s: string): bool
    decreases |s|
  {
    s == [] || (NameChar(s[0]) && AllNameChars(s[1..]))
  }

  /** `^[a-zA-Z0-9-_]+$`: at least one character, each in the class. */
  function MatchesNamePattern(s: string): (ok: bool)
    ensures ok <==> |s| > 0 && forall i :: 0 <= i < |s| ==> NameChar(s[i])
  {
    AllNameCharsSpec(s);
    |s| > 0 && AllNameChars(s)
  }

  lemma {:induction false} AllNameCharsSpec(s: string)
    ensures AllNameChars(s) <==> forall i :: 0 <= i < |s| ==> NameChar(s[i])
    decreases |s|
  {
    if s != [] {
      AllNameCharsSpec(s[1..]);
      assert forall i :: 1 <= i < |s| ==> s[i] == s[1..][i - 1];
    }
  }

  /** What the string-with-pattern schema makes of a name. */
  datatype NameCheck = Accepted(segment: string) | Rejected

  /**
   * The schema accepts a string matching the pattern, and also an absent
   * name (an optional schema lets `undefined` through, which the format
   * string then renders as "undefined"); everything else is rejected.
   */
  function CheckName(name: Value): (r: NameCheck)
    ensures name.Str? ==> (r.Accepted? <==> |name.s| > 0 && forall i :: 0 <= i < |name.s| ==> NameChar(name.s[i]))
    ensures name.Str? && r.Accepted? ==> r.segment == name.s
    ensures name.Undefined? ==> r == Accepted("undefined")
    ensures !name.Str? && !name.Undefined? ==> r == Rejected
  {
    match name
    case Str(s) => if MatchesNamePattern(s) then Accepted(s) else Rejected
    case Undefined => Accepted("undefined")
    case _ => Rejected
  }

  function RepoPrefix(repo: string): string {
    RawHost + GitHubOrg + "/" + repo + "/" + Branch + "/"
  }

  /** `https://raw.githubusercontent.com/npm/<repo>/master/<name>.md` */
  function PageUrl(repo: string, segment: string): (url: string)
    ensures |url| == |RepoPrefix(repo)| + |segment| + 3
    ensures url[..|RepoPrefix(repo)|] == RepoPrefix(repo)
    ensures url[|RepoPrefix(repo)|..|url| - 3] == segment
    ensures url[|url| - 3..] == ".md"
  {
    RepoPrefix(repo) + segment + ".md"
  }

  /** The page name a URL of `repo` addresses: the inverse of `PageUrl`. */
  function SegmentOf(repo: string, url: string): string
    requires |url| >= |RepoPrefix(repo)| + 3
  {
    url[|RepoPrefix(repo)|..|url| - 3]
  }

  /** Building the URL loses nothing, so distinct names fetch distinct files. */
  lemma PageUrlRoundTrip(repo: string, a: string, b: string)
    ensures SegmentOf(repo, PageUrl(repo, a)) == a
    ensures PageUrl(repo, a) == PageUrl(repo, b) ==> a == b
  {
  }

  /** An accepted string name cannot leave the repository's directory: it holds no `/` and no `.`. */
  lemma AcceptedNameStaysInRepo(name: string)
    requires CheckName(Str(name)).Accepted?
    ensures forall i :: 0 <= i < |name| ==> name[i] != '/' && name[i] != '.'
  {
  }

  /** What the raw-content fetch reports: the client's error, if any, and the body it got. */
  datatype Fetched = Fetched(err: Option<TransportError>, content: Value)

  datatype PageError = InvalidName | NotFound | FetchFailed(cause: TransportError)

  /** The `next(err, content)` call a lookup ends with. */
  datatype PageReply = PageReply(err: Option<PageError>, content: Value)

  /** A lookup: the URL it fetched (`None` when it fetched nothing) and its reply. */
  datatype PageLookup = PageLookup(url: Option<string>, reply: PageReply)

  function FetchError(err: Option<TransportError>): (e: Option<PageError>)
    ensures e.None? <==> err.None?
  {
    match err
    case None => None
    case Some(t) => Some(FetchFailed(t))
  }

  /**
   * `getPage(repo)(name, next)`, with the fetch's report and the Markdown
   * renderer as inputs. The response status is never consulted.
   */
  function GetPage(repo: string, name: Value, fetched: Fetched, render: string -> string): (r: PageLookup)
    ensures CheckName(name).Rejected? ==> r == PageLookup(None, PageReply(Some(InvalidName), Null))
    ensures CheckName(name).Accepted? ==> r.url == Some(PageUrl(repo, CheckName(name).segment))
    ensures r.reply.err == Some(NotFound) <==> CheckName(name).Accepted? && fetched.content == Str(NotFoundBody)
    ensures r.reply.err == Some(NotFound) ==> r.reply.content == Null
    ensures CheckName(name).Accepted? && fetched.content.Str? && fetched.content.s != NotFoundBody ==>
      r.reply == PageReply(FetchError(fetched.err), Str(render(fetched.content.s)))
    ensures CheckName(name).Accepted? && !fetched.content.Str? ==>
      r.reply == PageReply(FetchError(fetched.err), fetched.content)
  {
    match CheckName(name)
    case Rejected => PageLookup(None, PageReply(Some(InvalidName), Null))
    case Accepted(segment) =>
      var url := PageUrl(repo, segment);
      if fetched.content == Str(NotFoundBody) then PageLookup(Some(url), PageReply(Some(NotFound), Null))
      else if fetched.content.Str? then PageLookup(Some(url), PageReply(FetchError(fetched.err), Str(render(fetched.content.s))))
      else PageLookup(Some(url), PageReply(FetchError(fetched.err), fetched.content))
  }

  /** The `static` lookup reads the static-pages repository. */
  function StaticPage(name: Value, fetched: Fetched, render: string -> string): (r: PageLookup)
    ensures r.url.Some? ==> "https://raw.githubusercontent.com/npm/static-pages/master/" <= r.url.value
    ensures r.reply == GetPage(StaticPagesRepo, name, fetched, render).reply
  {
    GetPage(StaticPagesRepo, name, fetched, render)
  }

  /** The `policy` lookup reads the policies repository. */
  function PolicyPage(name: Value, fetched: Fetched, render: string -> string): (r: PageLookup)
    ensures r.url.Some? ==> "https://raw.githubusercontent.com/npm/policies/master/" <= r.url.value
    ensures r.reply == GetPage(PoliciesRepo, name, fetched, render).reply
  {
    GetPage(PoliciesRepo, name, fetched, render)
  }
}
