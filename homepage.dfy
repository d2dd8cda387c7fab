/**
 * The homepage handler: a fan-out over package lists, the explicit-installs
 * payload and, unless the `npmo` flag is on, download totals and the package
 * count. The package count's failure is logged and replaced by `null`; any
 * other branch's failure fails the page.
 */
module Homepage {
  import opened JsValue
  import opened Http

  const Minute := 60
  const ModifiedTtl := 1 * Minute
  const DependentsTtl := 30 * Minute
  const ListCount := 12
  const HomepageView := "homepage"

  /** The keys of the handler's `actions` object, in the order it fills them. */
  datatype Branch = Modified | Dependents | Explicit | Downloads | TotalPackages

  /** What each branch asks a collaborator for. */
  datatype Action =
    | ListPackages(sort: string, count: int, ttl: int)
    | ExplicitInstalls
    | AllDownloads
    | CountPackages

  /** The `actions` object; the flag is read once, before any branch starts. */
  function Actions(npmo: bool): (a: map<Branch, Action>)
    ensures Modified in a && a[Modified] == ListPackages("modified", ListCount, 60)
    ensures Dependents in a && a[Dependents] == ListPackages("dependents", ListCount, 1800)
    ensures Explicit in a && a[Explicit] == ExplicitInstalls
    ensures Downloads in a <==> !npmo
    ensures TotalPackages in a <==> !npmo
    ensures Downloads in a ==> a[Downloads] == AllDownloads
    ensures TotalPackages in a ==> a[TotalPackages] == CountPackages
  {
    var always := map[
      Modified := ListPackages("modified", ListCount, ModifiedTtl),
      Dependents := ListPackages("dependents", ListCount, DependentsTtl),
      Explicit := ExplicitInstalls];
    if npmo then always else always[Downloads := AllDownloads][TotalPackages := CountPackages]
  }

  /** How each branch would settle if it were started. */
  datatype Outcomes = Outcomes(
    modified: Result<Value>,
    dependents: Result<Value>,
    explicit: Result<Value>,
    downloads: Result<Value>,
    totalPackages: Result<Value>)

  function OutcomeOf(o: Outcomes, b: Branch): Result<Value> {
    match b
    case Modified => o.modified
    case Dependents => o.dependents
    case Explicit => o.explicit
    case Downloads => o.downloads
    case TotalPackages => o.totalPackages
  }

  /** A branch after its own error handling: only the package count turns a failure into `null`. */
  function Settled(o: Outcomes, b: Branch): (r: Result<Value>)
    ensures b == TotalPackages ==> r.Ok?
    ensures b == TotalPackages && o.totalPackages.Fail? ==> r == Ok(Null)
    ensures b != TotalPackages || o.totalPackages.Ok? ==> r == OutcomeOf(o, b)
  {
    if b == TotalPackages && o.totalPackages.Fail? then Ok(Null) else OutcomeOf(o, b)
  }

  /** The started branches in the order the handler creates them. */
  function Started(npmo: bool): (bs: seq<Branch>)
    ensures forall b :: b in bs <==> b in Actions(npmo)
  {
    if npmo then [Modified, Dependents, Explicit]
    else [Modified, Dependents, Explicit, Downloads, TotalPackages]
  }

  /** The first started branch that failed, if any. */
  function FirstFailure(o: Outcomes, bs: seq<Branch>): (r: Option<Failure>)
    ensures r.None? <==> forall i :: 0 <= i < |bs| ==> Settled(o, bs[i]).Ok?
    ensures r.Some? ==> exists i :: 0 <= i < |bs| && Settled(o, bs[i]) == Fail(r.value)
    decreases |bs|
  {
    if bs == [] then None
    else if Settled(o, bs[0]).Fail? then Some(Settled(o, bs[0]).error)
    else
      var rest := FirstFailure(o, bs[1..]);
      assert forall i :: 1 <= i < |bs| ==> bs[i] == bs[1..][i - 1];
      assert rest.Some? ==> exists i :: 1 <= i < |bs| && Settled(o, bs[i]) == Fail(rest.value);
      rest
  }

  /** What the handler ends with: the homepage view, or `reply(err)`. */
  datatype Reply = View(template: string, context: map<string, Value>) | ReplyError(error: Failure)

  /** `results[key]` of the settled `actions`: `undefined` for a branch that was not started. */
  function ResultOf(npmo: bool, o: Outcomes, b: Branch): Value
    requires b in Actions(npmo) ==> Settled(o, b).Ok?
  {
    if b in Actions(npmo) then Settled(o, b).value else Undefined
  }

  /**
   * The whole handler, with each branch's settlement as an input. Which
   * failing branch's error is reported depends on timing; this model reports
   * the first in creation order.
   */
  function Handle(npmo: bool, o: Outcomes): (r: Reply)
    ensures r.ReplyError? <==> exists b :: b in Actions(npmo) && b != TotalPackages && OutcomeOf(o, b).Fail?
    ensures r.ReplyError? ==> exists b :: b in Actions(npmo) && b != TotalPackages && OutcomeOf(o, b) == Fail(r.error)
    ensures r.View? ==> o.modified.Ok? && o.dependents.Ok? && o.explicit.Ok? && (!npmo ==> o.downloads.Ok?)
    ensures r.View? ==> r.template == HomepageView
    ensures r.View? ==> r.context.Keys == {"explicit", "modified", "dependents", "downloads", "totalPackages"}
    ensures r.View? ==> r.context["explicit"] == o.explicit.value
    ensures r.View? ==> r.context["modified"] == o.modified.value
    ensures r.View? ==> r.context["dependents"] == o.dependents.value
    ensures r.View? && npmo ==> r.context["downloads"] == Undefined && r.context["totalPackages"] == Undefined
    ensures r.View? && !npmo ==> r.context["downloads"] == o.downloads.value
    ensures r.View? && !npmo ==>
      r.context["totalPackages"] == (if o.totalPackages.Fail? then Null else o.totalPackages.value)
  {
    var bs := Started(npmo);
    match FirstFailure(o, bs)
    case Some(e) => ReplyError(e)
    case None =>
      assert forall b :: b in Actions(npmo) ==> Settled(o, b).Ok?;
      View(HomepageView, map[
        "explicit" := ResultOf(npmo, o, Explicit),
        "modified" := ResultOf(npmo, o, Modified),
        "dependents" := ResultOf(npmo, o, Dependents),
        "downloads" := ResultOf(npmo, o, Downloads),
        "totalPackages" := ResultOf(npmo, o, TotalPackages)])
  }

  /** The package count never decides whether the page renders. */
  lemma TotalPackagesNonFatal(npmo: bool, o: Outcomes, count: Result<Value>)
    ensures Handle(npmo, o).View? <==> Handle(npmo, o.(totalPackages := count)).View?
  {
  }

  /** The first failure among some branches depends on those branches' settlements alone. */
  lemma {:induction false} FirstFailureLocal(o: Outcomes, p: Outcomes, bs: seq<Branch>)
    requires forall i :: 0 <= i < |bs| ==> Settled(o, bs[i]) == Settled(p, bs[i])
    ensures FirstFailure(o, bs) == FirstFailure(p, bs)
    decreases |bs|
  {
    if bs != [] {
      FirstFailureLocal(o, p, bs[1..]);
    }
  }

  /** With `npmo` on, the download and count branches are never consulted. */
  lemma NpmoSkipsBranches(o: Outcomes, downloads: Result<Value>, count: Result<Value>)
    ensures Handle(true, o) == Handle(true, o.(downloads := downloads, totalPackages := count))
  {
    FirstFailureLocal(o, o.(downloads := downloads, totalPackages := count), Started(true));
  }

  /** A failing download branch fails the page when it runs, unlike the count branch. */
  lemma DownloadsFatal(o: Outcomes, e: Failure)
    ensures Handle(false, o.(downloads := Fail(e))).ReplyError?
    ensures Handle(true, o.(downloads := Fail(e))).ReplyError? <==> Handle(true, o).ReplyError?
  {
  }
}
