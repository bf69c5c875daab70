/** The API client of src/client.ts: URL building, the paginated request loop
    over an abstract HTTP layer, the per-resource iteration, the rewrite of a
    failed authentication probe, and the assembly of vulnerability details. */
module Client {
  import opened Wrappers
  import opened Text
  import opened Seqs
  import opened Errors
  import opened Resources

  /** paginateEntitiesPerPage */
  const PAGE_SIZE: nat := 10

  /** withBaseUri */
  function WithBaseUri(host: string, path: string): (uri: string)
    ensures |uri| == |host| + |path| + 15
    ensures StartsWith(uri, "https://" + host + "/api/3/")
    ensures uri[|uri| - |path|..] == path
  {
    "https://" + host + "/api/3/" + path
  }

  /** The endpoint of one page of a listing: `<uri>?page=<n>&size=10`. */
  function PageEndpoint(host: string, uri: string, page: nat): string
  {
    WithBaseUri(host, uri + "?page=" + DecimalString(page) + "&size=" + DecimalString(PAGE_SIZE))
  }

  /** Every page is asked for with size=10 and its own page number. */
  lemma PageEndpointQuery(host: string, uri: string, page: nat)
    ensures PageEndpoint(host, uri, page) == "https://" + host + "/api/3/" + uri + "?page=" + DecimalString(page) + "&size=10"
  {
    assert DecimalString(10) == DecimalString(1) + [DigitChar(0)];
  }

  /** The listings the client walks through paginatedRequest. */
  datatype Listing =
    | Users
    | Sites
    | SiteScans(siteId: string)
    | Scans
    | Assets
    | SiteAssets(siteId: string)
    | AssetUsers(assetId: string)
    | SiteUsers(siteId: string)
    | AssetVulnerabilityFindings(assetId: string)

  function ResourcePath(l: Listing): string
  {
    match l
    case Users => "users"
    case Sites => "sites"
    case SiteScans(id) => "sites/" + id + "/scans"
    case Scans => "scans"
    case Assets => "assets"
    case SiteAssets(id) => "sites/" + id + "/assets"
    case AssetUsers(id) => "assets/" + id + "/users"
    case SiteUsers(id) => "sites/" + id + "/users"
    case AssetVulnerabilityFindings(id) => "assets/" + id + "/vulnerabilities"
  }

  /** What the HTTP layer answers for one page: the response status line and,
      for an ok response, the decoded body's `resources` and `page.totalPages`. */
  datatype PageResponse<T> = PageResponse(http: HttpResponse, resources: seq<T>, totalPages: Option<int>)

  /** The loop condition `body.page?.totalPages && currentPage < totalPages`,
      evaluated after currentPage was incremented to next. */
  predicate HasNextPage(totalPages: Option<int>, next: nat)
  {
    totalPages.Some? && totalPages.value != 0 && next < totalPages.value
  }

  /** No page reports more than bound pages in total. */
  ghost predicate ReportsAtMost<T>(fetch: nat -> PageResponse<T>, bound: nat)
  {
    forall i: nat :: fetch(i).totalPages.Some? ==> fetch(i).totalPages.value <= bound
  }

  /** The pages requested, the resources handed to the page handler (one entry
      per successful page), and the error that ended the walk, if any. */
  datatype Trace<T> = Trace(requested: seq<nat>, delivered: seq<seq<T>>, failure: Option<ApiError>)

  /** The walk of paginatedRequest from page `current` on. */
  function Walk<T>(host: string, uri: string, fetch: nat -> PageResponse<T>, ghost bound: nat, current: nat): (t: Trace<T>)
    requires ReportsAtMost(fetch, bound) && current <= bound
    ensures |t.requested| >= 1 && t.requested[0] == current
    decreases bound - current
  {
    var response := fetch(current);
    match Request(PageEndpoint(host, uri, current), response.http)
    case Err(e) => Trace([current], [], Some(e))
    case Ok(_) =>
      if HasNextPage(response.totalPages, current + 1) then
        var rest := Walk(host, uri, fetch, bound, current + 1);
        Trace([current] + rest.requested, [response.resources] + rest.delivered, rest.failure)
      else
        Trace([current], [response.resources], None)
  }

  /** Pages are requested one after the other from `current` on, and every
      requested page but a failed last one reaches the handler. */
  lemma {:induction false} WalkIsConsecutive<T>(host: string, uri: string, fetch: nat -> PageResponse<T>, bound: nat, current: nat)
    requires ReportsAtMost(fetch, bound) && current <= bound
    ensures var t := Walk(host, uri, fetch, bound, current);
            && (forall i :: 0 <= i < |t.requested| ==> t.requested[i] == current + i)
            && |t.delivered| == |t.requested| - (if t.failure.Some? then 1 else 0)
    decreases bound - current
  {
    var response := fetch(current);
    if Request(PageEndpoint(host, uri, current), response.http).Ok? && HasNextPage(response.totalPages, current + 1) {
      WalkIsConsecutive(host, uri, fetch, bound, current + 1);
    }
  }

  /** The handler receives, for the i-th page requested, exactly the resources
      of that ok page. */
  lemma {:induction false} WalkDelivers<T>(host: string, uri: string, fetch: nat -> PageResponse<T>, bound: nat, current: nat, i: nat)
    requires ReportsAtMost(fetch, bound) && current <= bound
    requires i < |Walk(host, uri, fetch, bound, current).delivered|
    ensures IsOk(fetch(current + i).http.status)
    ensures Walk(host, uri, fetch, bound, current).delivered[i] == fetch(current + i).resources
    decreases bound - current
  {
    var response := fetch(current);
    if i > 0 {
      WalkDelivers(host, uri, fetch, bound, current + 1, i - 1);
    }
  }

  /** A walk ends in failure exactly when its last request was not ok; the
      error is the one request threw for that page's endpoint. */
  lemma {:induction false} WalkFailsAtLast<T>(host: string, uri: string, fetch: nat -> PageResponse<T>, bound: nat, current: nat)
    requires ReportsAtMost(fetch, bound) && current <= bound
    ensures var t := Walk(host, uri, fetch, bound, current);
            var last := current + |t.requested| - 1;
            && (t.failure.Some? <==> !IsOk(fetch(last).http.status))
            && (t.failure.Some? ==> t.failure == Some(ApiError(ProviderApi, PageEndpoint(host, uri, last), fetch(last).http.status, RawText(fetch(last).http))))
    decreases bound - current
  {
    var response := fetch(current);
    if Request(PageEndpoint(host, uri, current), response.http).Ok? && HasNextPage(response.totalPages, current + 1) {
      WalkFailsAtLast(host, uri, fetch, bound, current + 1);
    }
  }

  /** When every page is ok and reports totalPages = n, the walk from page k
      requests exactly the pages k..n-1 and ends without error. */
  lemma {:induction false} WalkToTotal<T>(host: string, uri: string, fetch: nat -> PageResponse<T>, bound: nat, n: nat, k: nat)
    requires ReportsAtMost(fetch, bound) && k < n <= bound
    requires forall i :: 0 <= i < n ==> IsOk(fetch(i).http.status) && fetch(i).totalPages == Some(n)
    ensures |Walk(host, uri, fetch, bound, k).requested| == n - k
    ensures Walk(host, uri, fetch, bound, k).failure.None?
    decreases n - k
  {
    if k + 1 < n {
      WalkToTotal(host, uri, fetch, bound, n, k + 1);
    }
  }

  /** If every response reports totalPages = n >= 1, exactly the n pages
      0..n-1 are requested, all of them reach the handler, and nothing fails. */
  lemma ExactlyTotalPages<T>(host: string, uri: string, fetch: nat -> PageResponse<T>, bound: nat, n: nat)
    requires ReportsAtMost(fetch, bound) && 1 <= n <= bound
    requires forall i :: 0 <= i < n ==> IsOk(fetch(i).http.status) && fetch(i).totalPages == Some(n)
    ensures var t := Walk(host, uri, fetch, bound, 0);
            && |t.requested| == n && t.failure.None? && |t.delivered| == n
            && (forall i :: 0 <= i < n ==> t.requested[i] == i && t.delivered[i] == fetch(i).resources)
  {
    WalkToTotal(host, uri, fetch, bound, n, 0);
    WalkIsConsecutive(host, uri, fetch, bound, 0);
    forall i | 0 <= i < n
      ensures Walk(host, uri, fetch, bound, 0).delivered[i] == fetch(i).resources
    {
      WalkDelivers(host, uri, fetch, bound, 0, i);
    }
  }

  /** A first page without totalPages, or with totalPages 0, is the only page
      requested. */
  lemma SinglePageWithoutTotal<T>(host: string, uri: string, fetch: nat -> PageResponse<T>, bound: nat)
    requires ReportsAtMost(fetch, bound)
    requires fetch(0).totalPages.None? || fetch(0).totalPages == Some(0)
    ensures Walk(host, uri, fetch, bound, 0).requested == [0]
  {
  }

  /** A failed page is the last one requested: neither it nor any later page
      reaches the handler. */
  lemma FailureEndsWalk<T>(host: string, uri: string, fetch: nat -> PageResponse<T>, bound: nat, k: nat)
    requires ReportsAtMost(fetch, bound)
    requires k in Walk(host, uri, fetch, bound, 0).requested && !IsOk(fetch(k).http.status)
    ensures var t := Walk(host, uri, fetch, bound, 0);
            && k == |t.requested| - 1 && t.failure.Some? && |t.delivered| == k
  {
    var t := Walk(host, uri, fetch, bound, 0);
    WalkIsConsecutive(host, uri, fetch, bound, 0);
    WalkFailsAtLast(host, uri, fetch, bound, 0);
    if k < |t.requested| - 1 && k < |t.delivered| {
      WalkDelivers(host, uri, fetch, bound, 0, k);
    }
  }

  /** paginatedRequest: a do-while loop that asks for page 0 first, hands each
      ok page's resources to the handler, and stops at the first failed request
      or when the last response reports no further page. */
  method PaginatedRequest<T>(host: string, uri: string, fetch: nat -> PageResponse<T>, ghost bound: nat)
    returns (t: Trace<T>)
    requires ReportsAtMost(fetch, bound)
    ensures t == Walk(host, uri, fetch, bound, 0)
  {
    var currentPage: nat := 0;
    var requested: seq<nat> := [];
    var delivered: seq<seq<T>> := [];
    var more := true;
    t := Trace([], [], None);
    while more
      invariant more ==> currentPage <= bound
      invariant more ==> var rest := Walk(host, uri, fetch, bound, currentPage);
                         Walk(host, uri, fetch, bound, 0)
                         == Trace(requested + rest.requested, delivered + rest.delivered, rest.failure)
      invariant !more ==> t == Walk(host, uri, fetch, bound, 0)
      decreases if more then bound - currentPage + 1 else 0
    {
      var endpoint := PageEndpoint(host, uri, currentPage);
      var response := fetch(currentPage);
      ghost var rest := Walk(host, uri, fetch, bound, currentPage);
      requested := requested + [currentPage];
      match Request(endpoint, response.http)
      case Err(e) =>
        t := Trace(requested, delivered, Some(e));
        more := false;
      case Ok(_) =>
        delivered := delivered + [response.resources];
        currentPage := currentPage + 1;
        if HasNextPage(response.totalPages, currentPage) {
          var next := Walk(host, uri, fetch, bound, currentPage);
          assert rest.requested == [currentPage - 1] + next.requested;
        } else {
          t := Trace(requested, delivered, None);
          more := false;
        }
    }
  }

  /** The iterate* methods: walk the listing's pages and call the iteratee on
      every resource of every delivered page, page by page, in order. The
      result is the sequence of resources the iteratee saw, and the error that
      ended the walk, if any. */
  method IterateResources<T>(host: string, listing: Listing, fetch: nat -> PageResponse<T>, ghost bound: nat)
    returns (items: seq<T>, failure: Option<ApiError>)
    requires ReportsAtMost(fetch, bound)
    ensures var t := Walk(host, ResourcePath(listing), fetch, bound, 0);
            items == Flatten(t.delivered) && failure == t.failure
  {
    var t := PaginatedRequest(host, ResourcePath(listing), fetch, bound);
    items := [];
    var p := 0;
    while p < |t.delivered|
      invariant 0 <= p <= |t.delivered|
      invariant items == Flatten(t.delivered[..p])
    {
      var page := t.delivered[p];
      var j := 0;
      while j < |page|
        invariant 0 <= j <= |page|
        invariant items == Flatten(t.delivered[..p]) + page[..j]
      {
        items := items + [page[j]];
        j := j + 1;
        assert page[..j] == page[..j - 1] + [page[j - 1]];
      }
      assert page[..j] == page;
      assert t.delivered[..p + 1] == t.delivered[..p] + [page];
      FlattenSnoc(t.delivered[..p], page);
      p := p + 1;
    }
    assert t.delivered[..p] == t.delivered;
    failure := t.failure;
  }

  /** What a failed request threw: its optional `code` and its message. */
  datatype Thrown = Thrown(code: Option<string>, message: string)

  const SELF_SIGNED_CODE := "DEPTH_ZERO_SELF_SIGNED_CERT"

  /** The certificate guidance that leads the message of a self-signed
      certificate failure (one line of text, ending in a space). Its first
      word is a literal of its own so that the proof of VerifyAuthentication
      can read the first character, which a long literal hides from the
      verifier. */
  const CERTIFICATE_GUIDANCE := "The " + "InsightVM Security Console is using a self-signed certificate. Please follow the Rapid7 guidelines to install a valid TLS certificate: https://docs.rapid7.com/insightvm/managing-the-security-console/#managing-the-https-certificate. We recommend installing a certificate from https://letsencrypt.org/ or a certificate authority you trust. "

  /** The API root that verifyAuthentication probes. */
  function RootApiRoute(host: string): string
  {
    "https://" + host + "/api/3"
  }

  /** `${err.code}` renders an absent code as "undefined". */
  function CodeText(code: Option<string>): string
  {
    if code.Some? then code.value else "undefined"
  }

  function ProbeFailureMessage(host: string, err: Thrown): (m: string)
    ensures StartsWith(m, "Error occurred validating invocation at " + RootApiRoute(host))
  {
    "Error occurred validating invocation at " + RootApiRoute(host)
      + " (code=" + CodeText(err.code) + ", message=" + err.message + ")"
  }

  /** verifyAuthentication: any failure of the root probe becomes a validation
      error naming the route, code and message; a self-signed certificate
      failure additionally leads with the certificate guidance. */
  function VerifyAuthentication(host: string, probe: Option<Thrown>): (r: Result<(), string>)
    ensures r.Ok? <==> probe.None?
    ensures probe.Some? ==>
              var base := ProbeFailureMessage(host, probe.value);
              && |r.error| >= |base|
              && r.error[|r.error| - |base|..] == base
              && (StartsWith(r.error, CERTIFICATE_GUIDANCE) <==> probe.value.code == Some(SELF_SIGNED_CODE))
              && (probe.value.code != Some(SELF_SIGNED_CODE) ==> r.error == base)
              && (probe.value.code == Some(SELF_SIGNED_CODE) ==> r.error == CERTIFICATE_GUIDANCE + base)
  {
    match probe
    case None => Ok(())
    case Some(err) =>
      var base := ProbeFailureMessage(host, err);
      if err.code == Some(SELF_SIGNED_CODE) then
        Err(CERTIFICATE_GUIDANCE + base)
      else
        var lead := "Error occurred validating invocation at " + RootApiRoute(host);
        assert base[..|lead|] == lead;
        assert base[0] == lead[0] == 'E';
        assert CERTIFICATE_GUIDANCE[0] == 'T';
        Err(base)
  }

  /** A decoded list body: its `resources` and `page.totalResources`. */
  datatype ListBody<T> = ListBody(resources: seq<T>, totalResources: Option<int>)

  datatype Exploit = Exploit(title: Option<string>)

  /** A reference resource, reduced to `advisory?.href`. */
  datatype Reference = Reference(advisoryHref: Option<string>)

  /** The text of one solution page: `summary.text` and `steps.text`. */
  datatype Solution = Solution(summary: string, steps: string)

  /** A response of `request` together with what its `.json()` decodes to. */
  datatype Fetched<T> = Fetched(http: HttpResponse, body: T)

  datatype VulnerabilityInformation = VulnerabilityInformation(
    impact: Option<seq<string>>,
    references: Option<seq<Option<string>>>,
    recommendations: Option<string>)

  /** `body?.page?.totalResources > 0`; an absent body or count is not > 0. */
  predicate HasResources<T>(body: Option<ListBody<T>>)
  {
    body.Some? && body.value.totalResources.Some? && body.value.totalResources.value > 0
  }

  /** impact: every exploit's title, `''` for a missing one, when there are
      exploits; undefined otherwise. */
  function Impact(exploits: Option<ListBody<Exploit>>): (r: Option<seq<string>>)
    ensures r.Some? <==> HasResources(exploits)
    ensures r.Some? ==>
              var rs := exploits.value.resources;
              |r.value| == |rs|
              && forall i :: 0 <= i < |rs| ==> r.value[i] == (if rs[i].title.Some? then rs[i].title.value else "")
  {
    if HasResources(exploits) then
      var rs := exploits.value.resources;
      Some(seq(|rs|, i requires 0 <= i < |rs| => if rs[i].title.Some? then rs[i].title.value else ""))
    else None
  }

  /** references: every reference's advisory href (possibly undefined), when
      there are references; undefined otherwise. */
  function References(refs: Option<ListBody<Reference>>): (r: Option<seq<Option<string>>>)
    ensures r.Some? <==> HasResources(refs)
    ensures r.Some? ==>
              var rs := refs.value.resources;
              |r.value| == |rs| && forall i :: 0 <= i < |rs| ==> r.value[i] == rs[i].advisoryHref
  {
    if HasResources(refs) then
      var rs := refs.value.resources;
      Some(seq(|rs|, i requires 0 <= i < |rs| => rs[i].advisoryHref))
    else None
  }

  const RECOMMENDATION_HEADER := "Recommendation(s):"

  function SolutionText(sol: Solution): string
  {
    "\n\n" + sol.summary + "\n\nSteps:\n" + sol.steps
  }

  /** Whether a solution link is fetched and its request throws. */
  predicate SolutionFails(l: Link, fetchSolution: string -> Fetched<Solution>)
  {
    !IsSelf(l) && !IsOk(fetchSolution(l.href).http.status)
  }

  /** The text contributed by the solution links, in order: a self link
      contributes nothing and is not fetched; the first solution request that
      is not ok rejects with the error `request` throws for that link. */
  function SolutionsText(links: seq<Link>, fetchSolution: string -> Fetched<Solution>): Result<string, ApiError>
  {
    if links == [] then Ok("")
    else
      var last := links[|links| - 1];
      match SolutionsText(links[..|links| - 1], fetchSolution)
      case Err(e) => Err(e)
      case Ok(text) =>
        if IsSelf(last) then Ok(text)
        else
          var sol := fetchSolution(last.href);
          match Request(last.href, sol.http)
          case Err(e) => Err(e)
          case Ok(_) => Ok(text + SolutionText(sol.body))
  }

  /** Once a prefix of the links has failed, the rest are never fetched. */
  lemma {:induction false} SolutionFailureIsFinal(links: seq<Link>, fetchSolution: string -> Fetched<Solution>, i: nat)
    requires i <= |links| && SolutionsText(links[..i], fetchSolution).Err?
    ensures SolutionsText(links, fetchSolution) == SolutionsText(links[..i], fetchSolution)
  {
    if i < |links| {
      var init := links[..|links| - 1];
      assert init[..i] == links[..i];
      SolutionFailureIsFinal(init, fetchSolution, i);
    } else {
      assert links[..i] == links;
    }
  }

  /** The solution links reject exactly when some fetched link's request is
      not ok, and then with the error of the first such link. */
  lemma {:induction false} SolutionsFailAtFirst(links: seq<Link>, fetchSolution: string -> Fetched<Solution>)
    ensures SolutionsText(links, fetchSolution).Err?
            <==> exists i :: 0 <= i < |links| && SolutionFails(links[i], fetchSolution)
    ensures SolutionsText(links, fetchSolution).Err? ==>
              exists i :: 0 <= i < |links| && SolutionFails(links[i], fetchSolution)
                          && (forall j :: 0 <= j < i ==> !SolutionFails(links[j], fetchSolution))
                          && SolutionsText(links, fetchSolution).error
                             == RequestError(links[i].href, fetchSolution(links[i].href).http)
  {
    if links != [] {
      var init, last := links[..|links| - 1], links[|links| - 1];
      SolutionsFailAtFirst(init, fetchSolution);
      if SolutionsText(init, fetchSolution).Err? {
        var i :| 0 <= i < |init| && SolutionFails(init[i], fetchSolution)
                 && (forall j :: 0 <= j < i ==> !SolutionFails(init[j], fetchSolution))
                 && SolutionsText(init, fetchSolution).error
                    == RequestError(init[i].href, fetchSolution(init[i].href).http);
        assert links[i] == init[i];
        assert forall j :: 0 <= j < i ==> links[j] == init[j];
      } else {
        assert forall j :: 0 <= j < |init| ==> links[j] == init[j];
        if SolutionFails(last, fetchSolution) {
          assert SolutionFails(links[|links| - 1], fetchSolution);
        } else {
          forall i | 0 <= i < |links|
            ensures !SolutionFails(links[i], fetchSolution)
          {
            if i < |init| {
              assert links[i] == init[i];
            }
          }
        }
      }
    }
  }

  /** The links that are not self links, in order. */
  function NonSelf(links: seq<Link>): (r: seq<Link>)
    ensures forall i :: 0 <= i < |r| ==> !IsSelf(r[i]) && r[i] in links
  {
    if links == [] then []
    else
      var last := links[|links| - 1];
      NonSelf(links[..|links| - 1]) + (if IsSelf(last) then [] else [last])
  }

  /** Self links make no difference to the recommendations text. */
  lemma {:induction false} SelfLinksSkipped(links: seq<Link>, fetchSolution: string -> Fetched<Solution>)
    ensures SolutionsText(links, fetchSolution) == SolutionsText(NonSelf(links), fetchSolution)
  {
    if links != [] {
      var init, last := links[..|links| - 1], links[|links| - 1];
      SelfLinksSkipped(init, fetchSolution);
      if IsSelf(last) {
        assert NonSelf(links) == NonSelf(init);
      } else {
        var ns := NonSelf(init) + [last];
        assert NonSelf(links) == ns;
        assert ns[..|ns| - 1] == NonSelf(init) && ns[|ns| - 1] == last;
      }
    }
  }

  /** The recommendations: absent unless the solutions body has at least one
      link; then the header followed by each non-self solution's text, or the
      rejection of the first solution request that fails. */
  function RecommendationsOf(solutions: Option<seq<Link>>, fetchSolution: string -> Fetched<Solution>)
    : (r: Result<Option<string>, ApiError>)
    ensures r.Err? ==> solutions.Some? && SolutionsText(solutions.value, fetchSolution).Err?
    ensures r.Ok? ==> (r.value.Some? <==> solutions.Some? && |solutions.value| > 0)
    ensures r.Ok? && r.value.Some? ==> StartsWith(r.value.value, RECOMMENDATION_HEADER)
  {
    if solutions.Some? && |solutions.value| > 0 then
      match SolutionsText(solutions.value, fetchSolution)
      case Err(e) => Err(e)
      case Ok(text) => Ok(Some(RECOMMENDATION_HEADER + text))
    else Ok(None)
  }

  /** The `recommendations` closure: a loop that appends the text of every
      non-self solution link to the header, and rethrows the first failed
      solution request. */
  method Recommendations(solutions: Option<seq<Link>>, fetchSolution: string -> Fetched<Solution>)
    returns (r: Result<Option<string>, ApiError>)
    ensures r == RecommendationsOf(solutions, fetchSolution)
  {
    if solutions.Some? && |solutions.value| > 0 {
      var links := solutions.value;
      var text := "";
      var i := 0;
      while i < |links|
        invariant 0 <= i <= |links|
        invariant SolutionsText(links[..i], fetchSolution) == Ok(text)
      {
        assert links[..i + 1][..i] == links[..i];
        if !IsSelf(links[i]) {
          var sol := fetchSolution(links[i].href);
          var response := Request(links[i].href, sol.http);
          if response.Err? {
            SolutionFailureIsFinal(links, fetchSolution, i + 1);
            return Err(response.error);
          }
          text := text + SolutionText(sol.body);
        }
        i := i + 1;
      }
      assert links[..i] == links;
      return Ok(Some(RECOMMENDATION_HEADER + text));
    }
    return Ok(None);
  }

  /** `withBaseUri(`vulnerabilities/<id>/<what>`)`. */
  function VulnerabilityEndpoint(host: string, vulnerabilityId: string, what: string): string
  {
    WithBaseUri(host, "vulnerabilities/" + vulnerabilityId + "/" + what)
  }

  /** getVulnerabilityInformation: the exploits, references and solutions are
      requested in that order, the first request that is not ok rejects the
      call, and otherwise the result holds the impact, the references and the
      recommendations (whose own solution requests may still reject). */
  function VulnerabilityInformationOf(
    host: string, vulnerabilityId: string,
    exploits: Fetched<Option<ListBody<Exploit>>>,
    refs: Fetched<Option<ListBody<Reference>>>,
    solutions: Fetched<Option<seq<Link>>>,
    fetchSolution: string -> Fetched<Solution>)
    : (r: Result<VulnerabilityInformation, ApiError>)
    ensures !IsOk(exploits.http.status) ==>
              r == Err(RequestError(VulnerabilityEndpoint(host, vulnerabilityId, "exploits"), exploits.http))
    ensures IsOk(exploits.http.status) && !IsOk(refs.http.status) ==>
              r == Err(RequestError(VulnerabilityEndpoint(host, vulnerabilityId, "references"), refs.http))
    ensures IsOk(exploits.http.status) && IsOk(refs.http.status) && !IsOk(solutions.http.status) ==>
              r == Err(RequestError(VulnerabilityEndpoint(host, vulnerabilityId, "solutions"), solutions.http))
    ensures r.Ok? <==> IsOk(exploits.http.status) && IsOk(refs.http.status) && IsOk(solutions.http.status)
                       && RecommendationsOf(solutions.body, fetchSolution).Ok?
    ensures r.Ok? ==> r.value.impact == Impact(exploits.body) && r.value.references == References(refs.body)
                      && r.value.recommendations == RecommendationsOf(solutions.body, fetchSolution).value
  {
    if !IsOk(exploits.http.status) then
      Err(RequestError(VulnerabilityEndpoint(host, vulnerabilityId, "exploits"), exploits.http))
    else if !IsOk(refs.http.status) then
      Err(RequestError(VulnerabilityEndpoint(host, vulnerabilityId, "references"), refs.http))
    else if !IsOk(solutions.http.status) then
      Err(RequestError(VulnerabilityEndpoint(host, vulnerabilityId, "solutions"), solutions.http))
    else
      match RecommendationsOf(solutions.body, fetchSolution)
      case Err(e) => Err(e)
      case Ok(rec) => Ok(VulnerabilityInformation(Impact(exploits.body), References(refs.body), rec))
  }

  /** getVulnerabilityInformation over the three responses of the
      vulnerability's endpoints; fetchSolution stands for the request of one
      solution link. */
  method GetVulnerabilityInformation(
    host: string, vulnerabilityId: string,
    exploits: Fetched<Option<ListBody<Exploit>>>,
    refs: Fetched<Option<ListBody<Reference>>>,
    solutions: Fetched<Option<seq<Link>>>,
    fetchSolution: string -> Fetched<Solution>)
    returns (r: Result<VulnerabilityInformation, ApiError>)
    ensures r == VulnerabilityInformationOf(host, vulnerabilityId, exploits, refs, solutions, fetchSolution)
  {
    var e := Request(VulnerabilityEndpoint(host, vulnerabilityId, "exploits"), exploits.http);
    if e.Err? {
      return Err(e.error);
    }
    var f := Request(VulnerabilityEndpoint(host, vulnerabilityId, "references"), refs.http);
    if f.Err? {
      return Err(f.error);
    }
    var s := Request(VulnerabilityEndpoint(host, vulnerabilityId, "solutions"), solutions.http);
    if s.Err? {
      return Err(s.error);
    }
    var recommendations := Recommendations(solutions.body, fetchSolution);
    if recommendations.Err? {
      return Err(recommendations.error);
    }
    r := Ok(VulnerabilityInformation(Impact(exploits.body), References(refs.body), recommendations.value));
  }
}
