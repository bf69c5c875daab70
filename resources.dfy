/** The provider's resource shapes (src/types.ts), reduced to the fields the
    connector reads. Numeric ids are non-negative integers. */
module Resources {
  import opened Wrappers

  datatype Link = Link(href: string, rel: Option<string>)

  predicate IsSelf(l: Link)
  {
    l.rel == Some("self")
  }

  /** `links.find((link) => link.rel === 'self')?.href`: the href of the first
      self link, or nothing when there is none. */
  function SelfHref(links: seq<Link>): (h: Option<string>)
    ensures h.None? <==> forall i :: 0 <= i < |links| ==> !IsSelf(links[i])
    ensures h.Some? ==> exists i :: 0 <= i < |links| && IsSelf(links[i]) && links[i].href == h.value
                                    && forall j :: 0 <= j < i ==> !IsSelf(links[j])
  {
    if links == [] then None
    else if IsSelf(links[0]) then Some(links[0].href)
    else
      var h := SelfHref(links[1..]);
      assert forall i :: 0 < i < |links| ==> links[i] == links[1..][i - 1];
      if h.Some? then
        var k :| 0 <= k < |links[1..]| && IsSelf(links[1..][k]) && links[1..][k].href == h.value
                 && forall j :: 0 <= j < k ==> !IsSelf(links[1..][j]);
        assert IsSelf(links[k + 1]) && links[k + 1].href == h.value;
        assert forall j :: 0 <= j < k + 1 ==> !IsSelf(links[j]);
        h
      else h
  }

  datatype AccountResource = AccountResource(user: string, links: seq<Link>)

  datatype UserResource = UserResource(id: nat, login: string, email: string, links: seq<Link>)

  datatype SiteResource = SiteResource(id: nat, name: string, siteType: string, importance: string,
                                       assets: int, links: seq<Link>)

  datatype ScanResource = ScanResource(id: nat, siteId: nat, scanName: string, status: string, links: seq<Link>)

  /** `asset.vulnerabilities`, each count possibly absent. */
  datatype VulnSummary = VulnSummary(critical: Option<nat>, severe: Option<nat>, moderate: Option<nat>)

  datatype HistoryEntry = HistoryEntry(date: Option<string>)

  datatype AssetResource = AssetResource(
    id: nat,
    hostName: Option<string>,
    ip: Option<string>,
    links: seq<Link>,
    vulnerabilities: Option<VulnSummary>,
    family: Option<string>,   // osFingerprint?.family
    history: seq<HistoryEntry>)

  /** A vulnerability finding of one asset (InsightVmAssetVulnerability). */
  datatype AssetFinding = AssetFinding(id: string, status: string)
}
