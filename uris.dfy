/**
 * Resource addresses in the Waldur REST API: `<api url>/api/<kind>/<uuid>/`,
 * and the inverse that reads the identifier back out of such an address.
 */
module Uris {
  import opened Wrappers

  const ProjectsKind := "projects"
  const OfferingsKind := "marketplace-public-offerings"
  const FlavorsKind := "openstack-flavors"
  const ImagesKind := "openstack-images"
  const VolumeTypesKind := "openstack-volume-types"
  const SubnetsKind := "openstack-subnets"
  const SecurityGroupsKind := "openstack-security-groups"
  const ResourcesKind := "marketplace-resources"

  /** Everything in front of the identifier. */
  function CollectionPrefix(apiUrl: string, kind: string): string {
    apiUrl + "/api/" + kind + "/"
  }

  function ResourceUri(apiUrl: string, kind: string, id: string): (uri: string)
    ensures |uri| == |CollectionPrefix(apiUrl, kind)| + |id| + 1
  {
    CollectionPrefix(apiUrl, kind) + id + "/"
  }

  /** The identifier an address names, if it is an address in the `kind` collection. */
  function IdOfUri(uri: string, apiUrl: string, kind: string): Option<string> {
    var prefix := CollectionPrefix(apiUrl, kind);
    if |prefix| < |uri| && uri[..|prefix|] == prefix && uri[|uri| - 1] == '/'
    then Some(uri[|prefix|..|uri| - 1])
    else None
  }

  lemma UriRoundTrip(apiUrl: string, kind: string, id: string)
    ensures IdOfUri(ResourceUri(apiUrl, kind, id), apiUrl, kind) == Some(id)
  {
  }

  /** Every address `IdOfUri` accepts is the one `ResourceUri` builds. */
  lemma UriOfId(uri: string, apiUrl: string, kind: string)
    requires IdOfUri(uri, apiUrl, kind).Some?
    ensures uri == ResourceUri(apiUrl, kind, IdOfUri(uri, apiUrl, kind).value)
  {
  }

  /** Within one collection, distinct identifiers give distinct addresses. */
  lemma UriInjective(apiUrl: string, kind: string, a: string, b: string)
    ensures ResourceUri(apiUrl, kind, a) == ResourceUri(apiUrl, kind, b) ==> a == b
  {
    UriRoundTrip(apiUrl, kind, a);
    UriRoundTrip(apiUrl, kind, b);
  }
}
