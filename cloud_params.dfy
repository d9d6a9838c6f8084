/** The wire form of a cloud definition and the two converters between it
    and the controller's own cloud record. */
module CloudParams {

  /** An authentication type; the wire form carries it as a plain string. */
  datatype AuthType = AuthType(value: string)

  /** A region of a cloud, in the controller's own record. */
  datatype Region = Region(name: string, endpoint: string, identityEndpoint: string, storageEndpoint: string)

  /** The controller's own record of a cloud. */
  datatype Cloud = Cloud(
    name: string, cloudType: string, authTypes: seq<AuthType>,
    endpoint: string, identityEndpoint: string, storageEndpoint: string,
    regions: seq<Region>)

  /** A region as sent over the API. */
  datatype ParamsRegion = ParamsRegion(name: string, endpoint: string, identityEndpoint: string, storageEndpoint: string)

  /** A cloud as sent over the API; it has no name of its own. */
  datatype ParamsCloud = ParamsCloud(
    cloudType: string, authTypes: seq<string>,
    endpoint: string, identityEndpoint: string, storageEndpoint: string,
    regions: seq<ParamsRegion>)

  function RegionToParams(r: Region): ParamsRegion
  {
    ParamsRegion(r.name, r.endpoint, r.identityEndpoint, r.storageEndpoint)
  }

  function RegionFromParams(r: ParamsRegion): Region
  {
    Region(r.name, r.endpoint, r.identityEndpoint, r.storageEndpoint)
  }

  /** What `CloudToParams` computes: every field copied, arrays element by
      element in their order. */
  function ParamsOf(c: Cloud): (p: ParamsCloud)
    ensures |p.authTypes| == |c.authTypes| && |p.regions| == |c.regions|
    ensures forall i :: 0 <= i < |c.authTypes| ==> p.authTypes[i] == c.authTypes[i].value
    ensures forall i :: 0 <= i < |c.regions| ==>
      && p.regions[i].name == c.regions[i].name
      && p.regions[i].endpoint == c.regions[i].endpoint
      && p.regions[i].identityEndpoint == c.regions[i].identityEndpoint
      && p.regions[i].storageEndpoint == c.regions[i].storageEndpoint
    ensures p.cloudType == c.cloudType && p.endpoint == c.endpoint
    ensures p.identityEndpoint == c.identityEndpoint && p.storageEndpoint == c.storageEndpoint
  {
    ParamsCloud(c.cloudType,
      seq(|c.authTypes|, i requires 0 <= i < |c.authTypes| => c.authTypes[i].value),
      c.endpoint, c.identityEndpoint, c.storageEndpoint,
      seq(|c.regions|, i requires 0 <= i < |c.regions| => RegionToParams(c.regions[i])))
  }

  /** What `CloudFromParams` computes: the name is the one given, the rest
      is copied field by field and element by element. */
  function CloudOf(cloudName: string, p: ParamsCloud): (c: Cloud)
    ensures c.name == cloudName
    ensures |c.authTypes| == |p.authTypes| && |c.regions| == |p.regions|
    ensures forall i :: 0 <= i < |p.authTypes| ==> c.authTypes[i].value == p.authTypes[i]
    ensures forall i :: 0 <= i < |p.regions| ==>
      && c.regions[i].name == p.regions[i].name
      && c.regions[i].endpoint == p.regions[i].endpoint
      && c.regions[i].identityEndpoint == p.regions[i].identityEndpoint
      && c.regions[i].storageEndpoint == p.regions[i].storageEndpoint
    ensures c.cloudType == p.cloudType && c.endpoint == p.endpoint
    ensures c.identityEndpoint == p.identityEndpoint && c.storageEndpoint == p.storageEndpoint
  {
    Cloud(cloudName, p.cloudType,
      seq(|p.authTypes|, i requires 0 <= i < |p.authTypes| => AuthType(p.authTypes[i])),
      p.endpoint, p.identityEndpoint, p.storageEndpoint,
      seq(|p.regions|, i requires 0 <= i < |p.regions| => RegionFromParams(p.regions[i])))
  }

  /** `CloudToParams`: fills the two arrays index by index. */
  method CloudToParams(c: Cloud) returns (p: ParamsCloud)
    ensures p == ParamsOf(c)
  {
    var authTypes := new string[|c.authTypes|];
    for i := 0 to |c.authTypes|
      invariant forall j :: 0 <= j < i ==> authTypes[j] == c.authTypes[j].value
    {
      authTypes[i] := c.authTypes[i].value;
    }
    var authTypeSeq := authTypes[..];
    assert authTypeSeq == ParamsOf(c).authTypes;
    var regions := new ParamsRegion[|c.regions|];
    for i := 0 to |c.regions|
      invariant forall j :: 0 <= j < i ==> regions[j] == RegionToParams(c.regions[j])
    {
      var region := c.regions[i];
      regions[i] := ParamsRegion(region.name, region.endpoint, region.identityEndpoint, region.storageEndpoint);
    }
    assert regions[..] == ParamsOf(c).regions;
    p := ParamsCloud(c.cloudType, authTypeSeq, c.endpoint, c.identityEndpoint, c.storageEndpoint, regions[..]);
  }

  /** `CloudFromParams`: fills the two arrays index by index. */
  method CloudFromParams(cloudName: string, p: ParamsCloud) returns (c: Cloud)
    ensures c == CloudOf(cloudName, p)
  {
    var authTypes := new AuthType[|p.authTypes|];
    for i := 0 to |p.authTypes|
      invariant forall j :: 0 <= j < i ==> authTypes[j] == AuthType(p.authTypes[j])
    {
      authTypes[i] := AuthType(p.authTypes[i]);
    }
    var authTypeSeq := authTypes[..];
    assert authTypeSeq == CloudOf(cloudName, p).authTypes;
    var regions := new Region[|p.regions|];
    for i := 0 to |p.regions|
      invariant forall j :: 0 <= j < i ==> regions[j] == RegionFromParams(p.regions[j])
    {
      var region := p.regions[i];
      regions[i] := Region(region.name, region.endpoint, region.identityEndpoint, region.storageEndpoint);
    }
    assert regions[..] == CloudOf(cloudName, p).regions;
    c := Cloud(cloudName, p.cloudType, authTypeSeq, p.endpoint, p.identityEndpoint, p.storageEndpoint, regions[..]);
  }

  /** Converting from the wire form and back gives the wire form again,
      whatever name is chosen. */
  lemma ParamsRoundTrip(cloudName: string, p: ParamsCloud)
    ensures ParamsOf(CloudOf(cloudName, p)) == p
  {
    var q := ParamsOf(CloudOf(cloudName, p));
    assert q.authTypes == p.authTypes;
    assert q.regions == p.regions;
  }

  /** Converting to the wire form and back under the cloud's own name gives
      the cloud again. */
  lemma CloudRoundTrip(c: Cloud)
    ensures CloudOf(c.name, ParamsOf(c)) == c
  {
    var d := CloudOf(c.name, ParamsOf(c));
    assert d.authTypes == c.authTypes;
    assert d.regions == c.regions;
  }

  /** The wire form forgets the name: two clouds that differ only in name
      are sent alike. */
  lemma ParamsForgetName(c: Cloud, name: string)
    ensures ParamsOf(c.(name := name)) == ParamsOf(c)
  {
  }
}
