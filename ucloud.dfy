/** The UCloud adapter (src/adapters/ucloud.ts): balance, regions, host instances, disks, images,
    elastic IPs and projects of one account.

    The HTTP endpoint is the `Api` value: for each action, the reply the server gives to a signed
    request. A reply is either a thrown error (network failure, timeout) or a response body with
    its `RetCode`, `Message` and payload list. SHA-1 and `parseFloat` are fields of it too. */
module UCloud {
  import opened Wrappers
  import opened Seqs
  import opened Text
  import opened Types
  import opened Signer

  /** What one call returns: an exception, or a response body. */
  datatype Reply<T> = Thrown(error: string) | Answered(retCode: Option<int>, message: Option<string>, payload: Option<T>)

  /** `data.RetCode === 0`. */
  predicate Ok<T>(reply: Reply<T>) {
    reply.Answered? && reply.retCode == Some(0)
  }

  datatype AccountInfo = AccountInfo(amountAvailable: Option<string>, amount: Option<string>)
  datatype RawRegion = RawRegion(region: Option<string>, zone: Option<string>, isDefault: Option<bool>)
  datatype RawHost = RawHost(uHostId: Option<string>, imageId: Option<string>, name: Option<string>)
  datatype RawDisk = RawDisk(uDiskId: Option<string>, uHostId: Option<string>, hostId: Option<string>)
  datatype RawImage = RawImage(imageId: Option<string>, imageName: Option<string>)
  datatype RawEip = RawEip(eipId: Option<string>, eipAddr: Option<string>)
  datatype RawProject = RawProject(projectId: Option<string>, projectName: Option<string>, userCount: Option<int>)

  datatype Api = Api(
    sha1Hex: string -> string,
    parseFloat: string -> Option<real>,
    getBalance: Record -> Reply<AccountInfo>,
    getRegion: Record -> Reply<seq<RawRegion>>,
    describeUHostInstance: Record -> Reply<seq<RawHost>>,
    describeUDisk: Record -> Reply<seq<RawDisk>>,
    describeImage: Record -> Reply<seq<RawImage>>,
    describeEip: Record -> Reply<seq<RawEip>>,
    listProjects: Record -> Reply<seq<RawProject>>)

  function Request(api: Api, account: Account, action: string, extra: Record): Record {
    BuildRequestParams(account, action, extra, api.sha1Hex)
  }

  /** The payload list of a reply when the call succeeded, and `[]` when it threw, returned a
      non-zero RetCode or carried no list: the fetchers never fail. */
  function ListOrEmpty<T>(reply: Reply<seq<T>>): (r: seq<T>)
    ensures r != [] ==> Ok(reply) && reply.payload.Some?
    ensures Ok(reply) && reply.payload.Some? ==> r == reply.payload.value
  {
    match reply
    case Thrown(_) => []
    case Answered(retCode, _, payload) => if retCode != Some(0) then [] else payload.GetOr([])
  }

  /** `{Region: region}`. */
  function RegionParams(region: string): Record {
    [Entry("Region", PStr(region))]
  }

  /** The parameters of DescribeUDisk: `UHostIdForAttachment` only when a non-empty host id is given. */
  function DiskParams(region: string, uHostId: Option<string>): (r: Record)
    ensures DistinctKeys(r)
    ensures Lookup(r, "Region") == Some(PStr(region))
    ensures Lookup(r, "UHostIdForAttachment") == if Truthy(uHostId) then Some(PStr(uHostId.value)) else None
    ensures "UHostIdForAttachment" in Keys(r) <==> Truthy(uHostId)
  {
    if Truthy(uHostId) then [Entry("Region", PStr(region)), Entry("UHostIdForAttachment", PStr(uHostId.value))]
    else RegionParams(region)
  }

  /** The parameters of ListProjects: `Offset` and `Limit` each only when given and non-empty. */
  function ProjectParams(offset: Option<string>, limit: Option<string>): (r: Record)
    ensures DistinctKeys(r)
    ensures Lookup(r, "Offset") == if Truthy(offset) then Some(PStr(offset.value)) else None
    ensures Lookup(r, "Limit") == if Truthy(limit) then Some(PStr(limit.value)) else None
    ensures forall k :: k in Keys(r) ==> k == "Offset" || k == "Limit"
  {
    var withOffset: Record := if Truthy(offset) then [Entry("Offset", PStr(offset.value))] else [];
    if Truthy(limit) then withOffset + [Entry("Limit", PStr(limit.value))] else withOffset
  }

  function ToRegion(raw: RawRegion): Region {
    Region(OrEmpty(raw.region), OrEmpty(raw.zone), raw.isDefault == Some(true))
  }

  function RegionReply(api: Api, account: Account): Reply<seq<RawRegion>> {
    api.getRegion(Request(api, account, "GetRegion", []))
  }

  /** `getRegionList`: one entry per region and zone; `[]` whenever the call does not succeed. */
  function RegionList(api: Api, account: Account): (r: seq<Region>)
    ensures r != [] ==> Ok(RegionReply(api, account)) && RegionReply(api, account).payload.Some?
    ensures Ok(RegionReply(api, account)) && RegionReply(api, account).payload.Some? ==>
              var raw := RegionReply(api, account).payload.value;
              |r| == |raw| && forall i :: 0 <= i < |r| ==> r[i].region == OrEmpty(raw[i].region)
  {
    Map(ToRegion, ListOrEmpty(RegionReply(api, account)))
  }

  /** The result of querying one region for host instances. */
  datatype RegionHosts = RegionHosts(instances: seq<Instance>, hasInstances: bool)

  function HostReply(api: Api, account: Account, region: string): Reply<seq<RawHost>> {
    api.describeUHostInstance(Request(api, account, "DescribeUHostInstance", RegionParams(region)))
  }

  /** `getUHostInstancesByRegion`: the instances of one region, each tagged with that region;
      `hasInstances` exactly when there are any; nothing on failure. */
  function HostsByRegion(api: Api, account: Account, region: string): (r: RegionHosts)
    ensures r.hasInstances <==> r.instances != []
    ensures forall x :: x in r.instances ==> x.region == region && x.udisks == None
    ensures !Ok(HostReply(api, account, region)) ==> r.instances == []
    ensures Ok(HostReply(api, account, region)) ==>
              var raw := HostReply(api, account, region).payload.GetOr([]);
              && |r.instances| == |raw|
              && forall i :: 0 <= i < |r.instances| ==>
                   r.instances[i].uHostId == raw[i].uHostId && r.instances[i].imageId == raw[i].imageId
                   && r.instances[i].name == raw[i].name
  {
    var raw := ListOrEmpty(HostReply(api, account, region));
    var instances := Map((h: RawHost) => Instance(h.uHostId, h.imageId, h.name, region, None), raw);
    RegionHosts(instances, |instances| > 0)
  }

  function DiskReply(api: Api, account: Account, region: string, uHostId: Option<string>): Reply<seq<RawDisk>> {
    api.describeUDisk(Request(api, account, "DescribeUDisk", DiskParams(region, uHostId)))
  }

  /** `getUDiskList`: the disks of a region (attached to uHostId when given), tagged with the region;
      the host id is `UHostId`, or `HostId` when that is empty. */
  function DiskList(api: Api, account: Account, region: string, uHostId: Option<string>): (r: seq<Disk>)
    ensures forall d :: d in r ==> d.region == region
    ensures r != [] ==> Ok(DiskReply(api, account, region, uHostId))
    ensures Ok(DiskReply(api, account, region, uHostId)) && DiskReply(api, account, region, uHostId).payload.Some? ==>
              var raw := DiskReply(api, account, region, uHostId).payload.value;
              |r| == |raw| && forall i :: 0 <= i < |r| ==> r[i].uHostId == OrElse(raw[i].uHostId, raw[i].hostId)
  {
    var raw := ListOrEmpty(DiskReply(api, account, region, uHostId));
    Map((d: RawDisk) => Disk(d.uDiskId, OrElse(d.uHostId, d.hostId), region), raw)
  }

  function ImageReply(api: Api, account: Account, region: string): Reply<seq<RawImage>> {
    api.describeImage(Request(api, account, "DescribeImage", RegionParams(region)))
  }

  /** `getImageList`: the images of a region, tagged with it; `[]` on failure. */
  function ImageList(api: Api, account: Account, region: string): (r: seq<Image>)
    ensures forall x :: x in r ==> x.region == region
    ensures r != [] ==> Ok(ImageReply(api, account, region))
    ensures Ok(ImageReply(api, account, region)) ==>
              Map((x: Image) => x.imageId, r) == Map((x: RawImage) => x.imageId, ImageReply(api, account, region).payload.GetOr([]))
  {
    var raw := ListOrEmpty(ImageReply(api, account, region));
    Map((x: RawImage) => Image(x.imageId, x.imageName, region), raw)
  }

  function EipReply(api: Api, account: Account, region: string): Reply<seq<RawEip>> {
    api.describeEip(Request(api, account, "DescribeEIPWithAllNum", RegionParams(region)))
  }

  /** `getEIPList`: the elastic IPs of a region, tagged with it; `[]` on failure. */
  function EipList(api: Api, account: Account, region: string): (r: seq<Eip>)
    ensures forall x :: x in r ==> x.region == region
    ensures r != [] ==> Ok(EipReply(api, account, region))
    ensures Ok(EipReply(api, account, region)) ==>
              Map((x: Eip) => x.eipId, r) == Map((x: RawEip) => x.eipId, EipReply(api, account, region).payload.GetOr([]))
  {
    var raw := ListOrEmpty(EipReply(api, account, region));
    Map((x: RawEip) => Eip(x.eipId, x.eipAddr, region), raw)
  }

  function ProjectReply(api: Api, account: Account, offset: Option<string>, limit: Option<string>): Reply<seq<RawProject>> {
    api.listProjects(Request(api, account, "ListProjects", ProjectParams(offset, limit)))
  }

  /** `getProjectList`: its own error on a non-zero RetCode is caught locally, so it too returns
      `[]` on every failure. A missing user count reads as 0. */
  function ProjectList(api: Api, account: Account, offset: Option<string>, limit: Option<string>): (r: seq<Project>)
    ensures r != [] ==> Ok(ProjectReply(api, account, offset, limit))
    ensures Ok(ProjectReply(api, account, offset, limit)) ==>
              var raw := ProjectReply(api, account, offset, limit).payload.GetOr([]);
              |r| == |raw| &&
              forall i :: 0 <= i < |r| ==> r[i].projectId == raw[i].projectId && r[i].userCount == raw[i].userCount.GetOr(0)
                                            && r[i].memberCount == r[i].userCount
  {
    var raw := ListOrEmpty(ProjectReply(api, account, offset, limit));
    Map((p: RawProject) => Project(p.projectId, p.projectName, p.userCount.GetOr(0), p.userCount.GetOr(0)), raw)
  }

  /** The result of `getUHostInstanceList`. */
  datatype InstanceList = InstanceList(instances: seq<Instance>, validRegions: seq<string>)

  /** `regions || []`, falling back to the region names of `getRegionList` when that is empty. */
  function Targets(api: Api, account: Account, regions: Option<seq<string>>): (t: seq<string>)
    ensures regions.Some? && regions.value != [] ==> t == regions.value
    ensures (regions.None? || regions.value == []) ==> t == Map((r: Region) => r.region, RegionList(api, account))
  {
    var given := regions.GetOr([]);
    if |given| == 0 then Map((r: Region) => r.region, RegionList(api, account)) else given
  }

  /** The per-region query of one account, as a function of the region. */
  function HostsOf(api: Api, account: Account): string -> RegionHosts {
    (r: string) => HostsByRegion(api, account, r)
  }

  /** The merge loop over the per-region results, in target order: a region's instances are
      appended, and its name recorded, when it has any. */
  function Merge(hosts: string -> RegionHosts, targets: seq<string>): InstanceList {
    if targets == [] then InstanceList([], [])
    else
      var acc := Merge(hosts, targets[..|targets| - 1]);
      var last := targets[|targets| - 1];
      if hosts(last).hasInstances then InstanceList(acc.instances + hosts(last).instances, acc.validRegions + [last])
      else acc
  }

  /** The merge is the ordered filter of the targets that have instances, and the concatenation of
      every target's instances. */
  lemma {:induction false} MergeIsFilterAndFlatten(hosts: string -> RegionHosts, targets: seq<string>)
    requires forall t :: hosts(t).hasInstances <==> hosts(t).instances != []
    ensures Merge(hosts, targets).validRegions == Filter((t: string) => hosts(t).hasInstances, targets)
    ensures Merge(hosts, targets).instances == Flatten(Map((t: string) => hosts(t).instances, targets))
  {
    if targets != [] {
      var front := targets[..|targets| - 1];
      var last := targets[|targets| - 1];
      MergeIsFilterAndFlatten(hosts, front);
      assert front + [last] == targets;
      FilterAppend((t: string) => hosts(t).hasInstances, front, last);
      var lists := (t: string) => hosts(t).instances;
      assert Map(lists, targets) == Map(lists, front) + [lists(last)];
      FlattenAppend(Map(lists, front), lists(last));
    }
  }

  /** What the merge guarantees when every region's instances are tagged with that region: the valid
      regions are the targets with instances, in target order and never more of them than there are
      targets; every instance belongs to one of them; every instance of a valid region is present. */
  lemma MergeProperties(hosts: string -> RegionHosts, targets: seq<string>)
    requires forall t :: hosts(t).hasInstances <==> hosts(t).instances != []
    requires forall t, x :: x in hosts(t).instances ==> x.region == t
    ensures var r := Merge(hosts, targets);
            && IsSubsequence(r.validRegions, targets)
            && |r.validRegions| <= |targets|
            && (forall g :: g in r.validRegions <==> g in targets && hosts(g).hasInstances)
            && (forall x :: x in r.instances ==> x.region in r.validRegions)
            && (forall g, x :: g in r.validRegions && x in hosts(g).instances ==> x in r.instances)
  {
    var r := Merge(hosts, targets);
    MergeIsFilterAndFlatten(hosts, targets);
    FilterIsSubsequence((t: string) => hosts(t).hasInstances, targets);
    SubsequenceLength(r.validRegions, targets);
    var lists := Map((t: string) => hosts(t).instances, targets);
    forall x | x in r.instances ensures x.region in r.validRegions {
      FlattenMembers(lists, x);
      var i :| 0 <= i < |lists| && x in lists[i];
      assert x in hosts(targets[i]).instances;
    }
    forall g, x | g in r.validRegions && x in hosts(g).instances ensures x in r.instances {
      var i :| 0 <= i < |targets| && targets[i] == g;
      assert x in lists[i];
      FlattenMembers(lists, x);
    }
  }

  /** `getUHostInstanceList` as specified by its result. */
  function InstanceListOf(api: Api, account: Account, regions: Option<seq<string>>): InstanceList {
    var targets := Targets(api, account, regions);
    if |targets| == 0 then InstanceList([], []) else Merge(HostsOf(api, account), targets)
  }

  /** The merge loop of `getUHostInstanceList`: the per-region results are gathered first (in the
      source, concurrently), then walked in target order. */
  method MergeLoop(hosts: string -> RegionHosts, targets: seq<string>) returns (r: InstanceList)
    ensures r == Merge(hosts, targets)
  {
    var results := Map(hosts, targets);
    var allInstances: seq<Instance> := [];
    var validRegions: seq<string> := [];
    var i := 0;
    while i < |results|
      invariant 0 <= i <= |targets|
      invariant InstanceList(allInstances, validRegions) == Merge(hosts, targets[..i])
    {
      assert targets[..i + 1][..i] == targets[..i];
      if results[i].hasInstances {
        allInstances := allInstances + results[i].instances;
        validRegions := validRegions + [targets[i]];
      }
      i := i + 1;
    }
    assert targets[..|targets|] == targets;
    r := InstanceList(allInstances, validRegions);
  }

  /** `getUHostInstanceList`: queries every target region and keeps, in target order, the instances
      and the names of the regions that have any. */
  method GetUHostInstanceList(api: Api, account: Account, regions: Option<seq<string>>) returns (r: InstanceList)
    ensures r == InstanceListOf(api, account, regions)
  {
    var targets := Targets(api, account, regions);
    if |targets| == 0 {
      return InstanceList([], []);
    }
    r := MergeLoop(HostsOf(api, account), targets);
  }

  lemma HostsOfTagged(api: Api, account: Account)
    ensures forall t :: HostsOf(api, account)(t).hasInstances <==> HostsOf(api, account)(t).instances != []
    ensures forall t, x :: x in HostsOf(api, account)(t).instances ==> x.region == t
  {
  }

  /** The instance list of an account: the valid regions are the targets with instances, in target
      order, at most as many as the targets, and they account for every instance returned. */
  lemma InstanceListProperties(api: Api, account: Account, regions: Option<seq<string>>)
    ensures var r := InstanceListOf(api, account, regions);
            var targets := Targets(api, account, regions);
            && IsSubsequence(r.validRegions, targets)
            && |r.validRegions| <= |targets|
            && (forall g :: g in r.validRegions <==> g in targets && HostsByRegion(api, account, g).hasInstances)
            && (forall x :: x in r.instances ==> x.region in r.validRegions)
            && (forall g, x :: g in r.validRegions && x in HostsByRegion(api, account, g).instances ==> x in r.instances)
  {
    HostsOfTagged(api, account);
    MergeProperties(HostsOf(api, account), Targets(api, account, regions));
  }

  /** Corrected instance list: each region is queried once, even though the region list names it
      once per zone. */
  function InstanceListDistinct(api: Api, account: Account, regions: Option<seq<string>>): InstanceList {
    var targets := Distinct(Targets(api, account, regions));
    if |targets| == 0 then InstanceList([], []) else Merge(HostsOf(api, account), targets)
  }

  /** The corrected `getUHostInstanceList`: the targets are deduplicated before the query. */
  method GetUHostInstanceListDistinct(api: Api, account: Account, regions: Option<seq<string>>) returns (r: InstanceList)
    ensures r == InstanceListDistinct(api, account, regions)
  {
    var targets := Distinct(Targets(api, account, regions));
    if |targets| == 0 {
      return InstanceList([], []);
    }
    r := MergeLoop(HostsOf(api, account), targets);
  }

  /** The corrected list keeps the properties of the original and names each valid region once. */
  lemma InstanceListDistinctProperties(api: Api, account: Account, regions: Option<seq<string>>)
    ensures var r := InstanceListDistinct(api, account, regions);
            var targets := Targets(api, account, regions);
            && NoDuplicates(r.validRegions)
            && |r.validRegions| <= |targets|
            && (forall g :: g in r.validRegions <==> g in targets && HostsByRegion(api, account, g).hasInstances)
            && (forall x :: x in r.instances ==> x.region in r.validRegions)
            && (forall g, x :: g in r.validRegions && x in HostsByRegion(api, account, g).instances ==> x in r.instances)
  {
    var targets := Distinct(Targets(api, account, regions));
    HostsOfTagged(api, account);
    MergeProperties(HostsOf(api, account), targets);
    SubsequenceNoDuplicates(Merge(HostsOf(api, account), targets).validRegions, targets);
  }

  /** Which host query a caller makes: `getUHostInstanceList` as written, or the corrected one
      that queries each region once. */
  datatype Lister = AsWritten | Corrected

  /** The instance list the chosen query returns. */
  function ListInstances(lister: Lister, api: Api, account: Account, regions: Option<seq<string>>): InstanceList {
    match lister
    case AsWritten => InstanceListOf(api, account, regions)
    case Corrected => InstanceListDistinct(api, account, regions)
  }

  /** The chosen host query. */
  method QueryInstances(lister: Lister, api: Api, account: Account, regions: Option<seq<string>>) returns (r: InstanceList)
    ensures r == ListInstances(lister, api, account, regions)
  {
    match lister
    case AsWritten =>
      r := GetUHostInstanceList(api, account, regions);
    case Corrected =>
      r := GetUHostInstanceListDistinct(api, account, regions);
  }

  /** What both queries guarantee: a region is valid iff it is a target with hosts, every instance
      lies in a valid region, every host of a valid region is present; only the corrected query
      also names each valid region once. */
  lemma ListInstancesProperties(lister: Lister, api: Api, account: Account, regions: Option<seq<string>>)
    ensures var r := ListInstances(lister, api, account, regions);
            var targets := Targets(api, account, regions);
            && (forall g :: g in r.validRegions <==> g in targets && HostsByRegion(api, account, g).hasInstances)
            && (forall x :: x in r.instances ==> x.region in r.validRegions)
            && (forall g, x :: g in r.validRegions && x in HostsByRegion(api, account, g).instances ==> x in r.instances)
            && (lister == Corrected ==> NoDuplicates(r.validRegions))
  {
    match lister
    case AsWritten => InstanceListProperties(api, account, regions);
    case Corrected => InstanceListDistinctProperties(api, account, regions);
  }

  /** A region list of two zones of the same region, and one host there. */
  function TwoZoneApi(): Api {
    Api(
      sha1Hex := (s: string) => s,
      parseFloat := (s: string) => None,
      getBalance := (q: Record) => Thrown("unused"),
      getRegion := (q: Record) => Answered(Some(0), None, Some([RawRegion(Some("cn-bj2"), Some("cn-bj2-03"), None),
                                                                RawRegion(Some("cn-bj2"), Some("cn-bj2-04"), None)])),
      describeUHostInstance := (q: Record) => Answered(Some(0), None, Some([RawHost(Some("uhost-a"), None, None)])),
      describeUDisk := (q: Record) => Answered(Some(0), None, Some([])),
      describeImage := (q: Record) => Answered(Some(0), None, Some([])),
      describeEip := (q: Record) => Answered(Some(0), None, Some([])),
      listProjects := (q: Record) => Answered(Some(0), None, Some([])))
  }

  lemma TwoZoneTargets(account: Account)
    ensures Targets(TwoZoneApi(), account, None) == ["cn-bj2", "cn-bj2"]
  {
    var raw := [RawRegion(Some("cn-bj2"), Some("cn-bj2-03"), None), RawRegion(Some("cn-bj2"), Some("cn-bj2-04"), None)];
    assert RegionReply(TwoZoneApi(), account) == Answered(Some(0), None, Some(raw));
    var regions := RegionList(TwoZoneApi(), account);
    assert |regions| == 2 && regions[0].region == "cn-bj2" && regions[1].region == "cn-bj2";
  }

  lemma TwoZoneHosts(account: Account)
    ensures HostsOf(TwoZoneApi(), account)("cn-bj2").instances == [Instance(Some("uhost-a"), None, None, "cn-bj2", None)]
  {
    var raw := [RawHost(Some("uhost-a"), None, None)];
    assert HostReply(TwoZoneApi(), account, "cn-bj2") == Answered(Some(0), None, Some(raw));
  }

  /** Merging a region that has one instance, listed twice, returns that instance twice. */
  lemma MergeTwice(hosts: string -> RegionHosts, g: string, x: Instance)
    requires hosts(g).instances == [x] && hosts(g).hasInstances
    ensures Merge(hosts, [g, g]) == InstanceList([x, x], [g, g])
    ensures Merge(hosts, [g]) == InstanceList([x], [g])
  {
    assert [g][..0] == [];
    assert Merge(hosts, [g]) == InstanceList([] + [x], [] + [g]);
    assert [g, g][..1] == [g];
    assert Merge(hosts, [g, g]) == InstanceList([x] + [x], [g] + [g]);
  }

  /** As written, a region with two zones is queried twice: its name appears twice among the valid
      regions and its one host is returned twice. The corrected list has each once. */
  lemma DuplicateZoneCounterexample(account: Account)
    ensures InstanceListOf(TwoZoneApi(), account, None).validRegions == ["cn-bj2", "cn-bj2"]
    ensures |InstanceListOf(TwoZoneApi(), account, None).instances| == 2
    ensures InstanceListDistinct(TwoZoneApi(), account, None).validRegions == ["cn-bj2"]
    ensures |InstanceListDistinct(TwoZoneApi(), account, None).instances| == 1
  {
    TwoZoneTargets(account);
    TwoZoneHosts(account);
    var hosts := HostsOf(TwoZoneApi(), account);
    MergeTwice(hosts, "cn-bj2", Instance(Some("uhost-a"), None, None, "cn-bj2", None));
    var targets: seq<string> := ["cn-bj2", "cn-bj2"];
    assert Distinct(targets) == ["cn-bj2"] by {
      assert targets[..1] == ["cn-bj2"] && targets[..1][..0] == [];
    }
  }

  const BalanceErrorPrefix: string := "获取余额失败: "

  /** The amount string used: `AmountAvailable` unless it is absent or empty, then `Amount`, then "0". */
  function BalanceAmount(info: AccountInfo): (s: string)
    ensures Truthy(info.amountAvailable) ==> s == info.amountAvailable.value
    ensures !Truthy(info.amountAvailable) && Truthy(info.amount) ==> s == info.amount.value
    ensures !Truthy(info.amountAvailable) && !Truthy(info.amount) ==> s == "0"
    ensures s != ""
  {
    if Truthy(info.amountAvailable) then info.amountAvailable.value
    else if Truthy(info.amount) then info.amount.value
    else "0"
  }

  /** `${data.RetCode}`. */
  function RetCodeText(code: Option<int>): string {
    match code
    case Some(n) => IntToDecimal(n)
    case None => "undefined"
  }

  function BalanceReply(api: Api, account: Account): Reply<AccountInfo> {
    api.getBalance(Request(api, account, "GetBalance", []))
  }

  /** `getBalance`: the parsed amount in CNY, stamped with `now`. Every failure (thrown call, non-zero
      RetCode, missing AccountInfo, unparsable amount) becomes an error of the form
      "获取余额失败: <reason>". */
  function GetBalance(api: Api, account: Account, now: int): (r: Result<Balance, string>)
    ensures r.Success? <==> Ok(BalanceReply(api, account)) && BalanceReply(api, account).payload.Some?
                            && api.parseFloat(BalanceAmount(BalanceReply(api, account).payload.value)).Some?
    ensures r.Success? ==>
              r.value == Balance(account.id, api.parseFloat(BalanceAmount(BalanceReply(api, account).payload.value)).value, "CNY", now)
    ensures r.Failure? ==> |r.error| >= |BalanceErrorPrefix| && r.error[..|BalanceErrorPrefix|] == BalanceErrorPrefix
    ensures BalanceReply(api, account).Answered? && !Ok(BalanceReply(api, account)) ==>
              var reply := BalanceReply(api, account);
              r == Failure(BalanceErrorPrefix + "UCloud API错误 (RetCode: " + RetCodeText(reply.retCode) + "): "
                           + (if Truthy(reply.message) then reply.message.value else "获取余额失败"))
    ensures Ok(BalanceReply(api, account)) && BalanceReply(api, account).payload.None? ==>
              r == Failure(BalanceErrorPrefix + "响应中缺少AccountInfo字段")
  {
    match BalanceReply(api, account)
    case Thrown(e) => Failure(BalanceErrorPrefix + e)
    case Answered(retCode, message, payload) =>
      if retCode != Some(0) then
        Failure(BalanceErrorPrefix + "UCloud API错误 (RetCode: " + RetCodeText(retCode) + "): "
                + (if Truthy(message) then message.value else "获取余额失败"))
      else if payload.None? then Failure(BalanceErrorPrefix + "响应中缺少AccountInfo字段")
      else
        var amount := BalanceAmount(payload.value);
        match api.parseFloat(amount)
        case None => Failure(BalanceErrorPrefix + "无法解析余额值: " + amount)
        case Some(v) => Success(Balance(account.id, v, "CNY", now))
  }

  /** `validateCredentials`: true exactly when the balance can be fetched. */
  function ValidateCredentials(api: Api, account: Account, now: int): (ok: bool)
    ensures ok <==> Ok(BalanceReply(api, account)) && BalanceReply(api, account).payload.Some?
                    && api.parseFloat(BalanceAmount(BalanceReply(api, account).payload.value)).Some?
  {
    GetBalance(api, account, now).Success?
  }

  /** The number of instances over the given regions. */
  function CountInstances(api: Api, account: Account, targets: seq<string>): nat {
    if targets == [] then 0
    else CountInstances(api, account, targets[..|targets| - 1]) + |HostsByRegion(api, account, targets[|targets| - 1]).instances|
  }

  /** `getResourceUsage`: one figure, the number of host instances over every entry of the region
      list (0 when the list is empty). */
  function ResourceUsageOf(api: Api, account: Account, now: int): (r: seq<ResourceUsage>)
    ensures |r| == 1 && r[0].accountId == account.id && r[0].resourceType == "UHost实例" && r[0].unit == "个"
    ensures RegionList(api, account) == [] ==> r[0].usage == 0
  {
    var regions := RegionList(api, account);
    if |regions| == 0 then [ResourceUsage(account.id, "UHost实例", 0, "个", now)]
    else [ResourceUsage(account.id, "UHost实例", CountInstances(api, account, Map((g: Region) => g.region, regions)), "个", now)]
  }

  lemma {:induction false} MergeCount(api: Api, account: Account, targets: seq<string>)
    ensures |Merge(HostsOf(api, account), targets).instances| == CountInstances(api, account, targets)
  {
    if targets != [] {
      MergeCount(api, account, targets[..|targets| - 1]);
    }
  }

  /** The usage figure is the length of the instance list fetched over all regions. */
  lemma ResourceUsageCountsInstanceList(api: Api, account: Account, now: int)
    ensures ResourceUsageOf(api, account, now)[0].usage == |InstanceListOf(api, account, None).instances|
  {
    MergeCount(api, account, Targets(api, account, None));
  }
}
