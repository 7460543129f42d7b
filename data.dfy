/** The aggregated data store (src/stores/data.ts): per-account balances, projects, hosts, images,
    elastic IPs and the cache of regions that have hosts, refreshed through the UCloud adapter.
    The store's maps are keyed by account id; a refresh of one account writes only that account's
    keys. */
module Data {
  import opened Wrappers
  import opened Seqs
  import opened Types
  import opened UCloud
  import Crypto
  import opened Accounts
  import opened Adapters

  /** The six maps of the store. */
  datatype Snapshot = Snapshot(
    balances: map<string, Balance>,
    projects: map<string, seq<Project>>,
    instances: map<string, seq<Instance>>,
    images: map<string, seq<Image>>,
    eips: map<string, seq<Eip>>,
    cachedRegions: map<string, seq<string>>)

  const Empty := Snapshot(map[], map[], map[], map[], map[], map[])

  /** Two maps agree at a key: both lack it, or both hold the same value there. */
  predicate Agree<V(==)>(m: map<string, V>, n: map<string, V>, k: string) {
    (k in m <==> k in n) && (k in m ==> m[k] == n[k])
  }

  /** Two snapshots hold the same data for one account. */
  predicate SameAt(s: Snapshot, t: Snapshot, k: string) {
    && Agree(s.balances, t.balances, k)
    && Agree(s.projects, t.projects, k)
    && Agree(s.instances, t.instances, k)
    && Agree(s.images, t.images, k)
    && Agree(s.eips, t.eips, k)
    && Agree(s.cachedRegions, t.cachedRegions, k)
  }

  function ImageKey(x: Image): string { OrEmpty(x.imageId) }

  function EipKey(x: Eip): string { OrEmpty(x.eipId) }

  /** Every balance is filed under its own account. */
  predicate BalancesValid(m: map<string, Balance>) {
    forall k :: k in m ==> m[k].accountId == k
  }

  /** A stored list is never empty. */
  predicate NonEmptyLists<T>(m: map<string, seq<T>>) {
    forall k :: k in m ==> m[k] != []
  }

  /** Every stored list carries distinct non-empty ids. */
  predicate UniqueLists<T>(id: T -> string, m: map<string, seq<T>>) {
    forall k :: k in m ==> UniqueIds(id, m[k])
  }

  /** Every cached region list is non-empty. */
  predicate CacheValid(m: map<string, seq<string>>) {
    forall k :: k in m ==> m[k] != []
  }

  /** Every cached region list names each region once. The source's region query does not keep
      this (two zones of one region query that region twice); the corrected one does. */
  predicate DistinctCache(m: map<string, seq<string>>) {
    forall k :: k in m ==> NoDuplicates(m[k])
  }

  /** What a store using a given region query keeps true: a valid snapshot, and with the
      corrected query a cache without repetitions. */
  predicate StoreInvariant(lister: Lister, s: Snapshot) {
    SnapshotValid(s) && (lister == Corrected ==> DistinctCache(s.cachedRegions))
  }

  /** What every refresh keeps true of the store: a balance is filed under its own account, the
      project and host lists are only stored when non-empty, images and elastic IPs carry distinct
      non-empty ids, and a cached region list is non-empty. */
  predicate SnapshotValid(s: Snapshot) {
    && BalancesValid(s.balances)
    && NonEmptyLists(s.projects)
    && NonEmptyLists(s.instances)
    && UniqueLists(ImageKey, s.images)
    && UniqueLists(EipKey, s.eips)
    && CacheValid(s.cachedRegions)
  }

  function DecryptFailure(account: Account): string {
    "解密账户 " + account.name + " 凭证失败"
  }

  /** `decryptAccount`: both stored keys decrypted with the master password. Only the two keys
      change; any failure of either decryption is reported with the account's name. */
  function DecryptAccount(p: Crypto.Primitives, account: Account, password: string): (r: Result<Account, string>)
    ensures r.Success? <==> Crypto.Decrypt(p, account.accessKeyId, password).Success?
                            && Crypto.Decrypt(p, account.accessKeySecret, password).Success?
    ensures r.Success? ==> r.value.(accessKeyId := account.accessKeyId, accessKeySecret := account.accessKeySecret) == account
    ensures r.Success? ==> Crypto.Decrypt(p, account.accessKeyId, password) == Success(r.value.accessKeyId)
                           && Crypto.Decrypt(p, account.accessKeySecret, password) == Success(r.value.accessKeySecret)
    ensures r.Failure? ==> r.error == DecryptFailure(account)
  {
    match Crypto.Decrypt(p, account.accessKeyId, password)
    case Failure(_) => Failure(DecryptFailure(account))
    case Success(keyId) =>
      match Crypto.Decrypt(p, account.accessKeySecret, password)
      case Failure(_) => Failure(DecryptFailure(account))
      case Success(secret) => Success(account.(accessKeyId := keyId, accessKeySecret := secret))
  }

  /** Keys stored encrypted under the master password come back as they were entered. */
  lemma DecryptAccountRoundTrip(p: Crypto.Primitives, account: Account, password: string,
                                keyId: string, secret: string,
                                salt1: seq<Crypto.byte>, iv1: seq<Crypto.byte>,
                                salt2: seq<Crypto.byte>, iv2: seq<Crypto.byte>)
    requires Crypto.Laws(p)
    requires |salt1| == Crypto.SaltLength && |iv1| == Crypto.IvLength
    requires |salt2| == Crypto.SaltLength && |iv2| == Crypto.IvLength
    requires Crypto.Encryption(p, keyId, password, salt1, iv1) == Success(account.accessKeyId)
    requires Crypto.Encryption(p, secret, password, salt2, iv2) == Success(account.accessKeySecret)
    ensures DecryptAccount(p, account, password) == Success(account.(accessKeyId := keyId, accessKeySecret := secret))
  {
    Crypto.DecryptEncrypt(p, keyId, password, salt1, iv1);
    Crypto.DecryptEncrypt(p, secret, password, salt2, iv2);
  }

  /** The per-host step of a refresh: a host with an id and a region gets the disks attached to
      it, or none when the list is empty; any other host is kept as it is. Nothing but the disk
      list changes. */
  function AttachVolumes(api: Api, account: Account, x: Instance): (r: Instance)
    ensures r.(udisks := x.udisks) == x
    ensures !Truthy(x.uHostId) || x.region == "" ==> r == x
    ensures Truthy(x.uHostId) && x.region != "" ==>
              (r.udisks.Some? <==> DiskList(api, account, x.region, x.uHostId) != [])
    ensures Truthy(x.uHostId) && x.region != "" && DiskList(api, account, x.region, x.uHostId) != [] ==>
              r.udisks == Some(DiskList(api, account, x.region, x.uHostId))
    ensures r.udisks != x.udisks && r.udisks.Some? ==>
              r.udisks.value != [] && forall d :: d in r.udisks.value ==> d.region == x.region
  {
    if !Truthy(x.uHostId) || x.region == "" then x
    else
      var disks := DiskList(api, account, x.region, x.uHostId);
      if |disks| > 0 then x.(udisks := Some(disks)) else x.(udisks := None)
  }

  /** The regions of a host list, in order of first appearance, without the empty one. */
  function InstanceRegions(xs: seq<Instance>): (r: seq<string>)
    ensures NoDuplicates(r)
    ensures forall g :: g in r <==> g != "" && exists i :: 0 <= i < |xs| && xs[i].region == g
  {
    var id := (g: string) => g;
    var regions := Map((x: Instance) => x.region, xs);
    KeepFirstProperties(id, regions);
    var r := KeepFirst(id, regions);
    assert forall g :: g in r <==> g in IdSet(id, r) by {
      forall g ensures g in r <==> g in IdSet(id, r) {
        if g in r { var i :| 0 <= i < |r| && r[i] == g; assert id(r[i]) == g; }
      }
    }
    assert forall g :: g in regions <==> g in IdSet(id, regions) by {
      forall g ensures g in regions <==> g in IdSet(id, regions) {
        if g in regions { var i :| 0 <= i < |regions| && regions[i] == g; assert id(regions[i]) == g; }
      }
    }
    forall g ensures g in regions <==> exists i :: 0 <= i < |xs| && xs[i].region == g {
      if g in regions { var i :| 0 <= i < |regions| && regions[i] == g; assert xs[i].region == g; }
    }
    r
  }

  /** The per-region collection of images or elastic IPs: the lists of all regions in turn, keeping
      the first item with each non-empty id. */
  function Gather<T>(id: T -> string, fetch: string -> seq<T>, regions: seq<string>): seq<T> {
    KeepFirst(id, Flatten(Map(fetch, regions)))
  }

  /** The collection holds items with distinct non-empty ids, each from the list of one of the
      regions, and every non-empty id any region reports. */
  lemma GatherProperties<T>(id: T -> string, fetch: string -> seq<T>, regions: seq<string>)
    ensures UniqueIds(id, Gather(id, fetch, regions))
    ensures forall x :: x in Gather(id, fetch, regions) ==> exists g :: g in regions && x in fetch(g)
    ensures forall g, x :: g in regions && x in fetch(g) && id(x) != "" ==>
              exists y :: y in Gather(id, fetch, regions) && id(y) == id(x)
  {
    var lists := Map(fetch, regions);
    var all := Flatten(lists);
    var r := KeepFirst(id, all);
    KeepFirstProperties(id, all);
    SubsequenceLength(r, all);
    forall x | x in r ensures exists g :: g in regions && x in fetch(g) {
      FlattenMembers(lists, x);
      var i :| 0 <= i < |lists| && x in lists[i];
      assert regions[i] in regions;
    }
    forall g, x | g in regions && x in fetch(g) && id(x) != "" ensures exists y :: y in r && id(y) == id(x) {
      var i :| 0 <= i < |regions| && regions[i] == g;
      assert x in lists[i];
      FlattenMembers(lists, x);
      var j :| 0 <= j < |all| && all[j] == x;
      assert id(all[j]) in IdSet(id, all);
      assert id(x) in IdSet(id, r);
      var k :| 0 <= k < |r| && id(r[k]) == id(x);
      assert r[k] in r;
    }
  }

  /** The inner step of the source's collection loop: the items of one region's list, pushed
      in turn when their id is non-empty and not yet in the seen-set. */
  method GatherList<T>(id: T -> string, done: seq<T>, list: seq<T>, r0: seq<T>, seen0: set<string>)
    returns (r: seq<T>, seen: set<string>)
    requires r0 == KeepFirst(id, done) && seen0 == IdSet(id, r0)
    ensures r == KeepFirst(id, done + list) && seen == IdSet(id, r)
  {
    r, seen := r0, seen0;
    var j := 0;
    assert done + list[..0] == done;
    while j < |list|
      invariant 0 <= j <= |list|
      invariant r == KeepFirst(id, done + list[..j])
      invariant seen == IdSet(id, r)
    {
      var x := list[j];
      assert done + list[..j + 1] == (done + list[..j]) + [x];
      KeepFirstAppend(id, done + list[..j], x);
      IdSetAppend(id, r, x);
      if id(x) != "" && id(x) !in seen {
        seen := seen + {id(x)};
        r := r + [x];
      }
      j := j + 1;
    }
    assert list[..j] == list;
  }

  /** The source's collection loop: each region's list in turn, an item pushed when its id is
      non-empty and not yet in the seen-set. */
  method GatherLoop<T>(id: T -> string, fetch: string -> seq<T>, regions: seq<string>) returns (r: seq<T>)
    ensures r == Gather(id, fetch, regions)
  {
    r := [];
    var seen: set<string> := {};
    var i := 0;
    while i < |regions|
      invariant 0 <= i <= |regions|
      invariant r == KeepFirst(id, Flatten(Map(fetch, regions[..i])))
      invariant seen == IdSet(id, r)
    {
      var done := Flatten(Map(fetch, regions[..i]));
      var list := fetch(regions[i]);
      r, seen := GatherList(id, done, list, r, seen);
      assert Map(fetch, regions[..i + 1]) == Map(fetch, regions[..i]) + [list];
      FlattenAppend(Map(fetch, regions[..i]), list);
      i := i + 1;
    }
    assert regions[..i] == regions;
  }

  function ImagesOf(api: Api, account: Account): string -> seq<Image> {
    (g: string) => ImageList(api, account, g)
  }

  function EipsOf(api: Api, account: Account): string -> seq<Eip> {
    (g: string) => EipList(api, account, g)
  }

  /** What the store files for a non-empty host list: the hosts with their disks, and the images
      and elastic IPs of the regions those hosts are in. */
  datatype Hosts = Hosts(instances: seq<Instance>, images: seq<Image>, eips: seq<Eip>)

  function CollectHosts(api: Api, account: Account, xs: seq<Instance>): Hosts {
    var withDisks := Map((x: Instance) => AttachVolumes(api, account, x), xs);
    var regions := InstanceRegions(withDisks);
    Hosts(withDisks, Gather(ImageKey, ImagesOf(api, account), regions), Gather(EipKey, EipsOf(api, account), regions))
  }

  /** The collected hosts are the queried ones with only their disks changed; images and elastic
      IPs carry distinct non-empty ids and each lies in the region of one of the hosts. */
  predicate Collected(xs: seq<Instance>, h: Hosts) {
    && |h.instances| == |xs|
    && (forall i :: 0 <= i < |xs| ==> h.instances[i].(udisks := xs[i].udisks) == xs[i])
    && UniqueIds(ImageKey, h.images) && UniqueIds(EipKey, h.eips)
    && (forall y :: y in h.images ==> exists x :: x in h.instances && x.region == y.region)
    && (forall y :: y in h.eips ==> exists x :: x in h.instances && x.region == y.region)
  }

  /** Items gathered over the regions of some hosts lie in those hosts' regions, when every fetched
      list is tagged with its region. */
  lemma GatherInRegions<T>(id: T -> string, fetch: string -> seq<T>, region: T -> string, hs: seq<Instance>)
    requires forall g, y :: y in fetch(g) ==> region(y) == g
    ensures forall y :: y in Gather(id, fetch, InstanceRegions(hs)) ==>
              y in fetch(region(y)) && exists x :: x in hs && x.region == region(y)
  {
    var regions := InstanceRegions(hs);
    GatherProperties(id, fetch, regions);
    forall y | y in Gather(id, fetch, regions) ensures y in fetch(region(y)) && exists x :: x in hs && x.region == region(y) {
      var g :| g in regions && y in fetch(g);
      var i :| 0 <= i < |hs| && hs[i].region == g;
      assert hs[i] in hs;
    }
  }

  lemma CollectHostsProperties(api: Api, account: Account, xs: seq<Instance>)
    ensures Collected(xs, CollectHosts(api, account, xs))
    ensures forall y :: y in CollectHosts(api, account, xs).images ==> y in ImageList(api, account, y.region)
    ensures forall y :: y in CollectHosts(api, account, xs).eips ==> y in EipList(api, account, y.region)
  {
    var h := CollectHosts(api, account, xs);
    var regions := InstanceRegions(h.instances);
    GatherProperties(ImageKey, ImagesOf(api, account), regions);
    GatherProperties(EipKey, EipsOf(api, account), regions);
    GatherInRegions(ImageKey, ImagesOf(api, account), (y: Image) => y.region, h.instances);
    GatherInRegions(EipKey, EipsOf(api, account), (y: Eip) => y.region, h.instances);
  }

  /** The cached regions of an account, as `cachedRegions.get(id)` gives them. */
  function Cached(s: Snapshot, key: string): Option<seq<string>> {
    if key in s.cachedRegions then Some(s.cachedRegions[key]) else None
  }

  /** The store after one host query: hosts, images and elastic IPs are written only when there
      are hosts, the region cache only when some region has hosts. */
  function RecordHosts(s: Snapshot, key: string, ir: InstanceList, h: Hosts): Snapshot {
    var s1 := if ir.instances != [] then
                s.(instances := s.instances[key := h.instances], images := s.images[key := h.images], eips := s.eips[key := h.eips])
              else s;
    if ir.validRegions != [] then s1.(cachedRegions := s1.cachedRegions[key := ir.validRegions]) else s1
  }

  /** Everything the refresh of one account fetches before it writes to the store. */
  datatype Fetched = Fetched(balance: Balance, projects: seq<Project>, hosts: InstanceList, collected: Hosts)

  /** The queries of one account in `refreshAllData`: decrypt the keys, then the balance, the
      projects and the hosts of the cached regions (all regions when none are cached), then the
      disks, images and elastic IPs of those hosts. A failed decryption or balance query aborts
      with its error; the other queries report failures as empty lists. */
  function FetchAccount(api: Api, lister: Lister, p: Crypto.Primitives, password: string, account: Account, now: int,
                        cached: Option<seq<string>>): (r: Result<Fetched, string>)
    ensures DecryptAccount(p, account, password).Failure? ==> r == Failure(DecryptFailure(account))
    ensures DecryptAccount(p, account, password).Success? ==>
              var b := GetBalance(api, DecryptAccount(p, account, password).value, now);
              (r.Success? <==> b.Success?) && (b.Failure? ==> r == Failure(b.error))
                && (r.Success? ==> r.value.balance == b.value)
  {
    var dec :- DecryptAccount(p, account, password);
    var b :- GetBalance(api, dec, now);
    var ir := ListInstances(lister, api, dec, cached);
    Success(Fetched(b, ProjectList(api, dec, None, None), ir, CollectHosts(api, dec, ir.instances)))
  }

  /** What a successful fetch brings: the balance of the account, a region list that holds the
      region of every host, and collected hosts. */
  predicate FetchedValid(key: string, f: Fetched) {
    && f.balance.accountId == key
    && (forall x :: x in f.hosts.instances ==> x.region in f.hosts.validRegions)
    && Collected(f.hosts.instances, f.collected)
  }

  lemma FetchAccountValid(api: Api, lister: Lister, p: Crypto.Primitives, password: string, account: Account, now: int, cached: Option<seq<string>>)
    requires FetchAccount(api, lister, p, password, account, now, cached).Success?
    ensures FetchedValid(account.id, FetchAccount(api, lister, p, password, account, now, cached).value)
    ensures lister == Corrected ==> NoDuplicates(FetchAccount(api, lister, p, password, account, now, cached).value.hosts.validRegions)
  {
    var dec := DecryptAccount(p, account, password).value;
    ListInstancesProperties(lister, api, dec, cached);
    CollectHostsProperties(api, dec, ListInstances(lister, api, dec, cached).instances);
  }

  /** The write of a successful fetch: the balance always, the projects when there are any, then
      the hosts. */
  function Store(s: Snapshot, key: string, f: Fetched): Snapshot {
    var s1 := s.(balances := s.balances[key := f.balance],
                 projects := if f.projects != [] then s.projects[key := f.projects] else s.projects);
    RecordHosts(s1, key, f.hosts, f.collected)
  }

  /** The refresh of one enabled account in `refreshAllData`: what was fetched is written, and a
      failed fetch leaves the store as it was. */
  function RefreshOne(s: Snapshot, api: Api, lister: Lister, p: Crypto.Primitives, password: string, account: Account, now: int): Snapshot {
    match FetchAccount(api, lister, p, password, account, now, Cached(s, account.id))
    case Failure(_) => s
    case Success(f) => Store(s, account.id, f)
  }

  /** The queries of one account in `refreshRegionCache`: the hosts of every region. */
  function FetchHosts(api: Api, lister: Lister, p: Crypto.Primitives, password: string, account: Account): (r: Result<(InstanceList, Hosts), string>)
    ensures r.Success? <==> DecryptAccount(p, account, password).Success?
  {
    var dec :- DecryptAccount(p, account, password);
    var ir := ListInstances(lister, api, dec, None);
    Success((ir, CollectHosts(api, dec, ir.instances)))
  }

  lemma FetchHostsValid(api: Api, lister: Lister, p: Crypto.Primitives, password: string, account: Account)
    requires FetchHosts(api, lister, p, password, account).Success?
    ensures var (ir, h) := FetchHosts(api, lister, p, password, account).value;
            && (forall x :: x in ir.instances ==> x.region in ir.validRegions)
            && Collected(ir.instances, h)
            && (lister == Corrected ==> NoDuplicates(ir.validRegions))
  {
    var dec := DecryptAccount(p, account, password).value;
    ListInstancesProperties(lister, api, dec, None);
    CollectHostsProperties(api, dec, ListInstances(lister, api, dec, None).instances);
  }

  /** The refresh of one account in `refreshRegionCache`: the cache entry is dropped first, then
      the hosts of every region are queried afresh. A failed decryption leaves the entry dropped. */
  function RegionCacheOne(s: Snapshot, api: Api, lister: Lister, p: Crypto.Primitives, password: string, account: Account): Snapshot {
    var s0 := s.(cachedRegions := s.cachedRegions - {account.id});
    match FetchHosts(api, lister, p, password, account)
    case Failure(_) => s0
    case Success((ir, h)) => RecordHosts(s0, account.id, ir, h)
  }

  /** The per-account steps applied to the accounts in list order. */
  function ApplyEach(step: (Snapshot, Account) -> Snapshot, s: Snapshot, accounts: seq<Account>): Snapshot {
    if accounts == [] then s
    else step(ApplyEach(step, s, accounts[..|accounts| - 1]), accounts[|accounts| - 1])
  }

  function RefreshStep(api: Api, lister: Lister, p: Crypto.Primitives, password: string, now: int): (Snapshot, Account) -> Snapshot {
    (s: Snapshot, a: Account) => RefreshOne(s, api, lister, p, password, a, now)
  }

  function RegionCacheStep(api: Api, lister: Lister, p: Crypto.Primitives, password: string): (Snapshot, Account) -> Snapshot {
    (s: Snapshot, a: Account) => RegionCacheOne(s, api, lister, p, password, a)
  }

  /** A per-account step is local: it writes only the keys of its account, and what it writes
      there depends only on what the store held for that account. */
  ghost predicate Local(step: (Snapshot, Account) -> Snapshot) {
    && (forall s: Snapshot, a: Account, k: string :: k != a.id ==> SameAt(s, step(s, a), k))
    && (forall s: Snapshot, t: Snapshot, a: Account :: SameAt(s, t, a.id) ==> SameAt(step(s, a), step(t, a), a.id))
  }

  lemma RecordHostsFrame(s: Snapshot, key: string, ir: InstanceList, h: Hosts, k: string)
    requires k != key
    ensures SameAt(s, RecordHosts(s, key, ir, h), k)
  {
  }

  lemma RecordHostsSame(s: Snapshot, t: Snapshot, key: string, ir: InstanceList, h: Hosts)
    requires SameAt(s, t, key)
    ensures SameAt(RecordHosts(s, key, ir, h), RecordHosts(t, key, ir, h), key)
  {
    if ir.instances != [] {
      var s1 := s.(instances := s.instances[key := h.instances], images := s.images[key := h.images], eips := s.eips[key := h.eips]);
      var t1 := t.(instances := t.instances[key := h.instances], images := t.images[key := h.images], eips := t.eips[key := h.eips]);
      assert SameAt(s1, t1, key);
    }
  }

  lemma StoreFrame(s: Snapshot, key: string, f: Fetched, k: string)
    requires k != key
    ensures SameAt(s, Store(s, key, f), k)
  {
    var s1 := s.(balances := s.balances[key := f.balance],
                 projects := if f.projects != [] then s.projects[key := f.projects] else s.projects);
    RecordHostsFrame(s1, key, f.hosts, f.collected, k);
  }

  lemma StoreSame(s: Snapshot, t: Snapshot, key: string, f: Fetched)
    requires SameAt(s, t, key)
    ensures SameAt(Store(s, key, f), Store(t, key, f), key)
  {
    var s1 := s.(balances := s.balances[key := f.balance],
                 projects := if f.projects != [] then s.projects[key := f.projects] else s.projects);
    var t1 := t.(balances := t.balances[key := f.balance],
                 projects := if f.projects != [] then t.projects[key := f.projects] else t.projects);
    assert SameAt(s1, t1, key);
    RecordHostsSame(s1, t1, key, f.hosts, f.collected);
  }

  lemma RefreshOneFrame(s: Snapshot, api: Api, lister: Lister, p: Crypto.Primitives, password: string, a: Account, now: int, k: string)
    requires k != a.id
    ensures SameAt(s, RefreshOne(s, api, lister, p, password, a, now), k)
  {
    var r := FetchAccount(api, lister, p, password, a, now, Cached(s, a.id));
    if r.Success? { StoreFrame(s, a.id, r.value, k); }
  }

  lemma RefreshOneSame(s: Snapshot, t: Snapshot, api: Api, lister: Lister, p: Crypto.Primitives, password: string, a: Account, now: int)
    requires SameAt(s, t, a.id)
    ensures SameAt(RefreshOne(s, api, lister, p, password, a, now), RefreshOne(t, api, lister, p, password, a, now), a.id)
  {
    assert Cached(s, a.id) == Cached(t, a.id);
    var r := FetchAccount(api, lister, p, password, a, now, Cached(s, a.id));
    if r.Success? { StoreSame(s, t, a.id, r.value); }
  }

  lemma RegionCacheOneFrame(s: Snapshot, api: Api, lister: Lister, p: Crypto.Primitives, password: string, a: Account, k: string)
    requires k != a.id
    ensures SameAt(s, RegionCacheOne(s, api, lister, p, password, a), k)
  {
    var s0 := s.(cachedRegions := s.cachedRegions - {a.id});
    assert SameAt(s, s0, k);
    var r := FetchHosts(api, lister, p, password, a);
    if r.Success? { RecordHostsFrame(s0, a.id, r.value.0, r.value.1, k); }
  }

  lemma RegionCacheOneSame(s: Snapshot, t: Snapshot, api: Api, lister: Lister, p: Crypto.Primitives, password: string, a: Account)
    requires SameAt(s, t, a.id)
    ensures SameAt(RegionCacheOne(s, api, lister, p, password, a), RegionCacheOne(t, api, lister, p, password, a), a.id)
  {
    var s0 := s.(cachedRegions := s.cachedRegions - {a.id});
    var t0 := t.(cachedRegions := t.cachedRegions - {a.id});
    assert SameAt(s0, t0, a.id);
    var r := FetchHosts(api, lister, p, password, a);
    if r.Success? { RecordHostsSame(s0, t0, a.id, r.value.0, r.value.1); }
  }

  lemma RefreshOneLocal(api: Api, lister: Lister, p: Crypto.Primitives, password: string, now: int)
    ensures Local(RefreshStep(api, lister, p, password, now))
  {
    var step := RefreshStep(api, lister, p, password, now);
    forall s: Snapshot, a: Account, k: string | k != a.id ensures SameAt(s, step(s, a), k) {
      RefreshOneFrame(s, api, lister, p, password, a, now, k);
    }
    forall s: Snapshot, t: Snapshot, a: Account | SameAt(s, t, a.id) ensures SameAt(step(s, a), step(t, a), a.id) {
      RefreshOneSame(s, t, api, lister, p, password, a, now);
    }
  }

  lemma RegionCacheOneLocal(api: Api, lister: Lister, p: Crypto.Primitives, password: string)
    ensures Local(RegionCacheStep(api, lister, p, password))
  {
    var step := RegionCacheStep(api, lister, p, password);
    forall s: Snapshot, a: Account, k: string | k != a.id ensures SameAt(s, step(s, a), k) {
      RegionCacheOneFrame(s, api, lister, p, password, a, k);
    }
    forall s: Snapshot, t: Snapshot, a: Account | SameAt(s, t, a.id) ensures SameAt(step(s, a), step(t, a), a.id) {
      RegionCacheOneSame(s, t, api, lister, p, password, a);
    }
  }

  /** Accounts other than k leave k's data alone. */
  lemma {:induction false} ApplyEachFrame(step: (Snapshot, Account) -> Snapshot, s: Snapshot, accounts: seq<Account>, k: string)
    requires Local(step)
    requires forall i :: 0 <= i < |accounts| ==> accounts[i].id != k
    ensures SameAt(s, ApplyEach(step, s, accounts), k)
  {
    if accounts != [] {
      var front := accounts[..|accounts| - 1];
      ApplyEachFrame(step, s, front, k);
      assert SameAt(ApplyEach(step, s, front), ApplyEach(step, s, accounts), k);
    }
  }

  /** The steps of accounts with distinct ids do not interfere: after all of them, each account
      holds what its own step alone would have written, whatever the order. */
  lemma {:induction false} ApplyEachIsolation(step: (Snapshot, Account) -> Snapshot, s: Snapshot, accounts: seq<Account>, i: nat)
    requires Local(step)
    requires i < |accounts|
    requires forall j :: 0 <= j < |accounts| && j != i ==> accounts[j].id != accounts[i].id
    ensures SameAt(ApplyEach(step, s, accounts), step(s, accounts[i]), accounts[i].id)
  {
    var n := |accounts| - 1;
    var front := accounts[..n];
    var k := accounts[i].id;
    var mid := ApplyEach(step, s, front);
    if i == n {
      ApplyEachFrame(step, s, front, k);
      assert SameAt(step(mid, accounts[n]), step(s, accounts[n]), k);
    } else {
      ApplyEachIsolation(step, s, front, i);
      assert SameAt(mid, step(mid, accounts[n]), k);
    }
  }

  /** A step that keeps the store valid keeps it valid over any list of accounts. */
  lemma {:induction false} ApplyEachValid(step: (Snapshot, Account) -> Snapshot, s: Snapshot, accounts: seq<Account>)
    requires forall t, a :: SnapshotValid(t) ==> SnapshotValid(step(t, a))
    requires SnapshotValid(s)
    ensures SnapshotValid(ApplyEach(step, s, accounts))
  {
    if accounts != [] {
      ApplyEachValid(step, s, accounts[..|accounts| - 1]);
    }
  }

  /** What filing a host list does. An empty host list leaves hosts, images and elastic IPs as they
      were; otherwise the collected hosts are stored, each lies in the newly cached regions, and
      the images and elastic IPs lie in regions of those hosts. */
  lemma RecordHostsProperties(s: Snapshot, key: string, ir: InstanceList, h: Hosts)
    requires forall x :: x in ir.instances ==> x.region in ir.validRegions
    requires Collected(ir.instances, h)
    ensures var t := RecordHosts(s, key, ir, h);
      && t.balances == s.balances && t.projects == s.projects
      && (ir.validRegions != [] ==> key in t.cachedRegions && t.cachedRegions[key] == ir.validRegions)
      && (ir.validRegions == [] ==> t.cachedRegions == s.cachedRegions)
      && (ir.instances == [] ==> t.instances == s.instances && t.images == s.images && t.eips == s.eips)
      && (ir.instances != [] ==>
            && key in t.instances && key in t.images && key in t.eips && key in t.cachedRegions
            && t.instances[key] == h.instances
            && (forall x :: x in t.instances[key] ==> x.region in t.cachedRegions[key])
            && (forall y :: y in t.images[key] ==> exists x :: x in t.instances[key] && x.region == y.region)
            && (forall y :: y in t.eips[key] ==> exists x :: x in t.instances[key] && x.region == y.region))
  {
    if ir.instances != [] {
      assert ir.instances[0] in ir.instances;
      forall x | x in h.instances ensures x.region in ir.validRegions {
        var i :| 0 <= i < |h.instances| && h.instances[i] == x;
        assert h.instances[i].region == ir.instances[i].region;
        assert ir.instances[i] in ir.instances;
      }
    }
  }

  /** Filing a host list keeps the store valid. */
  lemma RecordHostsValid(s: Snapshot, key: string, ir: InstanceList, h: Hosts)
    requires SnapshotValid(s)
    requires Collected(ir.instances, h)
    ensures SnapshotValid(RecordHosts(s, key, ir, h))
  {
    var s1 := if ir.instances != [] then
                s.(instances := s.instances[key := h.instances], images := s.images[key := h.images], eips := s.eips[key := h.eips])
              else s;
    if ir.instances != [] {
      assert |h.instances| == |ir.instances|;
      assert NonEmptyLists(s1.instances);
      assert UniqueLists(ImageKey, s1.images);
      assert UniqueLists(EipKey, s1.eips);
    }
    assert SnapshotValid(s1);
    if ir.validRegions != [] {
      assert CacheValid(s1.cachedRegions[key := ir.validRegions]);
    }
  }

  lemma StoreValid(s: Snapshot, key: string, f: Fetched)
    requires SnapshotValid(s)
    requires FetchedValid(key, f)
    ensures SnapshotValid(Store(s, key, f))
  {
    var s1 := s.(balances := s.balances[key := f.balance],
                 projects := if f.projects != [] then s.projects[key := f.projects] else s.projects);
    assert BalancesValid(s1.balances);
    assert NonEmptyLists(s1.projects);
    assert SnapshotValid(s1);
    RecordHostsValid(s1, key, f.hosts, f.collected);
  }

  lemma RefreshOneValid(s: Snapshot, api: Api, lister: Lister, p: Crypto.Primitives, password: string, a: Account, now: int)
    requires SnapshotValid(s)
    ensures SnapshotValid(RefreshOne(s, api, lister, p, password, a, now))
  {
    var r := FetchAccount(api, lister, p, password, a, now, Cached(s, a.id));
    if r.Success? {
      FetchAccountValid(api, lister, p, password, a, now, Cached(s, a.id));
      StoreValid(s, a.id, r.value);
    }
  }

  lemma RegionCacheOneValid(s: Snapshot, api: Api, lister: Lister, p: Crypto.Primitives, password: string, a: Account)
    requires SnapshotValid(s)
    ensures SnapshotValid(RegionCacheOne(s, api, lister, p, password, a))
  {
    var s0 := s.(cachedRegions := s.cachedRegions - {a.id});
    assert CacheValid(s0.cachedRegions);
    var r := FetchHosts(api, lister, p, password, a);
    if r.Success? {
      FetchHostsValid(api, lister, p, password, a);
      RecordHostsValid(s0, a.id, r.value.0, r.value.1);
    }
  }

  /** What writing a valid fetch does: the balance is stored, the projects when there are any,
      and when hosts were found the collected hosts, every one of them in a cached region, with
      images and elastic IPs only from regions of those hosts. */
  lemma StoreEffect(s: Snapshot, key: string, f: Fetched)
    requires FetchedValid(key, f)
    ensures var t := Store(s, key, f);
      && key in t.balances && t.balances[key] == f.balance && t.balances[key].accountId == key
      && (f.projects != [] ==> key in t.projects && t.projects[key] == f.projects)
      && (f.projects == [] ==> Agree(s.projects, t.projects, key))
      && (f.hosts.instances == [] ==> Agree(s.instances, t.instances, key))
      && (f.hosts.instances != [] ==>
            && key in t.instances && key in t.images && key in t.eips && key in t.cachedRegions
            && t.instances[key] == f.collected.instances
            && |t.instances[key]| == |f.hosts.instances|
            && (forall x :: x in t.instances[key] ==> x.region in t.cachedRegions[key])
            && (forall y :: y in t.images[key] ==> exists x :: x in t.instances[key] && x.region == y.region)
            && (forall y :: y in t.eips[key] ==> exists x :: x in t.instances[key] && x.region == y.region))
  {
    var s1 := s.(balances := s.balances[key := f.balance],
                 projects := if f.projects != [] then s.projects[key := f.projects] else s.projects);
    RecordHostsProperties(s1, key, f.hosts, f.collected);
  }

  /** What a refresh of one account does. A failed fetch leaves the store as it was. A successful
      one stores the balance, stores the projects when there are any and keeps the old ones
      otherwise, and when hosts were found stores the collected hosts, every one of them in a
      cached region, with images and elastic IPs only from regions of those hosts. */
  lemma RefreshOneEffect(s: Snapshot, api: Api, lister: Lister, p: Crypto.Primitives, password: string, a: Account, now: int)
    ensures var r := FetchAccount(api, lister, p, password, a, now, Cached(s, a.id));
            var t := RefreshOne(s, api, lister, p, password, a, now);
            var k := a.id;
      && (r.Failure? ==> t == s)
      && (r.Success? ==>
            && k in t.balances && t.balances[k] == r.value.balance && t.balances[k].accountId == k
            && (r.value.projects != [] ==> k in t.projects && t.projects[k] == r.value.projects)
            && (r.value.projects == [] ==> Agree(s.projects, t.projects, k))
            && (r.value.hosts.instances == [] ==> Agree(s.instances, t.instances, k))
            && (r.value.hosts.instances != [] ==>
                  && k in t.instances && k in t.images && k in t.eips && k in t.cachedRegions
                  && t.instances[k] == r.value.collected.instances
                  && |t.instances[k]| == |r.value.hosts.instances|
                  && (forall x :: x in t.instances[k] ==> x.region in t.cachedRegions[k])
                  && (forall y :: y in t.images[k] ==> exists x :: x in t.instances[k] && x.region == y.region)
                  && (forall y :: y in t.eips[k] ==> exists x :: x in t.instances[k] && x.region == y.region)))
  {
    var r := FetchAccount(api, lister, p, password, a, now, Cached(s, a.id));
    if r.Success? {
      FetchAccountValid(api, lister, p, password, a, now, Cached(s, a.id));
      StoreEffect(s, a.id, r.value);
    }
  }

  /** `refreshAllData` over accounts with distinct ids: each account ends up with exactly what
      refreshing it alone from the initial store gives, so the concurrent refreshes of the source
      cannot interfere whatever order they finish in. */
  lemma RefreshAllIndependent(s: Snapshot, api: Api, lister: Lister, p: Crypto.Primitives, password: string, now: int, accounts: seq<Account>, i: nat)
    requires i < |accounts|
    requires forall j :: 0 <= j < |accounts| && j != i ==> accounts[j].id != accounts[i].id
    ensures SameAt(ApplyEach(RefreshStep(api, lister, p, password, now), s, accounts), RefreshOne(s, api, lister, p, password, accounts[i], now), accounts[i].id)
  {
    RefreshOneLocal(api, lister, p, password, now);
    ApplyEachIsolation(RefreshStep(api, lister, p, password, now), s, accounts, i);
  }

  /** The data of an account that is not refreshed (a disabled one, or one not in the list) stay
      as they were. */
  lemma RefreshAllSkips(s: Snapshot, api: Api, lister: Lister, p: Crypto.Primitives, password: string, now: int, accounts: seq<Account>, k: string)
    requires forall a :: a in accounts && a.id == k ==> !IsEnabled(a)
    ensures SameAt(s, ApplyEach(RefreshStep(api, lister, p, password, now), s, Filter(IsEnabled, accounts)), k)
  {
    var enabled := Filter(IsEnabled, accounts);
    forall i | 0 <= i < |enabled| ensures enabled[i].id != k {
      assert enabled[i] in enabled;
    }
    RefreshOneLocal(api, lister, p, password, now);
    ApplyEachFrame(RefreshStep(api, lister, p, password, now), s, enabled, k);
  }

  /** The same independence for `refreshRegionCache`. */
  lemma RegionCacheIndependent(s: Snapshot, api: Api, lister: Lister, p: Crypto.Primitives, password: string, accounts: seq<Account>, i: nat)
    requires i < |accounts|
    requires forall j :: 0 <= j < |accounts| && j != i ==> accounts[j].id != accounts[i].id
    ensures SameAt(ApplyEach(RegionCacheStep(api, lister, p, password), s, accounts), RegionCacheOne(s, api, lister, p, password, accounts[i]), accounts[i].id)
  {
    RegionCacheOneLocal(api, lister, p, password);
    ApplyEachIsolation(RegionCacheStep(api, lister, p, password), s, accounts, i);
  }

  /** A region cache refresh drops the account's cached regions and puts back exactly the regions
      that hold hosts now; a failed decryption leaves nothing cached. The balances and projects are
      untouched. */
  lemma RegionCacheOneEffect(s: Snapshot, api: Api, lister: Lister, p: Crypto.Primitives, password: string, a: Account)
    ensures var t := RegionCacheOne(s, api, lister, p, password, a);
            var r := FetchHosts(api, lister, p, password, a);
      && t.balances == s.balances && t.projects == s.projects
      && (r.Failure? ==> a.id !in t.cachedRegions && t.instances == s.instances)
      && (r.Success? ==>
            (a.id in t.cachedRegions <==> r.value.0.validRegions != [])
            && (a.id in t.cachedRegions ==>
                  && t.cachedRegions[a.id] == r.value.0.validRegions
                  && (forall g :: g in t.cachedRegions[a.id] ==> HostsByRegion(api, DecryptAccount(p, a, password).value, g).hasInstances)))
  {
    var s0 := s.(cachedRegions := s.cachedRegions - {a.id});
    var r := FetchHosts(api, lister, p, password, a);
    if r.Success? {
      FetchHostsValid(api, lister, p, password, a);
      RecordHostsProperties(s0, a.id, r.value.0, r.value.1);
      ListInstancesProperties(lister, api, DecryptAccount(p, a, password).value, None);
    }
  }

  /** Filing a region list without repetitions keeps every cached list free of repetitions. */
  lemma RecordHostsDistinct(s: Snapshot, key: string, ir: InstanceList, h: Hosts)
    requires DistinctCache(s.cachedRegions)
    requires NoDuplicates(ir.validRegions)
    ensures DistinctCache(RecordHosts(s, key, ir, h).cachedRegions)
  {
    var s1 := if ir.instances != [] then
                s.(instances := s.instances[key := h.instances], images := s.images[key := h.images], eips := s.eips[key := h.eips])
              else s;
    assert s1.cachedRegions == s.cachedRegions;
    if ir.validRegions != [] {
      assert DistinctCache(s1.cachedRegions[key := ir.validRegions]);
    }
  }

  /** With the corrected region query, a refresh of one account caches each region once. */
  lemma RefreshOneDistinct(s: Snapshot, api: Api, p: Crypto.Primitives, password: string, a: Account, now: int)
    requires DistinctCache(s.cachedRegions)
    ensures DistinctCache(RefreshOne(s, api, Corrected, p, password, a, now).cachedRegions)
  {
    var r := FetchAccount(api, Corrected, p, password, a, now, Cached(s, a.id));
    if r.Success? {
      FetchAccountValid(api, Corrected, p, password, a, now, Cached(s, a.id));
      var f := r.value;
      var s1 := s.(balances := s.balances[a.id := f.balance],
                   projects := if f.projects != [] then s.projects[a.id := f.projects] else s.projects);
      RecordHostsDistinct(s1, a.id, f.hosts, f.collected);
    }
  }

  /** With the corrected region query, a region cache refresh of one account caches each region
      once. */
  lemma RegionCacheOneDistinct(s: Snapshot, api: Api, p: Crypto.Primitives, password: string, a: Account)
    requires DistinctCache(s.cachedRegions)
    ensures DistinctCache(RegionCacheOne(s, api, Corrected, p, password, a).cachedRegions)
  {
    var s0 := s.(cachedRegions := s.cachedRegions - {a.id});
    assert DistinctCache(s0.cachedRegions);
    var r := FetchHosts(api, Corrected, p, password, a);
    if r.Success? {
      FetchHostsValid(api, Corrected, p, password, a);
      RecordHostsDistinct(s0, a.id, r.value.0, r.value.1);
    }
  }

  /** A region cache refresh of an account whose keys decrypt files the queried region list and
      as many hosts as the query found. */
  lemma RegionCacheOneFiles(s: Snapshot, api: Api, lister: Lister, p: Crypto.Primitives, password: string, a: Account)
    requires DecryptAccount(p, a, password).Success?
    ensures var ir := ListInstances(lister, api, DecryptAccount(p, a, password).value, None);
            var t := RegionCacheOne(s, api, lister, p, password, a);
      && (ir.validRegions != [] ==> a.id in t.cachedRegions && t.cachedRegions[a.id] == ir.validRegions)
      && (ir.instances != [] ==> a.id in t.instances && |t.instances[a.id]| == |ir.instances|)
  {
    var s0 := s.(cachedRegions := s.cachedRegions - {a.id});
    var r := FetchHosts(api, lister, p, password, a);
    FetchHostsValid(api, lister, p, password, a);
    RecordHostsProperties(s0, a.id, r.value.0, r.value.1);
  }

  /** Both refreshes of one account keep the store invariant. */
  lemma RefreshOneInvariant(s: Snapshot, api: Api, lister: Lister, p: Crypto.Primitives, password: string, a: Account, now: int)
    requires StoreInvariant(lister, s)
    ensures StoreInvariant(lister, RefreshOne(s, api, lister, p, password, a, now))
  {
    RefreshOneValid(s, api, lister, p, password, a, now);
    if lister == Corrected {
      RefreshOneDistinct(s, api, p, password, a, now);
    }
  }

  lemma RegionCacheOneInvariant(s: Snapshot, api: Api, lister: Lister, p: Crypto.Primitives, password: string, a: Account)
    requires StoreInvariant(lister, s)
    ensures StoreInvariant(lister, RegionCacheOne(s, api, lister, p, password, a))
  {
    RegionCacheOneValid(s, api, lister, p, password, a);
    if lister == Corrected {
      RegionCacheOneDistinct(s, api, p, password, a);
    }
  }

  /** The store-level effect of the duplicate-zone defect: on a region with two zones and one
      host, the source's region cache refresh caches that region twice and stores the host twice;
      the corrected query caches it once and stores the host once. */
  lemma RegionCacheDuplicateZone(s: Snapshot, p: Crypto.Primitives, password: string, a: Account)
    requires DecryptAccount(p, a, password).Success?
    ensures var t := RegionCacheOne(s, TwoZoneApi(), AsWritten, p, password, a);
      && a.id in t.cachedRegions && t.cachedRegions[a.id] == ["cn-bj2", "cn-bj2"]
      && !DistinctCache(t.cachedRegions)
      && a.id in t.instances && |t.instances[a.id]| == 2
    ensures var t := RegionCacheOne(s, TwoZoneApi(), Corrected, p, password, a);
      && a.id in t.cachedRegions && t.cachedRegions[a.id] == ["cn-bj2"]
      && a.id in t.instances && |t.instances[a.id]| == 1
  {
    DuplicateZoneCounterexample(DecryptAccount(p, a, password).value);
    RegionCacheOneFiles(s, TwoZoneApi(), AsWritten, p, password, a);
    RegionCacheOneFiles(s, TwoZoneApi(), Corrected, p, password, a);
    var t := RegionCacheOne(s, TwoZoneApi(), AsWritten, p, password, a);
    assert !NoDuplicates(t.cachedRegions[a.id]) by {
      assert t.cachedRegions[a.id][0] == t.cachedRegions[a.id][1];
    }
  }

  /** The accounts `refreshRegionCache` visits: with a (non-empty) id, that account when it is an
      enabled UCloud account; without one, every enabled UCloud account in list order. */
  function RegionCacheTargets(accounts: seq<Account>, accountId: Option<string>): (r: seq<Account>)
    ensures forall a :: a in r ==> a in accounts && a.provider.UCloud? && IsEnabled(a)
    ensures Truthy(accountId) ==> |r| <= 1 && forall a :: a in r ==> a.id == accountId.value
    ensures Truthy(accountId) && IndexOfId(accounts, accountId.value).Some? && IsEnabled(accounts[IndexOfId(accounts, accountId.value).value])
            ==> r == [accounts[IndexOfId(accounts, accountId.value).value]]
    ensures !Truthy(accountId) ==> forall a :: a in accounts && IsEnabled(a) ==> a in r
    ensures !Truthy(accountId) ==> IsSubsequence(r, accounts)
  {
    if Truthy(accountId) then
      match IndexOfId(accounts, accountId.value)
      case None => []
      case Some(i) => if accounts[i].provider.UCloud? && IsEnabled(accounts[i]) then [accounts[i]] else []
    else
      var ucloud := (a: Account) => a.provider.UCloud? && IsEnabled(a);
      FilterIsSubsequence(ucloud, accounts);
      Filter(ucloud, accounts)
  }

  /** `refreshAccountData`: an unknown id is an error, a disabled account is skipped, a failed
      decryption or balance query passes its error on, and otherwise the fresh balance is the
      result. */
  function BalanceRefresh(accounts: seq<Account>, api: Api, p: Crypto.Primitives, password: string, id: string, now: int)
    : (r: Result<Option<Balance>, string>)
    ensures IndexOfId(accounts, id).None? ==> r == Failure(NotFound)
    ensures IndexOfId(accounts, id).Some? ==>
              var a := accounts[IndexOfId(accounts, id).value];
              && (!IsEnabled(a) <==> r == Success(None))
              && (IsEnabled(a) && DecryptAccount(p, a, password).Failure? ==> r == Failure(DecryptFailure(a)))
              && (IsEnabled(a) && DecryptAccount(p, a, password).Success? ==>
                    var b := GetBalance(api, DecryptAccount(p, a, password).value, now);
                    (b.Failure? ==> r == Failure(b.error)) && (b.Success? ==> r == Success(Some(b.value))))
              && (r.Success? && r.value.Some? ==> r.value.value.accountId == id && r.value.value.lastUpdated == now)
  {
    match IndexOfId(accounts, id)
    case None => Failure(NotFound)
    case Some(i) =>
      var a := accounts[i];
      if a.enabled == Some(false) then Success(None)
      else
        match DecryptAccount(p, a, password)
        case Failure(e) => Failure(e)
        case Success(dec) =>
          match GetBalance(api, dec, now)
          case Failure(e) => Failure(e)
          case Success(b) => Success(Some(b))
  }

  /** The store. The source keeps it in one global object; here the account store and the adapter
      registry are passed to the operations that use them. */
  class DataStore {
    var balances: map<string, Balance>
    var projects: map<string, seq<Project>>
    var instances: map<string, seq<Instance>>
    var images: map<string, seq<Image>>
    var eips: map<string, seq<Eip>>
    var cachedRegions: map<string, seq<string>>
    var isLoading: bool
    var lastUpdated: int
    /** Which region query the store uses: the source's, or the corrected one. */
    const lister: Lister

    function Snap(): Snapshot
      reads this
    {
      Snapshot(balances, projects, instances, images, eips, cachedRegions)
    }

    /** The store is valid, and with the corrected region query it caches each region once. */
    predicate Valid()
      reads this
    {
      StoreInvariant(lister, Snap())
    }

    constructor (lister: Lister)
      ensures Snap() == Empty && !isLoading && lastUpdated == 0 && this.lister == lister
      ensures Valid()
    {
      balances, projects, instances, images, eips, cachedRegions := map[], map[], map[], map[], map[], map[];
      isLoading, lastUpdated := false, 0;
      this.lister := lister;
    }

    /** The disks, images and elastic IPs of a host list, collected as the source does. */
    static method Collect(api: Api, account: Account, xs: seq<Instance>) returns (h: Hosts)
      ensures h == CollectHosts(api, account, xs)
    {
      var withDisks := Map((x: Instance) => AttachVolumes(api, account, x), xs);
      var regions := InstanceRegions(withDisks);
      var allImages := GatherLoop(ImageKey, ImagesOf(api, account), regions);
      var allEips := GatherLoop(EipKey, EipsOf(api, account), regions);
      h := Hosts(withDisks, allImages, allEips);
    }

    /** Writes a host query result into the maps. */
    method WriteHosts(key: string, ir: InstanceList, h: Hosts)
      modifies this
      ensures Snap() == RecordHosts(old(Snap()), key, ir, h)
      ensures isLoading == old(isLoading) && lastUpdated == old(lastUpdated)
    {
      if |ir.instances| > 0 {
        instances := instances[key := h.instances];
        images := images[key := h.images];
        eips := eips[key := h.eips];
      }
      if |ir.validRegions| > 0 {
        cachedRegions := cachedRegions[key := ir.validRegions];
      }
    }

    /** The queries of the per-account callback of `refreshAllData`. The three queries after the
        decryption run concurrently in the source; a failed balance query discards the other two. */
    static method FetchAccountData(factory: AdapterFactory, lister: Lister, p: Crypto.Primitives, password: string,
                                   account: Account, now: int, cached: Option<seq<string>>)
      returns (r: Result<Fetched, string>)
      requires factory.Valid()
      modifies factory
      ensures factory.Valid()
      ensures r == FetchAccount(factory.network, lister, p, password, account, now, cached)
    {
      var dec := DecryptAccount(p, account, password);
      if dec.Failure? {
        return Failure(dec.error);
      }
      var adapter := factory.GetAdapter(account.provider);
      var balance := GetBalance(adapter.api, dec.value, now);
      var projectList := ProjectList(adapter.api, dec.value, None, None);
      var ir := QueryInstances(lister, adapter.api, dec.value, cached);
      if balance.Failure? {
        return Failure(balance.error);
      }
      var h := Collect(adapter.api, dec.value, ir.instances);
      r := Success(Fetched(balance.value, projectList, ir, h));
    }

    /** The writes of the per-account callback of `refreshAllData`. */
    method WriteFetched(key: string, f: Fetched)
      modifies this
      ensures Snap() == Store(old(Snap()), key, f)
      ensures isLoading == old(isLoading) && lastUpdated == old(lastUpdated)
    {
      balances := balances[key := f.balance];
      if |f.projects| > 0 {
        projects := projects[key := f.projects];
      }
      WriteHosts(key, f.hosts, f.collected);
    }

    /** The per-account callback of `refreshAllData`. */
    method RefreshAccount(factory: AdapterFactory, p: Crypto.Primitives, password: string, account: Account, now: int)
      requires factory.Valid()
      modifies this, factory
      ensures factory.Valid()
      ensures Snap() == RefreshOne(old(Snap()), factory.network, lister, p, password, account, now)
      ensures isLoading == old(isLoading) && lastUpdated == old(lastUpdated)
    {
      var cached := if account.id in cachedRegions then Some(cachedRegions[account.id]) else None;
      assert cached == Cached(Snap(), account.id);
      var r := FetchAccountData(factory, lister, p, password, account, now, cached);
      if r.Success? {
        WriteFetched(account.id, r.value);
      }
    }

    /** The per-account callbacks of `refreshAllData`, one after the other. */
    method RefreshEach(factory: AdapterFactory, p: Crypto.Primitives, password: string, accounts: seq<Account>, now: int)
      requires Valid() && factory.Valid()
      modifies this, factory
      ensures Valid() && factory.Valid()
      ensures Snap() == ApplyEach(RefreshStep(factory.network, lister, p, password, now), old(Snap()), accounts)
      ensures isLoading == old(isLoading) && lastUpdated == old(lastUpdated)
    {
      var step := RefreshStep(factory.network, lister, p, password, now);
      var i := 0;
      while i < |accounts|
        invariant 0 <= i <= |accounts|
        invariant factory.Valid() && Valid()
        invariant Snap() == ApplyEach(step, old(Snap()), accounts[..i])
        invariant isLoading == old(isLoading) && lastUpdated == old(lastUpdated)
      {
        RefreshOneInvariant(Snap(), factory.network, lister, p, password, accounts[i], now);
        RefreshAccount(factory, p, password, accounts[i], now);
        assert accounts[..i + 1][..i] == accounts[..i];
        i := i + 1;
      }
      assert accounts[..i] == accounts;
    }

    /** `refreshAllData`: nothing happens without accounts; otherwise every enabled account is
        refreshed and the time of the refresh is recorded. */
    method RefreshAllData(store: AccountStore, factory: AdapterFactory, p: Crypto.Primitives, now: int)
      requires Valid() && factory.Valid()
      modifies this, factory
      ensures Valid() && factory.Valid()
      ensures store.accounts == [] ==>
                Snap() == old(Snap()) && isLoading == old(isLoading) && lastUpdated == old(lastUpdated)
      ensures store.accounts != [] ==>
                && Snap() == ApplyEach(RefreshStep(factory.network, lister, p, store.masterPassword, now), old(Snap()), Filter(IsEnabled, store.accounts))
                && lastUpdated == now && !isLoading
    {
      if |store.accounts| == 0 {
        return;
      }
      isLoading := true;
      RefreshEach(factory, p, store.masterPassword, Filter(IsEnabled, store.accounts), now);
      lastUpdated := now;
      isLoading := false;
    }

    /** The lookups and queries of `refreshAccountData`. */
    static method FetchBalance(store: AccountStore, factory: AdapterFactory, p: Crypto.Primitives, id: string, now: int)
      returns (o: Result<Option<Balance>, string>)
      requires factory.Valid()
      modifies factory
      ensures factory.Valid()
      ensures o == BalanceRefresh(store.accounts, factory.network, p, store.masterPassword, id, now)
    {
      var found := store.GetAccountById(id);
      if found.None? {
        return Failure(NotFound);
      }
      var account := found.value;
      if account.enabled == Some(false) {
        return Success(None);
      }
      var dec := DecryptAccount(p, account, store.masterPassword);
      if dec.Failure? {
        return Failure(dec.error);
      }
      var adapter := factory.GetAdapter(account.provider);
      var balance := GetBalance(adapter.api, dec.value, now);
      if balance.Failure? {
        return Failure(balance.error);
      }
      o := Success(Some(balance.value));
    }

    /** `refreshAccountData`: only the balance of the account is refreshed, and the time of the
        refresh recorded, when the account is found, enabled and its balance could be read. */
    method RefreshAccountData(store: AccountStore, factory: AdapterFactory, p: Crypto.Primitives, id: string, now: int)
      returns (r: Outcome<string>)
      requires Valid() && factory.Valid()
      modifies this, factory
      ensures Valid() && factory.Valid()
      ensures var o := BalanceRefresh(store.accounts, factory.network, p, store.masterPassword, id, now);
        && (r.Fail? <==> o.Failure?)
        && (o.Failure? ==> r.error == o.error)
        && (o.Success? && o.value.Some? ==> balances == old(balances)[id := o.value.value] && lastUpdated == now)
        && (o.Failure? || o.value.None? ==> balances == old(balances) && lastUpdated == old(lastUpdated))
      ensures projects == old(projects) && instances == old(instances) && images == old(images)
      ensures eips == old(eips) && cachedRegions == old(cachedRegions) && isLoading == old(isLoading)
    {
      var o := FetchBalance(store, factory, p, id, now);
      if o.Failure? {
        return Fail(o.error);
      }
      if o.value.Some? {
        balances := balances[id := o.value.value];
        lastUpdated := now;
      }
      r := Pass;
    }

    /** `getAccountBalance`: the stored balance, which is the account's own. */
    function GetAccountBalance(id: string): (r: Option<Balance>)
      reads this
      requires Valid()
      ensures r.Some? <==> id in balances
      ensures r.Some? ==> r.value == balances[id] && r.value.accountId == id
    {
      if id in balances then Some(balances[id]) else None
    }

    /** `getAccountProjects`: the stored projects, or none; a stored list is never empty, so an
        empty answer means nothing is stored. */
    function GetAccountProjects(id: string): (r: seq<Project>)
      reads this
      requires Valid()
      ensures r == [] <==> id !in projects
      ensures id in projects ==> r == projects[id]
    {
      if id in projects then projects[id] else []
    }

    /** The body of the per-account callback of `refreshRegionCache`. */
    method RefreshRegions(factory: AdapterFactory, p: Crypto.Primitives, password: string, account: Account)
      requires factory.Valid()
      modifies this, factory
      ensures factory.Valid()
      ensures Snap() == RegionCacheOne(old(Snap()), factory.network, lister, p, password, account)
      ensures isLoading == old(isLoading) && lastUpdated == old(lastUpdated)
    {
      cachedRegions := cachedRegions - {account.id};
      var dec := DecryptAccount(p, account, password);
      if dec.Failure? {
        return;
      }
      var adapter := factory.GetAdapter(account.provider);
      var ir := QueryInstances(lister, adapter.api, dec.value, None);
      var h := Collect(adapter.api, dec.value, ir.instances);
      assert FetchHosts(factory.network, lister, p, password, account) == Success((ir, h));
      WriteHosts(account.id, ir, h);
    }

    /** The per-account callbacks of `refreshRegionCache`, one after the other. */
    method RefreshRegionsEach(factory: AdapterFactory, p: Crypto.Primitives, password: string, accounts: seq<Account>)
      requires Valid() && factory.Valid()
      modifies this, factory
      ensures Valid() && factory.Valid()
      ensures Snap() == ApplyEach(RegionCacheStep(factory.network, lister, p, password), old(Snap()), accounts)
      ensures isLoading == old(isLoading) && lastUpdated == old(lastUpdated)
    {
      var step := RegionCacheStep(factory.network, lister, p, password);
      var i := 0;
      while i < |accounts|
        invariant 0 <= i <= |accounts|
        invariant factory.Valid() && Valid()
        invariant Snap() == ApplyEach(step, old(Snap()), accounts[..i])
        invariant isLoading == old(isLoading) && lastUpdated == old(lastUpdated)
      {
        RegionCacheOneInvariant(Snap(), factory.network, lister, p, password, accounts[i]);
        RefreshRegions(factory, p, password, accounts[i]);
        assert accounts[..i + 1][..i] == accounts[..i];
        i := i + 1;
      }
      assert accounts[..i] == accounts;
    }

    /** `refreshRegionCache`: nothing happens when no account qualifies; otherwise each target's
        region cache is rebuilt from a query of every region, and the time recorded. */
    method RefreshRegionCache(store: AccountStore, factory: AdapterFactory, p: Crypto.Primitives, accountId: Option<string>, now: int)
      requires Valid() && factory.Valid()
      modifies this, factory
      ensures Valid() && factory.Valid()
      ensures var targets := RegionCacheTargets(store.accounts, accountId);
        && (targets == [] ==> Snap() == old(Snap()) && isLoading == old(isLoading) && lastUpdated == old(lastUpdated))
        && (targets != [] ==>
              && Snap() == ApplyEach(RegionCacheStep(factory.network, lister, p, store.masterPassword), old(Snap()), targets)
              && lastUpdated == now && !isLoading)
    {
      var targets := RegionCacheTargets(store.accounts, accountId);
      if |targets| == 0 {
        return;
      }
      isLoading := true;
      RefreshRegionsEach(factory, p, store.masterPassword, targets);
      lastUpdated := now;
      isLoading := false;
    }

    /** `clearData`: every map emptied and the refresh time reset. */
    method ClearData()
      modifies this
      ensures Snap() == Empty && lastUpdated == 0 && isLoading == old(isLoading)
      ensures Valid()
    {
      balances, projects, instances, images, eips, cachedRegions := map[], map[], map[], map[], map[], map[];
      lastUpdated := 0;
    }
  }
}
