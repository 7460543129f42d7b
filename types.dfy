/** The record shapes of the application: cloud accounts, balances, UCloud projects, regions,
    host instances, disks, images and elastic IPs. Only the fields that the modelled logic reads or
    writes are kept; the many pass-through display fields are dropped. */
module Types {
  import opened Wrappers

  /** JavaScript truthiness of an optional string: present and not empty. */
  predicate Truthy(o: Option<string>) {
    o.Some? && o.value != ""
  }

  /** `o || ""`. */
  function OrEmpty(o: Option<string>): (s: string)
    ensures s == "" <==> !Truthy(o)
    ensures Truthy(o) ==> s == o.value
  {
    if Truthy(o) then o.value else ""
  }

  /** `a || b` on optional strings. */
  function OrElse(a: Option<string>, b: Option<string>): (r: Option<string>)
    ensures Truthy(a) ==> r == a
    ensures !Truthy(a) ==> r == b
  {
    if Truthy(a) then a else b
  }

  /** The supported cloud providers; today UCloud is the only one. */
  datatype CloudProvider = UCloud

  /** A configured cloud account. The access key pair is stored encrypted; `enabled` may be absent
      in data saved by older versions. */
  datatype Account = Account(
    id: string,
    name: string,
    provider: CloudProvider,
    accessKeyId: string,
    accessKeySecret: string,
    region: Option<string>,
    enabled: Option<bool>,
    createdAt: int,
    updatedAt: int)

  /** `account.enabled !== false`: an account counts as enabled unless it is explicitly disabled. */
  predicate IsEnabled(a: Account) {
    a.enabled != Some(false)
  }

  /** The balance of one account, as last fetched. */
  datatype Balance = Balance(accountId: string, balance: real, currency: string, lastUpdated: int)

  /** A UCloud project. */
  datatype Project = Project(projectId: Option<string>, projectName: Option<string>, userCount: int, memberCount: int)

  /** One entry of the region list: UCloud lists a region once per availability zone. */
  datatype Region = Region(region: string, zone: string, isDefault: bool)

  /** A cloud disk; `region` is the region it was queried in. */
  datatype Disk = Disk(uDiskId: Option<string>, uHostId: Option<string>, region: string)

  /** A host instance; `region` is the region it was queried in, `udisks` the attached disks once
      they have been fetched. */
  datatype Instance = Instance(
    uHostId: Option<string>,
    imageId: Option<string>,
    name: Option<string>,
    region: string,
    udisks: Option<seq<Disk>>)

  /** A host image available in a region. */
  datatype Image = Image(imageId: Option<string>, imageName: Option<string>, region: string)

  /** An elastic IP in a region. */
  datatype Eip = Eip(eipId: Option<string>, eipAddr: Option<string>, region: string)

  /** A resource-usage figure. */
  datatype ResourceUsage = ResourceUsage(accountId: string, resourceType: string, usage: nat, unit: string, lastUpdated: int)

  /** The level of an alert notification. */
  datatype Level = Warning | Critical

  /** `{ lt: "低于", lte: "低于或等于", gt: "高于", gte: "高于或等于" }[op] || op`: the display text
      of a comparison operator; both the alert messages and the e-mail formatter use it. */
  function OperatorText(op: string): (r: string)
    ensures op == "lt" ==> r == "低于"
    ensures op == "lte" ==> r == "低于或等于"
    ensures op == "gt" ==> r == "高于"
    ensures op == "gte" ==> r == "高于或等于"
    ensures op !in {"lt", "lte", "gt", "gte"} ==> r == op
  {
    if op == "lt" then "低于"
    else if op == "lte" then "低于或等于"
    else if op == "gt" then "高于"
    else if op == "gte" then "高于或等于"
    else op
  }

  /** Exactly the four operator codes are translated: any other code is shown as it is, and the
      four get four different texts. */
  lemma OperatorTextTranslates(op: string, op': string)
    ensures OperatorText(op) != op <==> op in {"lt", "lte", "gt", "gte"}
    ensures op in {"lt", "lte", "gt", "gte"} && op' in {"lt", "lte", "gt", "gte"} && op != op' ==> OperatorText(op) != OperatorText(op')
  {
  }
}
