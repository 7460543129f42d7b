# mx-cloud core, modelled in Dafny

mx-cloud is a browser dashboard for UCloud accounts. Its core signs UCloud API requests and fans
out over every region to gather hosts, disks, images and elastic IPs. It keeps a snapshot of
balances, projects and resources per account, and it evaluates balance alert rules into
notifications. Account credentials are stored encrypted under a master password.

The model has one module per core file, plus shared helpers:

| module | file | what it covers |
|---|---|---|
| `Wrappers`, `Seqs`, `Text`, `Types` | helpers | `Result`/`Option`; sequence, number-to-text and sorting helpers; the record shapes and JavaScript truthiness |
| `Signer`, `UCloud` | `src/adapters/ucloud.ts` | parameter formatting, canonical string and signature, the request record, every API call of the adapter |
| `Adapters` | `src/adapters/index.ts` | the adapter registry |
| `Data` | `src/stores/data.ts` | the data store: refreshing all accounts, one balance, the region cache |
| `Alerts` | `src/stores/alert.ts` | the alert store: rules, checking, notifications |
| `Accounts` | `src/stores/account.ts` | the account store |
| `Crypto` | `src/utils/crypto.ts` | ciphertext framing, encryption and decryption, random ids |
| `Email` | `src/utils/email.ts` | placeholder substitution and the level and operator labels |

The world outside the program enters as parameters:
- The UCloud HTTP endpoint is `UCloud.Api`. This is a datatype of functions from the signed request record to a typed reply, a thrown error or a `RetCode`/`Message`/payload triple. SHA-1 and `parseFloat` are fields of it too.
- PBKDF2, AES-GCM, UTF-8 and base64 are the functions of `Crypto.Primitives`. `Crypto.Laws` states what they promise each other.
- Random bytes, generated ids and `Date.now()` are arguments of the operations that use them.
- The number-to-text rendering used in alert messages is the `show` parameter.

The stores are classes whose fields the methods update, as the Pinia stores do. Each data-store
method is proved against a function over the snapshot of its six maps (`Data.Snapshot`). Separate
lemmas then prove what the refresh promises:
- what it writes for one account;
- that accounts do not interfere with each other;
- that disabled accounts are untouched;
- that the snapshot invariant `SnapshotValid` is kept.

`Promise.all` over accounts or regions is modelled as iteration in list order. The per-account
steps are proved independent (`Data.Local`, `Data.ApplyEachIsolation`), so for the refresh of
several accounts the order does not change the result. Inside one account, the source pushes
images and elastic IPs as each region's query completes. Region order is one possible completion
order. In the source, the order of the gathered lists can differ from it, and so can which of two
items with the same id is kept. The proofs about order cover only the per-account steps.

The source's host query (`getUHostInstanceList`) queries a region once per zone, which is the
defect recorded under Findings. Every operation built on it takes a `UCloud.Lister`: `AsWritten`
is the source's query and `Corrected` queries each region once. A `Data.DataStore` is built with
one of the two. Every store proof holds for both. A store built with `Corrected` also keeps each
cached region list free of repetitions.

## Model

| member | source | states |
|---|---|---|
| Signer.FormatParamValue | src/adapters/ucloud.ts:39-62 | booleans become exactly "true"/"false"; a safe integer becomes a decimal numeral whose value is the integer; strings are passed as they are |
| Signer.LookupSome | src/adapters/ucloud.ts:95-111 | a key is found in a record exactly when it is one of the record's keys |
| Signer.LookupEntry | src/adapters/ucloud.ts:95-111 | in a record with distinct keys, looking up an entry's key yields that entry's value |
| Signer.Put | src/adapters/ucloud.ts:108 | assigning a new property appends it at the end of the record |
| Signer.PutLookup | src/adapters/ucloud.ts:108 | after assignment the key maps to the new value and every other key is unchanged |
| Signer.PutKeys | src/adapters/ucloud.ts:108 | assignment adds exactly the assigned key to the key set |
| Signer.PutDistinct | src/adapters/ucloud.ts:108 | assignment keeps the keys distinct |
| Signer.Spread | src/adapters/ucloud.ts:100-104 | the spread object has the union of both key sets, and distinct keys |
| Signer.SpreadLookup | src/adapters/ucloud.ts:100-104 | in `{...a, ...b}` a key of b takes b's value, any other key takes a's |
| Signer.SignedParams | src/adapters/ucloud.ts:100-104 | the parameters to sign have distinct keys: Action, PublicKey and the extra keys |
| Signer.SignedParamsLookup | src/adapters/ucloud.ts:100-104 | Action is the action and PublicKey is the access key id unless an extra parameter overrides it; other keys come from the extras |
| Signer.GenerateSignature | src/adapters/ucloud.ts:71-90 | the signature has the length of the SHA-1 hex digest of the string to sign and no upper-case letter; every digest character that is not an upper-case letter is kept |
| Signer.CanonicalSameLookups | src/adapters/ucloud.ts:75-81 | the canonical string depends only on the values the keys look up |
| Signer.SignatureIgnoresInsertionOrder | src/adapters/ucloud.ts:71-90 | two records with the same key/value pairs in any insertion order give the same string to sign |
| Signer.CanonicalOfEntries | src/adapters/ucloud.ts:79-81 | concatenating key and formatted value over a list of entries gives their pairs in list order |
| Signer.SortedRecordStringToSign | src/adapters/ucloud.ts:75-84 | for a record already in key order, the string to sign is its key/value pairs in order followed by the private key |
| Signer.BuildRequestParams | src/adapters/ucloud.ts:95-111 | the request has distinct keys; Signature is the signature of the other parameters; every other key is as in the signed parameters |
| Signer.PutSignature | src/adapters/ucloud.ts:107-108 | setting Signature keeps distinct keys and stores the signature under Signature |
| Signer.BuildRequestParamsWithout | src/adapters/ucloud.ts:95-111 | when the caller passes no Signature of its own, removing Signature from the request gives back exactly the parameters that were signed |
| Text.IntToDecimal | src/adapters/ucloud.ts:45-47 | `toString()` of an integer is a decimal numeral whose value is that integer |
| Text.IntToDecimalInjective | src/adapters/ucloud.ts:45-47 | different integers render differently |
| Text.SortStrings | src/adapters/ucloud.ts:76 | `sort()` of the keys returns a sorted permutation |
| Text.SortedUnique | src/adapters/ucloud.ts:76 | two sorted permutations of the same multiset are equal, so the sort result depends only on the keys |
| UCloud.ListOrEmpty | src/adapters/ucloud.ts:211-213 | a list is returned only from a successful reply that carries it, and then it is that list |
| UCloud.RegionList | src/adapters/ucloud.ts:195-229 | a non-empty region list comes from a successful reply; a successful reply yields its entries; a throw or a non-zero RetCode yields [] |
| UCloud.HostsByRegion | src/adapters/ucloud.ts:237-346 | `hasInstances` holds iff hosts were found; a successful reply gives one host per reply entry, in order, with that entry's id, image and name, tagged with the queried region and no disks; a failed reply yields no hosts |
| UCloud.DiskParams | src/adapters/ucloud.ts:410-417 | Region is always set; UHostIdForAttachment is set exactly when the host id is truthy |
| UCloud.DiskList | src/adapters/ucloud.ts:404-483 | every disk is tagged with the queried region; disks come only from a successful reply; a failure yields [] |
| UCloud.ImageList | src/adapters/ucloud.ts:491-566 | every image is tagged with the region; images come only from a successful reply; a failure yields [] |
| UCloud.EipList | src/adapters/ucloud.ts:574-638 | every EIP is tagged with the region; EIPs come only from a successful reply; a failure yields [] |
| UCloud.ProjectParams | src/adapters/ucloud.ts:719-725 | Offset and Limit are set exactly when truthy |
| UCloud.ProjectList | src/adapters/ucloud.ts:713-763 | projects come only from a successful reply, which yields its list |
| UCloud.Targets | src/adapters/ucloud.ts:359-363 | non-empty given regions are used as they are; otherwise the region names of every GetRegion entry, in order |
| UCloud.MergeIsFilterAndFlatten | src/adapters/ucloud.ts:380-391 | the valid regions are the targets that had hosts, in order; the instances are the concatenation of their hosts |
| UCloud.MergeProperties | src/adapters/ucloud.ts:380-391 | the valid regions are a subsequence of the targets; a region is valid iff it is a target with hosts; every instance lies in a valid region and every host of a valid region is present |
| UCloud.MergeLoop | src/adapters/ucloud.ts:380-391 | the forEach loop computes the merge of the per-region results |
| UCloud.GetUHostInstanceList | src/adapters/ucloud.ts:354-395 | the method returns the instance list as the source computes it |
| UCloud.HostsOfTagged | src/adapters/ucloud.ts:237-346 | the per-region query states hasInstances faithfully and tags hosts with the region |
| UCloud.InstanceListProperties | src/adapters/ucloud.ts:354-395 | with no targets the result is empty; otherwise every instance lies in a valid region and every valid region is a target with hosts |
| UCloud.GetUHostInstanceListDistinct | src/adapters/ucloud.ts:354-395 | the method returns the corrected instance list |
| UCloud.InstanceListDistinctProperties | src/adapters/ucloud.ts:354-395 | the corrected list names each valid region once; a region is valid iff it is a target with hosts; every instance lies in a valid region and every host of a valid region is present |
| UCloud.QueryInstances | src/stores/data.ts:131-134 | the host query of the store computes the chosen instance list: the source's or the corrected one |
| UCloud.ListInstancesProperties | src/adapters/ucloud.ts:354-395 | for either query, a region is valid iff it is a target with hosts, every instance lies in a valid region and every host of a valid region is present; the corrected query also names each valid region once |
| UCloud.TwoZoneTargets | src/adapters/ucloud.ts:177-190 | a region with two zones gives its region name twice as targets |
| UCloud.TwoZoneHosts | src/adapters/ucloud.ts:237-346 | in the two-zone example the region holds one host |
| UCloud.MergeTwice | src/adapters/ucloud.ts:380-391 | merging a region listed twice doubles its hosts and its valid-region entry |
| UCloud.DuplicateZoneCounterexample | src/adapters/ucloud.ts:354-395 | as written, the two-zone example yields the region twice among the valid regions and its single host twice |
| UCloud.BalanceAmount | src/adapters/ucloud.ts:151-157 | AmountAvailable when it is present and non-empty, else Amount when truthy, else "0" |
| UCloud.GetBalance | src/adapters/ucloud.ts:129-174 | success iff the reply is Ok and carries AccountInfo, and then the balance is the parsed amount for the account; every failure carries the adapter's error prefix |
| UCloud.ValidateCredentials | src/adapters/ucloud.ts:768-776 | credentials are valid iff the balance query succeeds |
| UCloud.ResourceUsageOf | src/adapters/ucloud.ts:646-693 | one usage record for UHost instances in units of 个; it is 0 when there are no regions |
| UCloud.MergeCount | src/adapters/ucloud.ts:672-676 | the instance count equals the number of instances the merge collects |
| UCloud.ResourceUsageCountsInstanceList | src/adapters/ucloud.ts:646-693 | the reported usage equals the number of instances `getUHostInstanceList` returns over all regions |
| Adapters.AdapterFactory.GetAdapter | src/adapters/index.ts:19-31 | the stored adapter is returned and nothing changes; a provider without one gets a fresh adapter, stored under it |
| Adapters.AdapterFactory.ClearAdapters | src/adapters/index.ts:36-38 | the registry is empty and valid afterwards |
| Crypto.Split | src/utils/crypto.ts:106-108 | the three parts concatenate back to the input; the salt is 16 bytes (or the whole of a shorter input); the iv is 12 bytes when the input is long enough |
| Crypto.SplitFrame | src/utils/crypto.ts:82-85 | splitting a frame written with a 16-byte salt and a 12-byte iv gives back salt, iv and ciphertext |
| Crypto.SetAt | src/utils/crypto.ts:82-85 | `set` overwrites exactly the target range with the source |
| Crypto.Combine | src/utils/crypto.ts:82-85 | the combined buffer is salt, then iv, then ciphertext |
| Crypto.Encrypt | src/utils/crypto.ts:63-92 | the result is the specified encryption; its only error is the fixed encryption message |
| Crypto.Decrypt | src/utils/crypto.ts:100-127 | every failure carries the fixed decryption message |
| Crypto.DecryptEncrypt | src/utils/crypto.ts:63-127 | decrypting an encryption with the same password gives the plaintext back |
| Crypto.HexByte | src/utils/crypto.ts:132-136 | a byte renders as its high and low lower-case hex digit |
| Crypto.HexDigits | src/utils/crypto.ts:132-136 | `toString(16).padStart(2, '0')` gives exactly those two digits |
| Crypto.Hex | src/utils/crypto.ts:132-136 | the rendering has two characters per byte |
| Crypto.HexLowerHex | src/utils/crypto.ts:132-136 | every character of the rendering is a lower-case hex digit |
| Crypto.GenerateId | src/utils/crypto.ts:132-136 | an id is 32 lower-case hex characters |
| Crypto.UnhexHex | src/utils/crypto.ts:132-136 | the rendering can be read back into the bytes |
| Crypto.GenerateIdInjective | src/utils/crypto.ts:132-136 | different random bytes give different ids |
| Email.ReplaceAbsent | src/utils/email.ts:66-81 | replacing a placeholder that does not occur leaves the text unchanged |
| Email.Placeholder | src/utils/email.ts:75 | the pattern `{key}` is non-empty and, for a key without `{`, begins with a character that occurs nowhere else in it, so two matches cannot overlap |
| Email.ReplaceBefore | src/utils/email.ts:66-81 | the first occurrence is replaced and the text before it is kept |
| Email.ReplaceJoin | src/utils/email.ts:66-81 | global replacement turns the placeholder between parts free of it into the value |
| Email.ApplyAllFirst | src/utils/email.ts:66-81 | the variables are substituted one after another, in order |
| Email.RenderEmailTemplate | src/utils/email.ts:66-81 | subject and body are each the template with every variable substituted in order |
| Email.RenderOneVariable | src/utils/email.ts:66-81 | a template with one placeholder key renders to its parts joined with the value |
| Email.FormatEmailLevel | src/utils/email.ts:101-103 | the level label is 严重 exactly for critical, and 警告 for warning |
| Types.OperatorText | src/utils/email.ts:108-116 | each of the four operators has its Chinese label; any other text is returned as it is |
| Types.OperatorTextTranslates | src/stores/alert.ts:181-189 | an operator is translated iff it is one of the four, and different operators get different labels |
| Types.OrEmpty | src/adapters/ucloud.ts:221-222 | `x \|\| ""` is empty exactly when x is not truthy, and x otherwise |
| Accounts.NewAccount | src/stores/account.ts:45-59 | the new account has the given id and timestamps and the draft's name, provider, keys and region; it is enabled unless the draft says false |
| Accounts.Patched | src/stores/account.ts:85-100 | the id is the argument's and updatedAt is now; name, provider, both keys, region, enabled and createdAt each take the patch's value when the key is present, `undefined` included, and keep the stored one otherwise; `enabled: undefined` clears the flag, which leaves the account enabled; an empty patch changes only updatedAt |
| Accounts.WithEnabledDefault | src/stores/account.ts:64-80 | a missing enabled flag becomes true; nothing else changes; enabledness is preserved |
| Accounts.LoadedAccounts | src/stores/account.ts:64-80 | each loaded account differs from the stored one at most in the enabled flag, and is enabled as before |
| Accounts.AccountStore.SetMasterPassword | src/stores/account.ts:38-40 | only the master password changes |
| Accounts.AccountStore.AddAccount | src/stores/account.ts:45-59 | the new account is appended and returned; an explicit enabled flag on every account is kept |
| Accounts.AccountStore.LoadAccountList | src/stores/account.ts:64-80 | on failure nothing changes; on success accounts are the loaded ones with the enabled default, each with an explicit flag, and the password is set |
| Accounts.AccountStore.UpdateAccount | src/stores/account.ts:85-100 | a missing id is reported as 账户不存在 and nothing changes; otherwise only that account is replaced by its patched form; every account keeps an explicit enabled flag unless the patch sets it to `undefined`, which clears it |
| Accounts.AccountStore.DeleteAccount | src/stores/account.ts:105-113 | a missing id is reported and nothing changes; otherwise exactly that account is removed; an explicit enabled flag on every account is kept |
| Accounts.AccountStore.GetAccountById | src/stores/account.ts:118-120 | None iff no account has the id; otherwise an account with it |
| Accounts.AccountStore.AccountsByProvider | src/stores/account.ts:24-33 | every provider present maps to its non-empty group in order, and every account's provider is present |
| Accounts.AccountStore.ClearAccounts | src/stores/account.ts:125-128 | accounts and master password are cleared |
| Alerts.EvaluateCondition | src/stores/alert.ts:163-176 | each operator is the relation it names; an unknown operator never fires |
| Alerts.EvaluateComplements | src/stores/alert.ts:163-176 | lt is the negation of gte and gt the negation of lte |
| Alerts.GetOperatorText | src/stores/alert.ts:181-189 | the label differs from the operator iff the operator is one of the four |
| Alerts.LevelOf | src/stores/alert.ts:112 | a notification is critical iff the balance is below the threshold |
| Alerts.CheckRuleEffect | src/stores/alert.ts:101-146 | a rule adds a notification iff it is a balance rule, its account has a balance, its condition holds and no unread notification of the rule has the same message; the new one is unread, at the front, with the rule, account, message and level |
| Alerts.CheckRuleNoDuplicates | src/stores/alert.ts:119-135 | one rule check keeps no two unread notifications with the same rule and message |
| Alerts.CheckEachShapeStep | src/stores/alert.ts:101-146 | one more rule check adds at most one unread notification in front, raised by that rule |
| Alerts.CheckEachShape | src/stores/alert.ts:93-158 | the result is new notifications, each from a rule, in front of the old list |
| Alerts.CheckEachNoDuplicates | src/stores/alert.ts:101-147 | checking all rules keeps unread notifications free of duplicates |
| Alerts.Cap | src/stores/alert.ts:150-153 | the list is cut to its first 100 entries when longer and kept otherwise |
| Alerts.CapNoDuplicates | src/stores/alert.ts:150-153 | the cut keeps unread notifications free of duplicates |
| Alerts.MarkRead | src/stores/alert.ts:194-199 | marking sets read and changes nothing else |
| Alerts.UnreadEmpty | src/stores/alert.ts:20-22 | nothing is unread iff every notification is read |
| Alerts.MarkReadNoDuplicates | src/stores/alert.ts:194-199 | marking one notification read keeps the invariant |
| Alerts.DeleteNoDuplicates | src/stores/alert.ts:213-218 | deleting a notification keeps the invariant |
| Alerts.PatchedRule | src/stores/alert.ts:62-69 | an empty patch changes nothing; id, account, kind, threshold, operator, enabled and createdAt each take the patch's value when the key is present and keep the rule's otherwise; `enabled: undefined` leaves the rule disabled |
| Alerts.NewRule | src/stores/alert.ts:48-57 | the rule has the given id and creation time and the draft's account, kind, threshold, operator and enabled flag |
| Alerts.AlertStore.UnreadCount | src/stores/alert.ts:20-22 | the count is at most the number of notifications and is 0 iff all are read |
| Alerts.AlertStore.GetRulesByAccount | src/stores/alert.ts:86-88 | exactly the enabled rules of the account, in order |
| Alerts.AlertStore.LoadRules | src/stores/alert.ts:34-36 | the rules are the loaded ones; notifications are untouched |
| Alerts.AlertStore.AddRule | src/stores/alert.ts:48-57 | the new rule is appended and returned |
| Alerts.AlertStore.UpdateRule | src/stores/alert.ts:62-69 | a missing id is reported and nothing changes; otherwise only that rule is replaced by its patched form |
| Alerts.AlertStore.DeleteRule | src/stores/alert.ts:74-81 | a missing id is reported and nothing changes; otherwise exactly that rule is removed |
| Alerts.AlertStore.CheckAlerts | src/stores/alert.ts:93-158 | notifications become the checked and capped list; rules are untouched; the invariant is kept |
| Alerts.AlertStore.MarkAsRead | src/stores/alert.ts:194-199 | an unknown id changes nothing; otherwise only that notification becomes read |
| Alerts.AlertStore.MarkAllAsRead | src/stores/alert.ts:204-208 | every notification becomes read and the unread count is 0 |
| Alerts.AlertStore.DeleteNotification | src/stores/alert.ts:213-218 | an unknown id changes nothing; otherwise exactly that notification is removed |
| Alerts.AlertStore.ClearData | src/stores/alert.ts:232-235 | rules and notifications are emptied |
| Data.DecryptAccount | src/stores/data.ts:76-97 | success iff both keys decrypt, and then only the two keys change, to their plaintexts; failure carries 解密账户 …凭证失败 |
| Data.DecryptAccountRoundTrip | src/stores/data.ts:76-97 | an account with keys encrypted under the master password decrypts to its plaintext keys |
| Data.AttachVolumes | src/stores/data.ts:143-173 | only udisks changes; a host without a truthy id or region is kept; otherwise the disk query's list is attached when it is non-empty, and udisks is None when it is empty |
| Data.InstanceRegions | src/stores/data.ts:180-185 | the distinct non-empty regions of the hosts |
| Data.GatherProperties | src/stores/data.ts:176-253 | the gathered list has unique non-empty ids, takes every item from some queried region and contains an item for every id fetched |
| Data.GatherList | src/stores/data.ts:198-203 | the push loop over one region's list extends the first-wins gathering by that list |
| Data.GatherLoop | src/stores/data.ts:186-215 | the loop with its seen-id set computes the first-wins gathering |
| Data.GatherInRegions | src/stores/data.ts:176-253 | items gathered over the hosts' regions lie in those regions |
| Data.CollectHostsProperties | src/stores/data.ts:143-253 | hosts keep their order and change only in disks; images and EIPs are unique by id, come from a host region's query and lie in a host's region |
| Data.FetchAccount | src/stores/data.ts:114-140 | a decryption failure is reported; otherwise it succeeds iff the balance query does, with that balance |
| Data.FetchAccountValid | src/stores/data.ts:114-253 | what one account fetches is consistent: its own balance, hosts in valid regions, collected resources; with the corrected query the valid regions are distinct |
| Data.FetchHosts | src/stores/data.ts:356-373 | querying hosts for the cache succeeds iff decryption succeeds |
| Data.FetchHostsValid | src/stores/data.ts:356-373 | the cache query yields valid regions holding all hosts, and collected resources; with the corrected query the valid regions are distinct |
| Data.RecordHostsFrame | src/stores/data.ts:143-266 | writing one account's hosts changes no other account |
| Data.RecordHostsSame | src/stores/data.ts:143-266 | the written entries depend only on the account's own entries |
| Data.StoreFrame | src/stores/data.ts:128-266 | storing one account's data changes no other account |
| Data.StoreSame | src/stores/data.ts:128-266 | the stored entries depend only on the account's own entries |
| Data.RefreshOneFrame | src/stores/data.ts:112-272 | refreshing one account changes no other account |
| Data.RefreshOneSame | src/stores/data.ts:112-272 | refreshing one account depends only on that account's entries |
| Data.RegionCacheOneFrame | src/stores/data.ts:356-495 | rebuilding one account's cache changes no other account |
| Data.RegionCacheOneSame | src/stores/data.ts:356-495 | rebuilding one account's cache depends only on that account's entries |
| Data.RefreshOneLocal | src/stores/data.ts:110-123 | the refresh step is local to its account |
| Data.RegionCacheOneLocal | src/stores/data.ts:356-495 | the cache step is local to its account |
| Data.ApplyEachFrame | src/stores/data.ts:110-123 | a local step over accounts leaves any other account's entries alone |
| Data.ApplyEachIsolation | src/stores/data.ts:110-123 | with distinct ids, each account ends as if refreshed alone |
| Data.ApplyEachValid | src/stores/data.ts:110-123 | steps that keep the snapshot valid keep it valid over all accounts |
| Data.RecordHostsProperties | src/stores/data.ts:143-266 | hosts, images and EIPs are written iff hosts were found; the region cache is written iff some region is valid; other entries of the account are kept |
| Data.RecordHostsValid | src/stores/data.ts:143-266 | writing hosts keeps the snapshot valid |
| Data.StoreValid | src/stores/data.ts:128-266 | storing consistent fetched data keeps the snapshot valid |
| Data.RefreshOneValid | src/stores/data.ts:112-272 | refreshing one account keeps the snapshot valid |
| Data.RegionCacheOneValid | src/stores/data.ts:356-495 | rebuilding one account's cache keeps the snapshot valid |
| Data.StoreEffect | src/stores/data.ts:128-266 | writing a consistent fetch stores its balance, its projects when non-empty, and when hosts were found the collected hosts, each in a cached region, with images and EIPs from regions of those hosts |
| Data.RefreshOneEffect | src/stores/data.ts:112-272 | a failed fetch changes nothing; otherwise the balance is replaced, projects are replaced when non-empty, and hosts are recorded |
| Data.RefreshAllIndependent | src/stores/data.ts:110-123 | each account's entries after a full refresh are those of refreshing it alone |
| Data.RefreshAllSkips | src/stores/data.ts:110-111 | a disabled account's entries are untouched by the full refresh |
| Data.RegionCacheIndependent | src/stores/data.ts:356-497 | each account's entries after a cache rebuild are those of rebuilding it alone |
| Data.RegionCacheOneEffect | src/stores/data.ts:356-495 | balances and projects are untouched; the cache entry is dropped and re-set to the regions that have hosts |
| Data.RecordHostsDistinct | src/stores/data.ts:260-266 | filing a region list without repetitions keeps every cached region list without repetitions |
| Data.RefreshOneDistinct | src/stores/data.ts:112-272 | with the corrected query, refreshing one account keeps every cached region list without repetitions |
| Data.RegionCacheOneDistinct | src/stores/data.ts:356-495 | with the corrected query, rebuilding one account's cache keeps every cached region list without repetitions |
| Data.RefreshOneInvariant | src/stores/data.ts:112-272 | refreshing one account keeps the store invariant of either query |
| Data.RegionCacheOneInvariant | src/stores/data.ts:356-495 | rebuilding one account's cache keeps the store invariant of either query |
| Data.RegionCacheOneFiles | src/stores/data.ts:371-495 | for an account whose keys decrypt, the rebuilt cache holds the queried valid regions and as many hosts as the query found |
| Data.RegionCacheDuplicateZone | src/stores/data.ts:371-373 | on one region with two zones and one host, the source's cache rebuild caches the region twice and stores the host twice; the corrected one caches it once and stores one host |
| Data.RegionCacheTargets | src/stores/data.ts:336-354 | only enabled UCloud accounts; with an id, at most that account; without one, all of them, in list order |
| Data.BalanceRefresh | src/stores/data.ts:289-313 | a missing account is 账户不存在; a disabled one is skipped; otherwise decryption and balance errors pass through, and a read balance is the result |
| Data.DataStore.Collect | src/stores/data.ts:143-253 | the method computes the collected hosts, images and EIPs |
| Data.DataStore.WriteHosts | src/stores/data.ts:143-266 | the snapshot becomes the host-recording function of the old one |
| Data.DataStore.FetchAccountData | src/stores/data.ts:114-253 | the method's queries, with the chosen host query, compute the specified fetch |
| Data.DataStore.WriteFetched | src/stores/data.ts:128-266 | the snapshot becomes the store function of the old one |
| Data.DataStore.RefreshAccount | src/stores/data.ts:112-272 | the snapshot becomes the one-account refresh of the old one |
| Data.DataStore.RefreshEach | src/stores/data.ts:110-123 | the snapshot becomes every account's refresh in turn, with the store's host query, and the store invariant is kept |
| Data.DataStore.RefreshAllData | src/stores/data.ts:102-284 | with no accounts nothing changes; otherwise the enabled accounts are refreshed, lastUpdated is now and loading is off |
| Data.DataStore.FetchBalance | src/stores/data.ts:289-313 | the method computes the specified balance refresh |
| Data.DataStore.RefreshAccountData | src/stores/data.ts:289-313 | errors are returned and change nothing; a read balance is stored with the time; a disabled account changes nothing |
| Data.DataStore.GetAccountBalance | src/stores/data.ts:318-320 | the stored balance iff there is one, and it belongs to the account |
| Data.DataStore.GetAccountProjects | src/stores/data.ts:325-327 | the stored projects, or [] when there are none |
| Data.DataStore.RefreshRegions | src/stores/data.ts:356-495 | the snapshot becomes the one-account cache rebuild of the old one |
| Data.DataStore.RefreshRegionsEach | src/stores/data.ts:356-497 | the snapshot becomes every target's cache rebuild in turn, with the store's host query, and the store invariant is kept |
| Data.DataStore.RefreshRegionCache | src/stores/data.ts:332-503 | the targets' caches are rebuilt, in the snapshot, from full-region queries |
| Data.DataStore.ClearData | src/stores/data.ts:508-516 | the snapshot is empty and lastUpdated is 0 |

## Findings

| source | as written | input that shows it | evidently intended | confidence | as-written member | corrected member |
|---|---|---|---|---|---|---|
| src/adapters/ucloud.ts:359-363 | the GetRegion list has one entry per zone, and its region names become the query targets without removing repeats | one region `cn-bj2` with two zones, holding one host: the host is listed twice and `cn-bj2` is a valid region twice | each region queried once, so each host and each valid region appear once | not executed | UCloud.DuplicateZoneCounterexample | UCloud.InstanceListDistinctProperties |
| src/stores/data.ts:371-373 | the region cache rebuild stores the valid regions and hosts of that host query as they are | the same region with two zones and one host: the cache holds `cn-bj2` twice and the host is stored twice | each region cached once and each host stored once | not executed | Data.RegionCacheDuplicateZone | Data.RegionCacheOneDistinct |

The as-written query is `UCloud.InstanceListOf` and the corrected one is
`UCloud.InstanceListDistinct`. `UCloud.Lister` chooses between them everywhere in the data store.

## Left out

- HTTP transport, the proxy, CORS and the `apiClient` instance: the endpoint is the `UCloud.Api` parameter.
- SHA-1, PBKDF2, AES-GCM, UTF-8, base64 and `parseFloat` are function parameters, not implemented.
- Signer.FormatParamValue: numbers other than safe integers are not represented (a parameter value is a boolean, a safe integer or a string), because floating point is not modelled. The `toString` of a non-integer, the `toFixed(10)` rewrite of exponent notation and the exponent notation `toString` gives integers from 1e21 on are therefore left out.
- Balances are `real` and amounts are parsed by a parameter. Floating-point rounding, `toFixed` and the number-to-text of alert messages (`show`) are left out.
- Text.SortStrings orders by code point. JavaScript's default sort orders by UTF-16 code unit; the two differ only for characters outside the Basic Multilingual Plane.
- `Promise.all` is modelled as sequential iteration. Images and EIPs are gathered in region order, which is one possible order of completion of the per-region queries. The source pushes them in completion order, so their order, and which of two items with the same id survives, can differ from the model.
- Error branches of the adapters that catch their own errors (`getUDiskList`, `getImageList`, `getEIPList`, `getRegionList`, `getUHostInstanceList`, `getProjectList`) are modelled as their empty results. The per-account `catch` of the refresh therefore sees only decryption and balance errors.
- The outer try/catch of `refreshAllData` rethrows. No modelled step throws past the per-account catch, so that branch is left out.
- `isLoading` and `isChecking` are modelled only at the start and end of an operation, not while it is in progress.
- Vue reactivity, Pinia, `console` logging and the browser Notification API are left out.
- `src/utils/storage.ts` is not part of this model. Loading passes its result in as a parameter, and saving is left out.
- `sendEmail` and `formatEmailTime` are left out: network I/O and date formatting.
- Email.RenderEmailTemplate: keys are assumed free of regular-expression metacharacters, and `$` patterns in values are not interpreted. Placeholders other than the one being replaced are stated only through Email.ReplaceAbsent and Email.ReplaceJoin.
- Alerts.GetOperatorText: keys inherited from `Object.prototype` in the lookup table are not modelled.
- Types.OperatorText: keys inherited from `Object.prototype` (such as `toString`) are not modelled; for them `map[operator] || operator` gives the inherited function, not the operator.
- Computed totals such as `totalBalance`, `aggregatedData` and the sorted `unreadNotifications` view are left out.
- Adapters.AdapterFactory.GetAdapter: the only provider is UCloud, so the unsupported-provider error cannot be reached. The non-UCloud branches of the data store are left out for the same reason.
- The registry is a static map in the source. Here it is an object handed to the data store.
- Ids from `generateId` and timestamps from `Date.now()` are parameters of the operations that create records.
- Accounts.Patched: a key present with the value `undefined` is modelled for the optional fields `region` and `enabled` only. For name, provider, the two keys and createdAt it would leave the field `undefined`, which the account record cannot hold, so such patches are not represented.
- Alerts.PatchedRule: a key present with the value `undefined` is modelled for `enabled` only. For id, account, kind, threshold, operator and createdAt the rule record cannot hold `undefined`, so such patches are not represented.
- Alerts.AlertStore.MarkAsRead: the notification object is updated in place in the source. The model replaces the list element, so aliasing of the object is not modelled.
- UCloud.ResourceUsageOf: counts one query per GetRegion entry, as written, so it shares the duplicate-zone behaviour described under Findings.
