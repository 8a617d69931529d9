# Verified model of fishymetrics

Fishymetrics is a Prometheus exporter: it walks the Redfish API of a BMC, plans a list of GET tasks, runs them in a
worker pool, hands the bodies to metric handlers, and sets an `up` gauge. Around that it keeps a list of ignored hosts,
a cache of credentials refreshed from HashiCorp Vault, and a Vault token that it renews. This project models those
stateful parts in Dafny and proves what they keep over loops, over several functions and over whole runs.
`dafny verify dfyconfig.toml` checks all of it.

## How the model is built

Every GET is a query of a function from URL to decoded body or error (`Plans.Api`), or, where retries matter, a script of
responses (`Fetching.Script`). `Outcomes.Outcome` has a case for each way a Go call ends: a value, an error (the
invalid-credential error apart from all others) or a run-time panic, so `appendSlash("")` is a panic and not a
precondition. Exclude patterns are optional predicates on URLs. A slice that JSON is decoded into keeps the strings its
backing array holds past the length (`Oem.Slice`): a shorter array leaves them there, an append writes over them, a new
and larger array has none.

| file | what it models |
|---|---|
| `Urls.dfy`, `Oem.dfy`, `Endpoints.dfy`, `Listings.dfy` | slash normalisation, uniqueness, in-place decoding of chassis links, the chassis walk that reuses one struct; how it ends and what it lists, told from the bodies |
| `Drives.dfy`, `Controllers.dfy` | the walk over storage controllers; how it ends and what it lists, told from the responses |
| `Plans.dfy`, `Planner.dfy`, `Contents.dfy`, `Requests.dfy` | the full and the partial planner: specification and relations; the code with its loops; what the lists hold; how planning ends and which tasks it lists, told from the answers |
| `Pools.dfy` | the worker pool as interleaved steps of Run and N workers, and the pool object |
| `Scrapes.dfy`, `Exporters.dfy` | the verdict of a scrape in both versions; construction, Collect and the ignored list |
| `Aliases.dfy`, `Credentials.dfy`, `Fetching.dfy` | alias substitution, the credential store, the fetch closure |
| `VaultLoop.dfy` | the token renewal loop, the token manager, wait goroutines and program shutdown as interleaved steps |
| `Components.dfy`, `HostNames.dfy` | the two text recognisers |
| `Outcomes.dfy`, `Texts.dfy`, `Collections.dfy` | shared result types, string operations, elements of a sequence |

Code that loops or updates fields is a method or a class whose contract equates the outcome with a function of the
inputs; the lemmas are about those functions. The pool and the Vault loop are transition systems, because what they
promise is about interleavings; `Pools.Pool.Run` runs the pool's system under an arbitrary scheduler.

## What the proofs show about the code

Where the code is weaker than it looks, the model follows the code and the exact condition is proved.

* Every walk that does not panic, over one reused chassis struct or over fresh ones, has the outcome of a walk without any
  struct, in which nulls name nothing (`Endpoints.WalkIsOwn`). So reuse is harmless whenever decoding into fresh structs
  does not panic, in particular for all bodies whose string arrays hold no null and no empty string. A null keeps the
  string that an earlier chassis left in its slot, where a fresh struct would give `""` and a panic.
  `Endpoints.ReuseDiffersExactly` says on which lists of bodies that changes the outcome, `Endpoints.PanicsExactly` when a
  walk panics at all.
* The drive walk compares the raw link with a list of slashed ones. A list is free of duplicates exactly when no addition
  that the test cannot see repeats an earlier one (`Drives.RunNoDuplicates`); it does happen (`Drives.ListedTwice`).
* The full plan equals the partial plan of all eight components plus the virtual drives exactly when a manager was chosen
  and no firmware member was dropped because no firmware exclude pattern is set (`Plans.FullIsAllPartsAndVirtual`);
  `Plans.MembersDropped` shows a server on which the plans differ. A request for firmware alone never looks at the
  systems, so it may list members the full plan does not; `Plans.FirmwareAlone` says when, and `Plans.FirmwareAloneExceeds`
  gives a server.
* Without a drive exclude pattern the full planner looks at no volumes, so it lists no virtual drives
  (`Contents.FullVirtualDrives`). What SmartStorage lists besides physical drives is dropped when it has none of those and
  the system names Storage (`Contents.SmartStorageDropped`).
* After a refresh any status but 401 counts as success (`Fetching.BodyExactly`). k calls of one closure send at most
  2k + 2 requests, and the bound is attained (`Fetching.RequestsBound`, `Fetching.RequestsBoundAttained`).
* `docs/url-extra-params.md` writes placeholders as `{alias}`; the code looks for `%alias%`. A path without `%` is never
  changed (`Aliases.NoPercentNoChange`).
* The comment in `vault/vault.go:200-201` says that a finished token lifecycle leads to another login attempt. It does
  not: nothing puts a token in the retry channel, so no run has two successful logins (`VaultLoop.NoSecondLogin`).
* Shutdown looks at isLoggedIn once. If a login is under way at that moment and then succeeds, the manager gets no
  signal and the program waits for it until the token watcher ends (`VaultLoop.HangsExactly`).
* Each lifecycle call that returns before registering its deferred Done leaves the WaitGroup one too high for ever
  (`VaultLoop.Balance`, `VaultLoop.EarlyReturnLeavesOne`).
* An exporter constructed for a host on the ignored list, or refused at its construction, has no pool (the partial
  constructor does not look at the list). Its Collect panics exactly when the host was removed from the list after the
  construction and not put back since (`Exporters.CollectPanicsExactly`).
* A second Run of one pool never returns: the channel is closed, so it panics (`Pools.SecondRunNeverReturns`).
* Only the error of a task's last handler counts towards `up` (`Scrapes.Scrape`).

## Model

| member | source | states |
|---|---|---|
| `Urls.AppendSlash` | exporter/helpers.go:411-416 | the result ends in a slash and is the URL or the URL with one slash more |
| `Urls.CheckUnique` | exporter/helpers.go:418-425 | true exactly when the string is not in the list |
| `Urls.MergeMembers` | exporter/helpers.go:80-85 | appending unique URLs keeps the list as a prefix, holds exactly the union, and introduces no duplicate |
| `Urls.MergeIsFirstOccurrences` | exporter/helpers.go:80-92 | the accumulating loop, started empty, yields the first occurrences in order |
| `Urls.FilteredExactly` | exporter/helpers.go:155-187 | a filtered list holds, in order and with repetitions, the URLs the pattern does not match; without a pattern all of them |
| `Oem.LinksWrapper.AppendLink` | oem/chassis.go:124-130 | appends the URL, or lacking it the href, or nothing |
| `Oem.LinksWrapper.UnmarshalLinks` | oem/chassis.go:98-110 | succeeds on null and on arrays of objects and nulls only, appending their links in order; a failure changes nothing |
| `Oem.LinksWrapper.UnmarshalObject` | oem/chassis.go:112-122 | succeeds on null and on one object only, appending its link |
| `Oem.LinksWrapper.UnmarshalJSON` | oem/chassis.go:70-96 | tries slice of objects, object, slice of strings: when it succeeds and what the slice and the memory past it then hold, for every shape and any earlier content; the final state on failure too |
| `Oem.ObjectLinksExactly` | oem/chassis.go:98-130 | an array contributes one link for each object that names any, in array order: its URL, or lacking it its href; no other element contributes |
| `Oem.ObjectExactly` | oem/chassis.go:112-130 | a single object adds its URL, or lacking it its href, or nothing, behind what the slice held |
| `Oem.ChassisLinks.Unmarshal` | oem/chassis.go:46-52 | the five wrappers become what decoding over their earlier values gives; an absent key leaves its wrapper alone |
| `Oem.Chassis.Unmarshal` | oem/chassis.go:39-44 | the whole struct becomes what decoding over its earlier value gives |
| `Endpoints.AppendLinks` | exporter/helpers.go:155-187 | one loop over a link slice: panic if it holds an empty string, else the list merged with the slashed and filtered links |
| `Endpoints.AppendBoth` | exporter/helpers.go:79-92 | the loop over Links followed by the loop over links |
| `Endpoints.AppendAltOrNested` | exporter/helpers.go:94-139 | the top-level link first, the nested ones only while the list is empty |
| `Endpoints.Scan` | exporter/helpers.go:79-187 | what one decoded chassis contributes to the five lists |
| `Endpoints.GetSystemEndpoints` | exporter/helpers.go:59-191 | the loop over one reused Chassis object computes the walk that decodes each body over the previous struct |
| `Endpoints.WalkIsOwn` | exporter/helpers.go:60-188 | from any stale struct whose strings were handled before, memory past the slices included, a walk that does not panic has the outcome of the walk that uses the bodies' own links and no struct |
| `Endpoints.PanicsExactly` | exporter/helpers.go:80-187 | a walk, reused or fresh, panics exactly when some body, all up to it being readable, has a consulted string array with an empty string or a null on a slot whose memory holds no string |
| `Endpoints.ReuseDiffersExactly` | exporter/helpers.go:59-191 | the reused and the fresh walk have different outcomes exactly on the bodies where the fresh one meets such a hole and the reused one none |
| `Endpoints.HoleExactly` | oem/chassis.go:91-95 | decoding leaves an empty string in a slice exactly if the array has a hole over the memory of the slice |
| `Endpoints.ReuseHarmless` | exporter/helpers.go:60-188 | from any stale struct whose links were handled before, the walk over the reused struct has the outcome of the walk over fresh structs, errors included, unless the latter panics |
| `Endpoints.CleanNeverPanics` | exporter/helpers.go:63-188 | bodies whose string arrays hold no null and no empty string never make the walk panic, in any mix of shapes and missing keys |
| `Endpoints.ReuseHarmlessOnClean` | exporter/helpers.go:59-191 | on such bodies getSystemEndpoints returns exactly what one fresh struct per chassis would give |
| `Endpoints.NullKeepsStaleLink` | exporter/helpers.go:74-92 | two concrete lists of bodies on which reuse succeeds and fresh structs panic: the stale string directly before, or past the length of a shorter array in between |
| `Endpoints.CanonicalLists` | exporter/helpers.go:79-187 | whenever getSystemEndpoints succeeds, nulls or not: systems, storage controllers and drives are exactly the first occurrences of all slashed (drives: filtered) links the bodies name, without duplicates or loss |
| `Endpoints.CanonicalAlt` | exporter/helpers.go:94-139 | likewise power and thermal: the first occurrences of the links that count, nested ones only from the first chassis that names any; no duplicates |
| `Listings.EndsExactly` | exporter/helpers.go:63-77 | a walk succeeds exactly if every body was fetched, decodes and has no hole; it fails with exactly the error of the first body not fetched or not decoded, all before it being free of holes |
| `Listings.ListsExactly` | exporter/helpers.go:79-187 | in a successful walk a URL is a system, a storage controller or a drive exactly if some body names it, without or with its slash, under that key, as an object's URL, else its href, or as a string, and (drives) the pattern does not match it |
| `Listings.AltListsExactly` | exporter/helpers.go:94-139 | a power or thermal URL is a top-level link of some body, or a nested one of the first body that names any |
| `Drives.AppendChecked` | exporter/helpers.go:282-290 | a filtering loop whose test compares raw links and whose list receives slashed ones |
| `Drives.AppendPlain` | exporter/helpers.go:338-341 | a loop that appends unconditionally |
| `Drives.FollowLink` | exporter/helpers.go:330-342 | a link, if present, is fetched and all members appended |
| `Drives.AppendVolumes` | exporter/helpers.go:293-310 | each volume is fetched and its members filtered and checked |
| `Drives.VisitController` | exporter/helpers.go:270-384 | one controller's contribution to the three lists, by its kind |
| `Drives.GetAllDriveEndpoints` | exporter/helpers.go:259-387 | the nested loops compute the walk over the members |
| `Drives.WalkIsRun` | exporter/helpers.go:270-384 | each list is one run of additions: everything the controllers list, in controller order |
| `Drives.RunMembers` | exporter/helpers.go:282-354 | every URL ends in a slash, and the list holds the counted links, all of them and no others |
| `Drives.RunNoDuplicates` | exporter/helpers.go:285-290 | no duplicates exactly when no unconditional or unslashed addition repeats an earlier URL |
| `Drives.DriveLists` | exporter/helpers.go:259-387 | order, members, slashes and freedom from duplicates for each list of a successful walk |
| `Drives.StorageListsNoDuplicates` | exporter/helpers.go:281-310 | links from Storage resources that end in a slash are never listed twice |
| `Drives.ListedTwice` | exporter/helpers.go:285-287 | a Storage resource whose unslashed link the walk lists twice |
| `Controllers.WalkEndsExactly` | exporter/helpers.go:259-387 | the walk ends as the first faulty one of its operations, listed from the responses: an error exactly if the first GET that fails does so with that error and no empty link was added before |
| `Controllers.WalkSucceedsExactly` | exporter/helpers.go:259-387 | it succeeds exactly if the initial GET, every controller, every volume and controllers link of a Storage resource and every drive link present is answered and no empty link is added |
| `Controllers.RefusedControllerFails` | exporter/helpers.go:273-277 | a concrete list whose one controller is refused: the walk returns that error |
| `Controllers.DriveListsExactly` | exporter/helpers.go:270-384 | a URL is on one of the three lists exactly if some controller names it for that list, by its kind, without or with its slash |
| `Planner.GetMemberUrls` | exporter/helpers.go:33-57 | the members of a collection, each with its slash, or the error |
| `Requests.MembersExactly` | exporter/helpers.go:33-57 | the error of the GET, a panic on an empty member, else each member in its place with its slash |
| `Planner.ChooseManager` | exporter/exporter.go:191-200 | the only manager, or the first without CIMC in its name, or none |
| `Requests.ManagerPicked` | exporter/exporter.go:191-203 | none of none, the only one of one; of several the first without CIMC in its name, all before it having it, or none if all have it |
| `Requests.FullManager` | exporter/exporter.go:183-203 | the manager of a full plan is so picked from the managers it fetched, of which there is one at least |
| `Requests.PartialManager` | exporter/partial_exporter.go:158-178 | so is that of a partial plan for firmware or system; any other has none |
| `Requests.OtherThanCimc` | exporter/exporter.go:192-198 | of one CIMC and one other manager, the other |
| `Planner.GetFirstNonEmptyURL` | exporter/helpers.go:428-435 | the first non-empty URL; empty exactly when all are |
| `Planner.GetMemoryURL` | exporter/helpers.go:438-446 | the first that is there of the five memory links, in this order |
| `Planner.GetSmartStorageURL` | exporter/helpers.go:449-460 | the first that is there of the four SmartStorage links, with its slash and ArrayControllers/ behind it |
| `Planner.GetFirmwareInventoryURL` | exporter/helpers.go:463-470 | the first that is there of the four inventory links |
| `Planner.CollectVolumes` | exporter/exporter.go:223-245 | the nested loops compute the volumes that `Contents.VolumesCanonical` describes |
| `Requests.VolumesEndExactly` | exporter/exporter.go:223-245 | the loop succeeds exactly if every controller is answered and names no empty volume, and fails with exactly the error of the first that is not, nothing before it panicking |
| `Contents.VolumesCanonical` | exporter/exporter.go:226-244 | no volumes without a drive pattern; with one, the first occurrences of all slashed volumes of all controllers that it leaves |
| `Planner.CollectVirtualDrives` | exporter/exporter.go:247-265 | the nested loops compute the drives that `Contents.VirtualCanonical` describes |
| `Requests.VirtualDrivesEndExactly` | exporter/exporter.go:247-265 | likewise for the volumes and their members |
| `Contents.VirtualCanonical` | exporter/exporter.go:248-262 | the first occurrences of exactly those members of the volumes that have Virtual in their name, without duplicates |
| `Contents.FullVirtualDrives` | exporter/exporter.go:223-265 | the virtual drives of a full plan from the responses; none without a drive pattern |
| `Contents.PlansWithoutPattern` | exporter/exporter.go:235-241 | without a drive pattern the full plan is a permutation of the partial plan for all components exactly when a manager was chosen and no firmware member was dropped |
| `Contents.DrivesExactly` | exporter/exporter.go:317-338 | the drives are those of one walk, never a mixture: Storage exactly when the system names it and SmartStorage is absent beside a chassis lacking controllers or drives, or neither SmartStorage nor the chassis has a physical drive |
| `Contents.SmartStorageDropped` | exporter/exporter.go:329-338 | without physical drives in SmartStorage or the chassis, a system that names Storage gets the drives of one without SmartStorage |
| `Contents.DrivesFound` | exporter/exporter.go:319-338 | a Storage link is left unread only where a physical drive is known, and each list is what one walk lists, in order |
| `Planner.PlanFullInventory` | exporter/exporter.go:345-387 | firmware inventory tasks of the full plan, none without a pattern |
| `Requests.FullInventoryExactly` | exporter/exporter.go:345-387 | which inventory tasks a full plan lists, or which error ends it, for every combination of answers |
| `Planner.PlanPartialInventory` | exporter/partial_exporter.go:357-396 | the same in the partial plan, which keeps all members without a pattern and swallows errors on the way |
| `Requests.PartialInventoryExactly` | exporter/partial_exporter.go:357-396 | likewise for a partial plan |
| `Planner.PlanFullScrape` | exporter/exporter.go:155-444 | NewExporter, with all its loops and early returns, computes the full plan |
| `Planner.PlanPartialScrape` | exporter/partial_exporter.go:109-399 | NewPartialExporter computes the partial plan of the set of requested components, so order and repetition do not matter |
| `Requests.IgnoredExactly` | exporter/exporter.go:155-179 | a plan says that the host is ignored exactly if its first GET was refused or, for the full plan, the host was on the list |
| `Requests.PlansEndExactly` | exporter/exporter.go:162-179 | any other failure of the first GET ends both plans, else each ends as what it learns |
| `Requests.FullFactsEndExactly` | exporter/exporter.go:183-315 | the queries of a full plan in turn: the first that fails ends it with that failure; no manager and no system are errors |
| `Requests.FullRestEndsExactly` | exporter/exporter.go:297-387 | memory, processors, drives and inventory, each fatal in a full plan, and what is learned from them |
| `Requests.ContextExactly` | exporter/partial_exporter.go:194-213 | the endpoints and the first system of a partial plan, or the failure of either; without a system it goes on with an empty one |
| `Requests.PartialFactsEndExactly` | exporter/partial_exporter.go:158-397 | which queries count for which components, which failures end a partial plan, which are dropped, and what it learns |
| `Requests.FullTasksExactly` | exporter/exporter.go:290-442 | a task is in a full plan exactly if it fetches, with the handlers of its kind, a URL learned for that kind; the manager's task is there even without a manager |
| `Requests.PartialTasksExactly` | exporter/partial_exporter.go:215-397 | a task is in a partial plan exactly if it fetches, with the handlers of its kind, a URL learned for a component requested |
| `Requests.FullTasksPlaced` | exporter/exporter.go:290-442 | where each task of a full plan stands: kind by kind, one for each link learned, in the order of the links, and no others |
| `Requests.PartialTasksPlaced` | exporter/partial_exporter.go:215-397 | likewise in a partial plan: the tasks of each requested component together, behind those of the requested components before it |
| `Plans.PartialDecomposes` | exporter/partial_exporter.go:158-397 | for disjoint sets with a non-firmware component each, the union succeeds exactly when both do, and its tasks are those of both |
| `Plans.FullImpliesPartial` | exporter/partial_exporter.go:158-397 | whenever full planning succeeds, every partial request but firmware alone succeeds on the same facts |
| `Plans.InventoriesCompared` | exporter/exporter.go:375-385 | the full inventory is the partial one if a pattern or a system link exists, else empty |
| `Plans.FullIsAllPartsAndVirtual` | exporter/exporter.go:217-442 | the full task list is a permutation of the partial plan for all components plus the virtual drives, exactly when a manager was chosen and no firmware member was dropped |
| `Plans.PartialWithinFull` | exporter/partial_exporter.go:186-397 | every partial plan but firmware alone is a sub-multiset of the full plan, exactly when firmware is not asked for or no listed member was dropped |
| `Plans.FirmwareAlone` | exporter/partial_exporter.go:347-397 | the plan for firmware alone, which sees no system, is a sub-multiset of the full plan exactly when it lists no inventory, or the system has no inventory link and a pattern is set, or its one inventory task is that of the system's link |
| `Plans.FirmwareAloneExceeds` | exporter/partial_exporter.go:187-213 | a server on which it is not |
| `Plans.MembersDropped` | exporter/exporter.go:375-385 | a server on which, without a pattern, the two plans differ |
| `Pools.PoolSafety` | pool/pool.go:63-88 | in every reachable state: unsent, in-flight and done tasks partition the list, at most N in flight, the counter is the tasks not yet done, no send or close after close, each function ran at most once and its result is stored before Done |
| `Pools.PoolReturns` | pool/pool.go:63-77 | when Run returns every function ran exactly once, its result is stored, each task was done once and no worker is busy |
| `Pools.StepDecreases` | pool/pool.go:63-88 | every step of any goroutine lowers a measure |
| `Pools.RunBounded` | pool/pool.go:63-88 | no run has more than 3n + 6 + 2N states |
| `Pools.StuckExactly` | pool/pool.go:63-88 | a reachable state before return is stuck exactly when there are no workers and a task to send |
| `Pools.MaximalRunReturned` | pool/pool.go:63-77 | with a worker or without tasks, a run that cannot be extended has returned |
| `Pools.MaximalRunLeavesNoWorker` | pool/pool.go:84-88 | a run that returned and cannot be extended has no worker left |
| `Pools.OneWorkerInOrder` | pool/pool.go:63-88 | with one worker, as both exporters use, tasks finish in list order |
| `Pools.SecondRunNeverReturns` | pool/pool.go:68-74 | on a closed pool no function runs and only a panic ends the run |
| `Pools.Pool.constructor` | pool/pool.go:43-49 | a new pool holds the given tasks and an open channel |
| `Pools.Pool.AddTask` | pool/pool.go:79-81 | appends the task |
| `Pools.Pool.Execute` | pool/pool.go:63-88 | under any scheduler: the goroutines end in a return, in a panic on a closed channel, or stuck without workers |
| `Pools.Pool.Run` | pool/pool.go:63-77 | returns with each task's own result stored, in list position; panics exactly if the pool ran before; blocks exactly if there are tasks and no workers |
| `Scrapes.Scrape` | exporter/exporter.go:504-545 | handlers run for exactly the tasks before the first failed one; up is 1 iff no task failed and every last handler succeeded, 2 iff the first failure is a refused credential |
| `Scrapes.ScrapeMoonshot` | exporter/moonshot/exporter.go:241-326 | the channel-and-AND version gives the same verdict, never blocks, and leaves nothing in the channel |
| `Scrapes.ReceiveAll` | exporter/moonshot/exporter.go:316-321 | receiving and combining with AND yields 1 exactly if all results are 1 |
| `Scrapes.VerdictExactly` | exporter/exporter.go:504-545 | the verdict from errors and handler results alone: 2 and ignored, 0, or 1, each exactly when |
| `Scrapes.EarlierHandlersIgnored` | exporter/exporter.go:532-536 | results of earlier handlers make no difference |
| `Exporters.Registry.RemoveHost` | common/ignored.go:147-165 | removes exactly the named host, or the empty name if the request was unreadable |
| `Exporters.Exporter.Make` | exporter/exporter.go:155-179 | what construction does to the ignored list, the pool and up |
| `Exporters.RefusedIsRecorded` | exporter/exporter.go:165-177 | a credential refused at construction or Collect enters the host under its name, with its endpoint, model and profile; construction changes the list in no other way |
| `Exporters.Exporter.CollectMetrics` | exporter/exporter.go:471-545 | Collect over the real pool object: the new list, pool state and up, or a panic |
| `Exporters.UpTwoMeansIgnored` | exporter/exporter.go:477-483 | after a Collect, up is 2 exactly when the host is on the list |
| `Exporters.EntersAndLeaves` | exporter/exporter.go:164-177 | in any world, a host enters the list only by a refused credential at construction or Collect, and leaves only by its own removal |
| `Exporters.ListedExactly` | common/ignored.go:147-165 | over every sequence of requests: a listed host is off the list exactly when some request removed it and none since found its credential refused, and the other way round |
| `Exporters.ExporterAfter` | exporter/exporter.go:471-486 | over every sequence of requests an exporter keeps its pool, which has run exactly when some Collect found the host off the list |
| `Exporters.CollectPanicsExactly` | exporter/exporter.go:155-177 | for any requests before and after a construction: Collect of an exporter without a pool panics exactly when its host was removed since and not put back; with a pool, exactly when an earlier Collect ran it and the host is off the list |
| `Exporters.FirstCollectPanicsOnlyAfterRemoval` | exporter/exporter.go:155-177 | a first Collect panics exactly for an exporter without a pool whose host was removed after its construction and not put back |
| `Exporters.ConstructThenCollect` | exporter/exporter.go:155-177 | a Collect directly after construction never uses a nil pool |
| `Exporters.RemovalBetweenPanics` | common/ignored.go:162 | a removal between the two makes it panic |
| `Exporters.StaysIgnored` | common/ignored.go:147-165 | once on the list, a host stays there as long as no request removes it |
| `Aliases.ReplaceInTemplate` | common/credentials.go:70-72 | replacing one alias in the rendered path is substituting it in the template, if its name does not stand between another placeholder and the next |
| `Aliases.AnyOrderSubstitutesAll` | common/credentials.go:67-75 | any order of visiting the aliases gives the simultaneous substitution, if no text between two placeholders is an alias name or becomes one by substitution, and names and values hold no percent sign |
| `Aliases.OrderIndependent` | common/credentials.go:69-73 | in particular every iteration order of the map gives the same path |
| `Aliases.SlashesKeepApart` | common/credentials.go:69-73 | that holds for every path with a slash between any two placeholders, when no alias name has one |
| `Aliases.NoPercentNoChange` | common/credentials.go:70 | a path without a percent sign is never changed |
| `Aliases.NameBetweenShowsOrder` | common/credentials.go:69-73 | a concrete path with an alias name between two placeholders, where the order shows |
| `Aliases.CleanValuesNeeded` | common/credentials.go:69-73 | a value holding a placeholder makes the order show, on concrete aliases |
| `Credentials.SecretProperties.UpdateCredProfilePath` | common/credentials.go:67-75 | the loop over the map replaces the aliases one by one, in some order of all the keys, and touches the path only |
| `Credentials.ChassisCredentials.Set` | common/credentials.go:111-115 | exactly that entry changes |
| `Credentials.ChassisCredentials.PopulateProfiles` | common/credentials.go:117-134 | later profiles override earlier ones of the same name, and the first listed is the default; an empty list is a panic that changes nothing |
| `Credentials.ChassisCredentials.GetCredentials` | common/credentials.go:136-196 | the answer is the lookup for some alias order; nothing that existed before is modified, the stored profiles included; it never dereferences a missing profile |
| `Credentials.ChassisCredentials.Refresh` | common/util.go:75-85 | the target's entry ends as the fresh credential or absent, all others are unchanged |
| `Credentials.ObtainOrderIndependent` | common/credentials.go:151-176 | for a profile path whose placeholders are kept apart the possible answers are exactly one, that of the simultaneous substitution |
| `Credentials.LookupExactly` | vault/vault.go:122-152 | which secret is read, under which path and engine version, and which fields become user and password, or the error |
| `Credentials.ProfileExactly` | common/credentials.go:142-164 | the named profile, else the default one; an unknown name or an empty store is an error |
| `Credentials.LastFlagWins` | common/credentials.go:123-133 | of several profiles of one name the last is stored |
| `Fetching.BuildRequest` | common/util.go:131-152 | the request carries the cached credential, else the configured one |
| `Fetching.Closure.RetryLoop` | common/util.go:62-70 | the 404 loop: last response, counter and requests sent |
| `Fetching.Closure.Handle401` | common/util.go:74-108 | the 401 path: result, cache, and the re-sent request with the fresh credential |
| `Fetching.Closure.Resend` | common/util.go:90-118 | one request with the cached credential; 401 is an invalid credential, any other readable response is taken |
| `Fetching.Closure.Invoke` | common/util.go:43-119 | one call: result, counter kept for the next call, cache and every request sent |
| `Fetching.InvalidCredentialExactly` | common/util.go:74-108 | the invalid-credential error is returned exactly when the first response is 401 and Vault is absent, or the refresh succeeds and the second response is 401 |
| `Fetching.BodyExactly` | common/util.go:55-118 | a body is returned exactly when the last response is readable and a success, or not 401 after a refresh |
| `Fetching.CallBound` | common/util.go:62-70 | a call sends at most two requests more than it advances the counter, which stays below 4 |
| `Fetching.RetryStops` | common/util.go:62-70 | every response before the last is a 404; the last is a network error, or no 404, or the counter is used up; the counter advances by the responses it counts |
| `Fetching.NotFoundExactly` | common/util.go:57-73 | a call that begins with a 404: one request if retries are disabled, else as many as the counter allows and the responses ask for, and the result of the last |
| `Fetching.ServerErrorEndsRetries` | common/util.go:62-73 | 404, 500, 200 on a new closure: an error after two requests |
| `Fetching.UnauthorizedExactly` | common/util.go:74-108 | a call that begins with a 401: how it ends for every outcome of the refresh and of the second response |
| `Fetching.OtherwiseOneRequest` | common/util.go:50-118 | any other first response ends the call after one request |
| `Fetching.CredentialsSent` | common/util.go:131-152 | every request of a call carries its URI and the cached credential, else the configured one, but the one after a refresh, which carries the fresh one |
| `Fetching.RequestsBound` | common/util.go:40-120 | k calls of one closure send at most 2k + 2 requests |
| `Fetching.RequestsBoundAttained` | common/util.go:40-120 | a script of responses attains the bound for every positive k |
| `Fetching.LastRefreshWins` | common/util.go:74-86 | over any sequence of calls, a host's entry is what its last refresh left, or what it was at the start |
| `VaultLoop.RunInv` | vault/vault.go:171-256 | the invariants of the loop hold in every reachable state |
| `VaultLoop.LoopSafety` | vault/vault.go:154-198 | at most one of retry token, wait goroutine, login and manager exists; no send blocks; isLoggedIn is the latest login's outcome but while it is being recorded; the WaitGroup never goes negative and ends at the number of early returns |
| `VaultLoop.NeverStopsTrying` | vault/vault.go:177-198 | every run that has had no granted login and has not returned, shutdown begun and signalled or not, is extended by at most four steps of the loop and the wait goroutines alone to one that is logging in |
| `VaultLoop.LoginEndsEitherWay` | vault/vault.go:182-191 | and three steps further the login is granted and managed, or refused, recorded, and one wait goroutine is there to ask for the next |
| `VaultLoop.RefusedThenGranted` | vault/vault.go:182-191 | a run with a refused login and then a granted one |
| `VaultLoop.SignalsEndIt` | vault/vault.go:234-238 | where shutdown saw the login, a watching manager and then the loop end by three steps of their own, both signals taken and the WaitGroup at zero |
| `VaultLoop.CanAlwaysReturn` | vault/vault.go:171-256 | every run can be extended by at most seven steps to one in which the loop has returned |
| `VaultLoop.NoSecondLogin` | vault/vault.go:200-256 | after a lifecycle has ended no login follows, in any continuation |
| `VaultLoop.Balance` | vault/vault.go:171-224 | the WaitGroup contribution of a finished loop is zero exactly when no lifecycle call ever returned early |
| `VaultLoop.EarlyReturnLeavesOne` | vault/vault.go:207-221 | a run that ends with the WaitGroup one too high |
| `VaultLoop.LifecycleEnds` | vault/vault.go:234-255 | a run in which a lifecycle ends by itself, from where no login follows |
| `VaultLoop.HangsExactly` | cmd/fishymetrics/main.go:318-333 | after shutdown has sent its signals the loop can be stuck only in a manager that got none, and is stuck exactly then |
| `VaultLoop.ShutdownDuringLoginHangs` | cmd/fishymetrics/main.go:326-330 | every run in which shutdown finishes during a login can be extended to one that hangs |
| `VaultLoop.ShutdownDuringLogin` | cmd/fishymetrics/main.go:326-330 | such a run exists |
| `Components.ParseComponents` | exporter/partial_exporter.go:66-92 | the loop yields the recognised parts in order, or the error if there are none |
| `Components.RecogniseIffSpells` | exporter/partial_exporter.go:75-83 | a part is recognised exactly when it is the name in some mix of cases with spaces around it |
| `Components.SpelledListRoundTrip` | exporter/partial_exporter.go:66-92 | joining any spellings of any components with commas and parsing gives the components back, in order |
| `Components.ListRoundTrip` | exporter/partial_exporter.go:66-92 | the same for the plain names |
| `Components.InvalidEndsIgnored` | exporter/partial_exporter.go:76-84 | empty or invalid parts before or after a list do not matter |
| `Components.InvalidMiddleIgnored` | exporter/partial_exporter.go:76-84 | nor do they between two lists |
| `Components.ParsedExactly` | exporter/partial_exporter.go:67-89 | the result holds exactly the components some part spells; the call fails exactly when there are none |
| `Components.CaseIgnored` | exporter/partial_exporter.go:75 | texts that differ only in the case of letters parse alike |
| `Components.NamesAreThese` | exporter/partial_exporter.go:41-50 | the eight names, letter by letter, parse to the eight components |
| `HostNames.IsValidDomainName` | http/handlers/credentials_script.go:183-202 | the nested loops accept exactly the names of the grammar |
| `HostNames.ScanIsGrammar` | http/handlers/credentials_script.go:184-189 | trimming one dot, splitting and testing the parts is deriving the name from labels |
| `HostNames.AutomatonIsGrammar` | http/handlers/credentials_script.go:183-202 | a one-pass automaton accepts exactly the same names |
| `HostNames.AcceptedExactly` | http/handlers/credentials_script.go:183-202 | the accepted names by their characters: letters, digits, hyphens and dots, no label empty, over 63 characters or with a hyphen at an end, at most 253 characters without a final dot |

## Left out

* A chassis body in which one key occurs twice: each key occurs at most once here.
* HTTP, TLS, proxies, timeouts, sleeps and the retries inside the HTTP client: a response script or a URL oracle stands for them.
* JSON and XML text: bodies are decoded values. A body of the wrong overall shape is one malformed case; the decoding rules kept are those of oem/chassis.go, including absent keys, nulls and mistyped elements.
* Regular expressions: an exclude pattern is any predicate on URLs.
* Metric handlers and the Moonshot export functions: each is only whether it accepts the body. Of the gauges only `up` is kept; Describe and delivery to Prometheus are not modelled.
* The Moonshot fetch closure and the Moonshot planner. MoonshotPool is the code of Pool over another task type and has no copy here.
* Plugins, and parsing of the target URL: a construction that fails there is a failed construction.
* Request handlers, middleware, logging, flags, templates, TestConn, and running a credentials script.
* Unsynchronised access to the ignored list and to the alias map from concurrent requests: requests are sequences here.
* RenewToken and manageTokenLifecycle are given as steps, not as methods: what they promise is about interleaving with wait goroutines and shutdown. Revoking the token and renewing it have no effect on the modelled state.
* Components.ParseComponents: texts are sequences of characters, so invalid UTF-8 is not modelled. Characters whose lower case is outside ASCII are left as they are, which changes no result.
* HostNames.IsValidDomainName: the length test of the source counts bytes and the model counts characters; they differ only on texts that the letter test rejects.
