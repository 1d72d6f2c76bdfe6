# Verified model of the OpenWISP-style controller

The service merges prioritised NetJSON templates for a device, substitutes variables, lays a VPN overlay on
top, renders UCI files, packs them into an archive and stores the archive with a checksum and a version. Agents
fetch it over two protocols, one of which signs its requests. This project models those parts in Dafny and proves
what they keep, over all inputs, all map iteration orders and all interleavings of handlers.

`dafny verify dfyconfig.toml` checks the whole project.

## Layout

| file | models |
|---|---|
| `Base.dfy`, `Sorting.dfy` | Go string helpers; stable insertion sort with the facts about ties that the merge and the archive need |
| `NetJson.dfy`, `MergeLaws.dfy` | trees, the JSON round trip, the deep merge loop and `Merge`; what a merge means path by path; associativity |
| `Variables.dfy` | `$var` objects, `lookup`, template strings, `ApplyVars` |
| `Uci.dfy` | the quoting printer, an independent reader, injectivity |
| `Tarball.dfy` | name sanitising, entry order, `Build` |
| `DeviceStore.dfy` | the device and peer tables as a class, and every store method on it |
| `Runs.dfy` | runs of a state machine, and when a property holds in all their prefixes |
| `DeviceRuns.dfy` | the same handlers split into their statements and interleaved arbitrarily; identity of rows and registrations |
| `ConfigRuns.dfy`, `AgreementRuns.dfy`, `VersionRuns.dfy`, `PresenceRuns.dfy` | what those runs keep: provenance, agreement of archive and checksum, versions, presence |
| `HandlerRuns.dfy` | handlers that nothing interrupts |
| `Nonces.dfy`, `SignedRequests.dfy` | the nonce table with its collection, the signing middleware, at-most-once acceptance |
| `WireGuardPool.dfy`, `PeerRuns.dfy` | pool addresses; find-or-create of peers under concurrent calls |
| `Reconcile.dfy`, `ReconcileResults.dfy`, `Agent.dfy` | the whole pipeline and its fixpoint; what it hands on, setting by setting; the agent handlers on top |

Code that updates state is modelled by classes and methods with loops (`Store`, `MemKeyProvider`, `Reconciler`,
`Handler`, `DeepMerge`, `Merge`, `Build`, `InsertionSort`, `WalkInto`, `Emit`); each is proved equal to a
specification function, and the properties are proved about that function. A `for range` over a Go map picks its
keys in an unspecified order, so a proof covers every order. The state machines of `DeviceRuns`, `PeerRuns`
and `SignedRequests` take one event per statement of a handler; events that do not fit the state leave it unchanged, so
a theorem over all event lists is a theorem over all interleavings.

Hashes, HMAC, dates, the archive encoder, the template engine, the UCI renderer and the wg0.conf writer are
function parameters about which nothing is assumed; a digest is a string of 64 characters.

## Properties that hold only under a condition

Where the code does not have a property in full, the model keeps the code, gives an input on which the property
fails, and proves exactly when it holds.

- Deep merge is not associative. `MergeLaws.AssociatesIff`: grouping matters exactly when some path holds an object,
  then a value that is not an object, then an object that does not cover the first one. `AssociativityFails` is a case.
- One substitution pass need not be enough, even when variables and defaults contain no `$var` object: an object whose
  `$var` key holds a `$var` object becomes a new one (`Variables.SecondPassMatters`). `WalkSettles` and `WalkTwice` give
  the condition.
- The archive can depend on the order of rendered files. `Tarball.OrderInvisibleIff`: it does not, exactly when any two
  files of one name ask for the same entry. `SharedNameShowsOrder`: the network and the WireGuard file do share one.
  `RenderAll` always lists the network file first, so the reversed list is not one the program builds.
- Signed requests are accepted at most once exactly when skew window plus handler delay is at most the table's ttl
  (`SignedRequests.AtMostOnceIff`, `ReplayPossible`). The wired values leave 5 minutes, and the server's read timeout is
  15 seconds.
- `AckConfigOW` stores the agent's checksum. `AgreementRuns.AlwaysAgree`: over all interleavings archive and checksum
  stay together exactly when every acknowledgement sends the checksum of the archive it finds. An agent that echoes the
  "sha256:" checksum it was given never does (`AckBreaks`), and one that sends fewer than eight characters makes
  downloads panic (`Agent.ShortAckPanics`, with `AlwaysServable` for the condition).
- A handler that saves a stale snapshot undoes a put that finished in between (`HandlerRuns.StaleSaveUndoesPut`), and an
  acknowledgement replaces what was put (`AckLosesPut`). `VersionRuns.NoPutLostIff`: no put is lost exactly when every
  save that is not a put carries the archive, checksum and version of the row it overwrites.
- Versions need not count puts. `VersionRuns.VersionsCountIff`: they do exactly when every save would have passed an
  optimistic lock on the version. That is another condition: `AckLosesPut` passes the lock, `RacingPutsLoseNone` fails it
  and loses nothing. Without acknowledgements the lock is sufficient (`LockedRunsKeepPuts`).
- In the same way a stale save takes back that a device was seen (`PresenceRuns.StaleSaveUndoesSeen`). `PresenceIff` and
  `PresentReadsIff` say exactly when a device stays present, told at the saves and at the reads.
- The order of the arguments of `Merge` can show among equal priorities, where the later one wins.
  `MergeLaws.MergeOrderInvisibleIff` says exactly when it does not.
- Two concurrent `EnsureWGPeer` calls can create two peers for one device (`PeerRuns.RacingCreators`). `OnePeerIff`: there
  is one row a device exactly when no insertion meets an existing row. Later calls all find the earliest one.
- Pool addresses repeat every 250 device IDs (`WireGuardPool.SharedAddress`), and for prefixes longer than 24 the
  address is in the pool exactly when the host octet falls inside (`AddressInPool`).
- `Adopt` creates an unknown device without a key, and the key column is unique. So it succeeds exactly while no row has
  an empty key (`DeviceStore.Store.Adopt`).
- `ValidateKey` drops an empty key from its filter, so the device it finds need not have the key that was given
  (`DeviceStore.EmptyKeyIgnored`).

## Model

| member | source | states |
|---|---|---|
| Base.LowerMeans | internal/owctrl/auth_hmac.go:90 | lower-casing identifies exactly the strings that differ in case only, as EqualFold does on ASCII |
| Base.TrimSpaceMeans | internal/repo/device_store.go:49-57 | trimming takes white space off the ends and nothing else |
| Base.SplitFirst | internal/render/netjson/merge.go:212 | splitting cuts at the first separator and goes on behind it |
| Sorting.SortPermutes | internal/render/netjson/merge.go:27 | sorting loses and invents nothing |
| Sorting.SortSorted | internal/render/netjson/merge.go:27 | the result is in order, for any total preorder |
| Sorting.LastWhereSort | internal/render/netjson/merge.go:27 | stability: the last element satisfying any test after sorting is the greatest one satisfying it, and among equals the one latest in the caller's list |
| Sorting.SwapTiedPair | internal/render/netjson/merge.go:27 | a tied pair at the front of a list ends up side by side in the order given, at a place that does not depend on it |
| Sorting.SortedUnique | internal/tarball/build.go:53 | two sorted arrangements of the same elements agree when tied elements are equal |
| Sorting.InsertionSort | internal/tarball/build.go:53 | the in-place sort leaves exactly the stable arrangement of what the array held |
| NetJson.NormalFixes | internal/render/netjson/merge.go:72-87 | a JSON round trip changes a tree exactly when it holds a Go int or string slice |
| NetJson.NormalTwice | internal/render/netjson/merge.go:72-87 | cloning a clone changes nothing |
| NetJson.OverlayIsNormal | internal/render/netjson/merge.go:42-61 | a deep merge never contains a Go int or string slice, whatever its inputs contain |
| NetJson.OverlayNormalBelow | internal/render/netjson/merge.go:46-52 | cloning the lower tree first does not change the merge |
| NetJson.OverlayNormalAbove | internal/render/netjson/merge.go:58 | cloning the upper tree first does not change the merge |
| NetJson.DeepMerge | internal/render/netjson/merge.go:42-61 | the map-range loop computes the recursive overlay for every iteration order |
| NetJson.LayDown | internal/render/netjson/merge.go:30-37 | one round of the fold: a nil source leaves the result, the first other one is cloned, later ones are merged on top |
| NetJson.Merge | internal/render/netjson/merge.go:22-40 | the caller's slice ends up stably sorted by priority and the result is the fold over it; no sources give an empty tree |
| MergeLaws.TouchesMeans | internal/render/netjson/merge.go:47-58 | a tree has a say at a path exactly when it has a value there or a non-object at a strict prefix |
| MergeLaws.NormalEncodes | internal/render/netjson/merge.go:72-87 | a round trip gives the JSON value and no other: an int its number, a list of strings an array, a nil list null, everything else itself, at any depth |
| MergeLaws.OverlaySlot | internal/render/netjson/merge.go:42-61 | at every path a merge of two reads as the upper tree if that touches the path, otherwise as the lower one |
| MergeLaws.OverlayValue | internal/render/netjson/merge.go:47-58 | a non-object of the upper tree arrives at its path as its JSON value, whatever the lower tree holds |
| MergeLaws.OverlayGoValues | internal/render/netjson/merge.go:58 | in particular an int arrives as that number, a list of strings as an array of them, a nil list as null |
| MergeLaws.SlotsDetermine | internal/render/netjson/merge.go:42-61 | trees that read alike at every path are equal, so the path theorems pin the merge down completely |
| MergeLaws.StackSlot | internal/render/netjson/merge.go:28-39 | the fold reads, at every path, as the last source that touches it; it is nil exactly when all sources are |
| MergeLaws.StackIsNormal | internal/render/netjson/merge.go:28-39 | a merge of any sources is JSON-normal |
| MergeLaws.MergeSlot | internal/render/netjson/merge.go:22-40 | over the caller's unsorted list: each path reads as the touching source of highest priority, latest among equals; untouched paths are empty |
| MergeLaws.MergeLeaf | internal/render/netjson/merge.go:22-40 | a non-object stands at a path if and only if the deciding source put it there |
| MergeLaws.MergeValue | internal/render/netjson/merge.go:22-40 | the non-object a deciding source has at a path stands there in the merge as its JSON value |
| MergeLaws.MergeNil | internal/render/netjson/merge.go:23-32 | the result is nil exactly for a non-empty list of nil sources |
| MergeLaws.MergeOrderInvisibleIff | internal/render/netjson/merge.go:22-40 | every order of the arguments merges alike, if and only if at each path the touching sources of highest priority say the same |
| MergeLaws.MergeIgnoresOrder | internal/render/netjson/merge.go:27 | so with distinct priorities the order does not matter |
| MergeLaws.CoversMeans | internal/render/netjson/merge.go:42-61 | a lower tree leaves no trace exactly when the upper one covers it |
| MergeLaws.AssociatesIff | internal/render/netjson/merge.go:42-61 | merging is associative on three trees exactly when no path clashes |
| MergeLaws.AssociativityFails | internal/render/netjson/merge.go:42-61 | a concrete object, null, object triple on which grouping shows |
| Variables.LookupStepwise | internal/render/netjson/merge.go:210-223 | the loop over the dotted path finds the value at the split path, or nothing |
| Variables.WalkInto | internal/render/netjson/merge.go:114-141 | the recursive closure with its loops computes the substitution for every iteration order |
| Variables.WalkFixes | internal/render/netjson/merge.go:106-146 | with clean variables a pass changes nothing exactly when every outermost $var object is unresolvable and has no default |
| Variables.WalkSettles | internal/render/netjson/merge.go:106-146 | exactly when one pass leaves only such objects |
| Variables.WalkTwice | internal/render/netjson/merge.go:106-146 | a second pass is the identity exactly under the same condition |
| Variables.SecondPassMatters | internal/render/netjson/merge.go:116-126 | a family with clean variables and no defaults on which the second pass changes the tree |
| Variables.RenderInto | internal/render/netjson/merge.go:170-204 | the string-template closure rewrites strings with an action and nothing else, for every iteration order |
| Variables.HasActionMeans | internal/render/netjson/merge.go:174 | a string is a template exactly when "{{" occurs in it |
| Variables.RenderMeans | internal/render/netjson/merge.go:170-204 | every template string, in objects and arrays alike, is replaced by what the engine makes of it, and nothing else changes |
| Variables.RenderText | internal/render/netjson/merge.go:173-185 | the same for a string at a path |
| Variables.RenderAt | internal/render/netjson/merge.go:170-204 | rendering keeps every path and only rewrites below it |
| Variables.WalkMeans | internal/render/netjson/merge.go:114-141 | every outermost $var object, in objects and arrays alike, becomes the value at its dotted path, else its default, else stays, and nothing else changes |
| Variables.WalkVarAt | internal/render/netjson/merge.go:116-126 | the same for a $var object at a path |
| Variables.WalkAt | internal/render/netjson/merge.go:114-141 | substitution keeps every path that meets no $var object |
| Variables.ApplyVarsInSteps | internal/render/netjson/merge.go:92-104 | clone, substitute, render in order equals the pure function; a nil tree or a root replaced by a non-object reads as empty |
| Variables.ApplyVarsKeeps | internal/render/netjson/merge.go:92-104 | a value away from $var objects arrives at its own path, substituted and rendered |
| Variables.ApplyVarsResolves | internal/render/netjson/merge.go:92-104 | a resolvable $var object comes out as its variable's value, rendered |
| Variables.ApplyVarsEmpty | internal/render/netjson/merge.go:143-145 | no tree, or a root replaced by something that is not an object, gives the empty tree |
| Uci.UnquoteQuote | internal/render/uci/openwrt.go:57 | q has a left inverse on every string |
| Uci.QuoteGuarded | internal/render/uci/openwrt.go:57 | every quote in q's output has a backslash right before it |
| Uci.Emit | internal/render/uci/openwrt.go:59-76 | the builder ends up with the concatenation of what the calls append |
| Uci.EmittedIsText | internal/render/uci/openwrt.go:59-76 | the text depends only on the headers, options and list entries left after dropping empty values and false booleans |
| Uci.NoSecondReading | internal/render/uci/openwrt.go:57-76 | no emitted text can also be read starting inside a quoted value |
| Uci.TextDetermines | internal/render/uci/openwrt.go:57-76 | equal texts come from equal lines, with quotes, backslashes and newlines allowed in values |
| Uci.EmissionInjective | internal/render/uci/openwrt.go:107-131 | two runs of the printer write the same text if and only if they leave the same lines, for identifier keys and any values |
| Uci.ReadEmitted | internal/render/uci/openwrt.go:107-131 | a separate reader recovers the lines in order from the text, for values on one line |
| Uci.ReaderSees | internal/render/uci/openwrt.go:59-76 | each call adds for the reader, at its place, exactly the header, option, list entry or blank it is for; empty values and false booleans add nothing |
| Tarball.SquashCanonical | internal/tarball/build.go:32-33 | cleaning leaves no empty or "." component and ".." only as a leading run |
| Tarball.CleanNameShape | internal/tarball/build.go:32-36 | a sanitised name is "." or relative with canonical components |
| Tarball.CleanNameTwice | internal/tarball/build.go:32-33 | sanitising is idempotent |
| Tarball.CleanDropsDots | internal/tarball/build.go:33 | empty and "." components make no difference anywhere in a name |
| Tarball.CleanCancels | internal/tarball/build.go:33 | a component followed by ".." makes no difference |
| Tarball.CleanFixes | internal/tarball/build.go:32-34 | leading slashes make no difference, a canonical name stays, and an empty one becomes "." |
| Tarball.SortedKeysUnique | internal/tarball/build.go:68-72 | whatever order the map hands out its keys in, sorting gives one list |
| Tarball.Add | internal/tarball/build.go:30-50 | one input adds its entry, nothing for ".", or fails on a refused header |
| Tarball.RangeKeys | internal/tarball/build.go:68-71 | the range loop collects every key once, in any order |
| Tarball.OrderExtra | internal/tarball/build.go:68-78 | the extras come out in name order |
| Tarball.AddAll | internal/tarball/build.go:54-64 | the loop writes the entries in order and stops exactly when some header is refused |
| Tarball.Build | internal/tarball/build.go:19-87 | the caller's slice is sorted in place; the archive packs the canonical entry list and carries its hash; it fails exactly when a header is refused |
| Tarball.LeMeans | internal/tarball/build.go:53 | names are ordered by their first different byte, and a proper prefix comes first |
| Tarball.BuiltInOrder | internal/tarball/build.go:53-86 | what is packed: the UCI files rearranged so that of two names the one with the smaller first different byte, or the proper prefix, comes first; behind them each extra once in the same order; nothing exactly when a header is refused |
| Tarball.WrittenInOrder | internal/tarball/build.go:54-64 | files are written one after the other, each as one entry with its clean name, bytes and mode or 0644, or not at all |
| Tarball.EntriesComplete | internal/tarball/build.go:30-80 | an entry is in the archive if and only if an input file or extra with a name other than "." asks for it |
| Tarball.TiedPairShows | internal/tarball/build.go:53-64 | swapping two files of one name with different entries changes the entry list, whatever else is archived |
| Tarball.OrderInvisibleIff | internal/tarball/build.go:53-72 | the entry list is the same for every permutation of the files if and only if any two files of one name ask for the same entry |
| Tarball.BuiltIgnoresOrder | internal/tarball/build.go:19-87 | then the archive and its checksum are the same too |
| Tarball.SharedNameShowsOrder | internal/render/uci/openwrt.go:286 | two different files named etc/config/network show their order, whatever the other files and extras |
| DeviceStore.FirstId | internal/repo/device_store.go:130-137 | the row found matches and has the lowest primary key; none is found only when none matches |
| DeviceStore.ValidateKeyMeans | internal/repo/device_store.go:130-137 | for all arguments a device is returned if and only if its row has every non-empty one of them, and is the first row when both are empty |
| DeviceStore.EmptyKeyIgnored | internal/repo/device_store.go:132 | the device found has the given key exactly when that is non-empty or its own is empty; an empty key leaves the lookup to the uuid |
| DeviceStore.SweptExactly | server/app.go:71-80 | any sequence of sweeps turns exactly the rows last seen before some cut offline and changes nothing else |
| DeviceStore.SeenStaysOnline | internal/repo/device_store.go:212-220 | with nothing but sweeps after it, a device marked as seen is online if and only if none cuts later than that |
| PresenceRuns.PresenceIff | internal/repo/device_store.go:175-220 | over every interleaving a present device stays online and as recently seen after every event, if and only if no save brings back a row that is not, no mark is older and no sweep cuts later |
| PresenceRuns.PresentReadsIff | internal/repo/device_store.go:175-280 | row and in-flight snapshots stay present after every event, if and only if no status report that reads the row is offline or backdated, no adoption or mark is backdated and no sweep cuts later; saves need no condition |
| PresenceRuns.StaleSaveUndoesSeen | internal/repo/device_store.go:197-210 | an applied report that read the row before a mark and saves after it lets the next sweep take the device offline |
| DeviceStore.EffectiveKey | internal/repo/device_store.go:57-66 | a registration never works with an empty key |
| DeviceStore.RegisteredKey | internal/repo/device_store.go:57-66 | the registered key is the agent's own trimmed one; without it md5 of the lower-case MAC and the secret when keys are consistent; otherwise md5 of a fresh UUID |
| DeviceStore.RegisterKnownKey | internal/repo/device_store.go:70-90 | an agent that sends the key of a row gets that row's uuid and key and is not new |
| DeviceStore.RegisterAgain | internal/repo/device_store.go:57-90 | with consistent keys a second registration whose MAC agrees up to case and white space returns the same uuid and key for any fresh UUIDs, over any later table that still has the row |
| DeviceStore.RegisteredRow | internal/repo/device_store.go:70-125 | after a successful registration some row has the uuid and key it returned |
| DeviceStore.PeerOfAppend | internal/repo/vpn_store.go:12-27 | a new peer row never changes what a device that has one finds |
| DeviceStore.Store.constructor | internal/repo/device_store.go:26-28 | a new store is empty and its indexes hold |
| DeviceStore.Store.GetChecksum | internal/repo/device_store.go:139-148 | the stored checksum, or unauthorized, or not found when archive or checksum is empty |
| DeviceStore.Store.GetConfig | internal/repo/device_store.go:150-159 | stored archive and checksum, or the error |
| DeviceStore.Store.Save | internal/repo/device_store.go:161-173 | the whole row is replaced, the others stay, the indexes hold |
| DeviceStore.Store.PutConfigTar | internal/repo/device_store.go:161-173 | the found row gets archive, its hash, version and time, and nothing else changes; an unknown uuid changes nothing |
| DeviceStore.Store.ReportStatus | internal/repo/device_store.go:175-195 | the found row gets the reported status and becomes offline or online by it |
| DeviceStore.Store.ReportApplied | internal/repo/device_store.go:197-210 | the found row records the applied sum, by default its own checksum |
| DeviceStore.Store.Create | internal/models/device.go:18-45 | insertion succeeds exactly when both unique columns are free |
| DeviceStore.Store.Adopt | internal/repo/device_store.go:230-280 | a known device is updated; an unknown one is created if and only if no row has an empty key |
| DeviceStore.Store.AckConfigOW | internal/repo/device_store.go:319-332 | version and checksum are overwritten with the agent's |
| DeviceStore.Store.Register | internal/repo/device_store.go:47-126 | refused exactly for a wrong secret; a known key updates the non-empty ones of name, model and MAC and nothing else; a new one inserts exactly one row without configuration; on an error nothing changes |
| DeviceStore.Store.EnsureWGPeer | internal/repo/vpn_store.go:12-27 | afterwards the device has a peer and that is the one returned; a row is added only when there was none |
| DeviceRuns.NextGrows | internal/repo/device_store.go:47-280 | no statement of any handler removes a row, changes a uuid or key or breaks a unique index |
| DeviceRuns.NextTasks | internal/repo/device_store.go:130-280 | every in-flight snapshot keeps belonging to a row with its uuid and key, whatever other handlers do |
| DeviceRuns.NextRegistered | internal/repo/device_store.go:70-125 | a statement adds at most one registration result; it names a row, and says "new" only if the key was free |
| DeviceRuns.RunIdentity | internal/repo/device_store.go:47-280 | all of that over every run |
| DeviceRuns.RegisterUnderRaces | internal/repo/device_store.go:47-126 | over every interleaving keys stay unique, registrations with one key return one UUID, and at most one reports new |
| ConfigRuns.SaveTraced | internal/repo/device_store.go:161-210 | a whole-row save, stale or not, leaves a configuration that was put or was there first |
| ConfigRuns.NextTraced | internal/repo/device_store.go:161-280 | every statement but those of AckConfigOW keeps the configuration invariant over rows, snapshots and planned versions |
| ConfigRuns.Provenance | internal/repo/device_store.go:161-173 | over every interleaving archive, checksum and version are together the first triple or one put whole, and the version is at most the first one plus the puts |
| AgreementRuns.NextAllFit | internal/repo/device_store.go:161-331 | for any condition that empty rows and puts meet, a statement breaks it for rows or snapshots exactly when it is an acknowledgement whose checksum does not fit the archive it found |
| AgreementRuns.AlwaysAgree | internal/repo/device_store.go:319-332 | over every interleaving of all handlers, acknowledgements included: archive and checksum agree in every row and every snapshot to be saved after every event, if and only if every acknowledgement sends the checksum of the archive it finds, or none where there is none |
| AgreementRuns.AlwaysServable | internal/owagent/handlers.go:129 | over the same runs no row or snapshot has an archive and a checksum of fewer than eight characters, if and only if no acknowledgement sends one for a row with an archive |
| AgreementRuns.AckAlone | internal/repo/device_store.go:319-332 | the two statements of an uninterrupted acknowledgement overwrite version, checksum, time and status of its row only |
| AgreementRuns.AckBreaks | internal/repo/device_store.go:310-328 | an acknowledgement that echoes the announced "sha256:" checksum always breaks the agreement, and one below eight characters makes an archive unservable |
| AgreementRuns.ServedAgrees | internal/owagent/handlers.go:118-129 | after every run whose acknowledgements fit, what GetConfig finds has its own checksum |
| HandlerRuns.ReconcileAlone | internal/controller/reconcile.go:134-144 | the three statements of an uninterrupted store step amount to one put, or to nothing when the sums agree |
| HandlerRuns.StatusAlone | internal/repo/device_store.go:175-195 | the two statements of an uninterrupted report amount to the store method's update |
| HandlerRuns.AppliedAlone | internal/repo/device_store.go:197-210 | the same for applied reports |
| HandlerRuns.AdoptAlone | internal/repo/device_store.go:230-280 | the same for adoption, found or created |
| HandlerRuns.RegisterFound | internal/repo/device_store.go:70-90 | an uninterrupted registration of a known key updates name, model and MAC only |
| HandlerRuns.RegisterNew | internal/repo/device_store.go:95-125 | an uninterrupted registration of a new key inserts one row and reports new |
| HandlerRuns.HandlersExact | internal/controller/reconcile.go:137-141 | uninterrupted handlers pass the version lock at each save and so keep every version equal to the count of puts |
| VersionRuns.VersionsCountIff | internal/repo/device_store.go:161-210 | over every interleaving of all handlers: every version is the first one plus the number of puts after every event, if and only if every save writes a snapshot whose version is the current one of the row, plus one for a put |
| VersionRuns.CountingHoldsLast | internal/repo/device_store.go:161-173 | a row whose version counts its puts holds the last of them |
| VersionRuns.NoPutLostIff | internal/repo/device_store.go:161-331 | over every interleaving of all handlers, acknowledgements included: after every event each row holds the archive, checksum and version put into it last, if and only if every save that is not a put carries the three as they stand in the row it overwrites |
| VersionRuns.LockedRunsKeepPuts | internal/repo/device_store.go:161-210 | a corollary for an optimistic lock: without acknowledgements, runs whose saves pass the version test meet that condition and lose no put |
| HandlerRuns.VersionCountsPuts | internal/controller/reconcile.go:137-141 | runs of handlers that do not interleave are such runs |
| HandlerRuns.StaleSaveUndoesPut | internal/repo/device_store.go:175-194 | with interleaving a status report can bring the old archive, checksum and version back after a finished put |
| HandlerRuns.AckLosesPut | internal/repo/device_store.go:327-331 | an acknowledgement that echoes the version with another checksum passes the version test and still replaces what was put last |
| HandlerRuns.RacingPutsLoseNone | internal/controller/reconcile.go:134-144 | two Reconciles planned from one version both put: the second save fails the version test, and the row holds what was put last |
| Nonces.MemKeyProvider.constructor | internal/owctrl/hmac_mem_provider.go:18-27 | empty tables, and 10 minutes when the ttl is not positive |
| Nonces.MemKeyProvider.Lookup | internal/owctrl/hmac_mem_provider.go:35-43 | found exactly when the device has a key with that ID |
| Nonces.MemKeyProvider.SeenNonce | internal/owctrl/hmac_mem_provider.go:45-63 | answers for the live records and leaves those, plus the new one when it was not there |
| Nonces.MemKeyProvider.Collect | internal/owctrl/hmac_mem_provider.go:52-57 | deleting while ranging leaves exactly the records not older than the cut, for every order |
| Nonces.RecordedFaithful | internal/owctrl/hmac_mem_provider.go:45-63 | one call keeps the table in step with the log of accepted calls |
| Nonces.CollectionInvisible | internal/owctrl/hmac_mem_provider.go:45-63 | with a monotone clock the answer is true exactly when a never-collected log has an accepted record of that key and nonce dated now - ttl or later |
| SignedRequests.AuthorizationSplit | internal/owctrl/auth_hmac.go:48-65 | the header parses to (keyID, signature) if and only if it was built from a non-empty colon-free keyID and a signature of at least 20 characters |
| SignedRequests.CanonicalInjective | internal/owctrl/auth_hmac.go:105-114 | canonical strings are equal exactly when all seven fields are, for fields without newlines |
| SignedRequests.AdmitMeans | internal/owctrl/auth_hmac.go:44-77 | which refusal a request meets before its body is read, each by its own condition: missing headers, malformed header, unparsable date, a date further than the window on either side |
| SignedRequests.MalformedMeans | internal/owctrl/auth_hmac.go:49-59 | a wrong scheme is told first, then a missing or leading colon |
| SignedRequests.VerifyMeans | internal/owctrl/auth_hmac.go:79-124 | the later checks in order: unreadable body, a body that does not have the announced hash, an unknown key, a signature other than that of the seven lines |
| SignedRequests.PassesIff | internal/owctrl/auth_hmac.go:44-124 | the conditions of the two stages together are those of the source, written out |
| SignedRequests.HMACAuth | internal/owctrl/auth_hmac.go:27-137 | a request reaches the nonce table exactly when its headers are there, its date is in the window, its body has the announced hash, and the secret on file for device and key ID signs its seven lines; the error and the untouched table otherwise |
| SignedRequests.RequestAlone | internal/owctrl/auth_hmac.go:44-131 | the separate steps of an uninterrupted request amount to the middleware: recorded with its date, and accepted unless its nonce is on record |
| SignedRequests.RefusedAlone | internal/owctrl/auth_hmac.go:44-124 | and refused requests leave no trace |
| SignedRequests.NextInv | internal/owctrl/auth_hmac.go:67-131 | every step keeps in-flight requests checked and accepted ones authentic and on record while their date is within the ttl |
| SignedRequests.AcceptedAreAuthentic | internal/owctrl/auth_hmac.go:44-124 | over every interleaving an accepted request had a date in the window, the body it announced, and a signature over its own seven lines |
| SignedRequests.AcceptedKeysWerePut | internal/owctrl/hmac_mem_provider.go:29-43 | over every interleaving the secret it was signed with had been put for its device under its key ID |
| SignedRequests.AtMostOnce | internal/owctrl/auth_hmac.go:126-131 | over every interleaving of prompt requests, collections included, no (keyID, nonce, date) is accepted twice |
| SignedRequests.ReplayPossible | internal/owctrl/hmac_mem_provider.go:51-57 | when window plus delay exceeds the ttl there is a run that accepts one request twice |
| SignedRequests.AtMostOnceIff | internal/owctrl/auth_hmac.go:67-131 | so at-most-once holds over all runs exactly when window plus delay is at most the ttl |
| SignedRequests.WiredAtMostOnce | server/app.go:144 | the wired 5 and 10 minutes give at-most-once for handlers within 5 minutes |
| WireGuardPool.AddressInPool | internal/controller/reconcile.go:213-227 | the address has host octet 2 to 251 and is in the pool for prefixes up to 24, otherwise exactly when that octet falls inside |
| WireGuardPool.ItoaMeans | internal/controller/reconcile.go:225-226 | printed digits stand for the number, without a leading zero |
| WireGuardPool.DottedMeans | internal/controller/reconcile.go:225-226 | the dotted text reads as the address, most significant octet first |
| WireGuardPool.PickedAddress | internal/controller/reconcile.go:213-227 | the text has the first three octets of the pool, then 2 plus the device ID modulo 250, then "/32" |
| WireGuardPool.FirstOfPool | internal/controller/reconcile.go:213-227 | device 1 of 10.10.0.0/24 gets 10.10.0.3/32 |
| WireGuardPool.DottedInjective | internal/controller/reconcile.go:225-226 | dotted notation distinguishes addresses |
| WireGuardPool.SharedAddress | internal/controller/reconcile.go:213-227 | two devices share an address exactly when their IDs agree modulo 250 |
| PeerRuns.EnsureAlone | internal/repo/vpn_store.go:12-27 | the two statements of a call that nothing interrupts amount to the store method |
| PeerRuns.OnePeerIff | internal/repo/vpn_store.go:14-22 | over every interleaving of calls each device has at most one row after every event, if and only if no call inserts for a device that has a row by then |
| PeerRuns.RacingCreators | internal/repo/vpn_store.go:14-22 | two calls that both look before either inserts leave two rows for one device, and each returns its own |
| PeerRuns.UninterruptedOnePeer | internal/repo/vpn_store.go:12-27 | calls that do not interleave meet that condition, so they leave one row a device |
| PeerRuns.FirstPeerStays | internal/repo/vpn_store.go:12-27 | over every run the earliest row of a device stays the one found, whatever racing calls insert |
| PeerRuns.LaterCallsAgree | internal/repo/vpn_store.go:12-27 | a call that starts after the first insertion for its device returns that row and inserts nothing |
| PeerRuns.FoundPeersEqual | internal/repo/vpn_store.go:26 | over every interleaving all calls for one device that created nothing returned the same peer |
| PeerRuns.AddressesOverRuns | internal/controller/reconcile.go:151-159 | over every interleaving two rows share an address exactly when their device IDs agree modulo 250 |
| PeerRuns.WindowDistinct | internal/controller/reconcile.go:151-159 | over every interleaving of calls for devices in a window of 250 IDs two rows share an address exactly when they belong to one device |
| Reconcile.VpnStageSettles | internal/controller/reconcile.go:80-122 | running the VPN stage again, with other fresh keys and over any peer table in which the device finds the same peer, gives the same overlay and files and leaves that table alone |
| Reconcile.ArchiveIgnoresConfig | internal/controller/reconcile.go:48-129 | the archive depends on the device only through fields that Reconcile does not write |
| Reconcile.ReconciledRow | internal/controller/reconcile.go:134-144 | after success the row carries the returned sum, the hash of its archive if it was updated, and only its configuration may have changed |
| Reconcile.NextRun | internal/controller/reconcile.go:134-144 | in every mode a second successful run reports an update exactly when its sum differs from the first run's, otherwise it leaves the rows alone |
| Reconcile.Fixpoint | internal/controller/reconcile.go:42-145 | in modes none, zerotier and wireguard every later run, over any table whose row for the device has the same inputs and the returned sum and any peers in which it finds the same peer, returns that sum without update and leaves rows and peers as they are |
| Reconcile.FixpointAtOnce | internal/controller/reconcile.go:42-145 | in particular the run that follows at once, although the first may have created the peer |
| Reconcile.SecondMerge | internal/controller/reconcile.go:86-89 | the Merge call at priorities 10 and 999 is one overlay of the VPN tree over the base |
| Reconcile.OverlayDominates | internal/controller/reconcile.go:86-121 | every path the overlay touches reads as the overlay in JSON-normal form, every other path as the tree below |
| Reconcile.TemplateValueArrives | internal/controller/reconcile.go:53-121 | the value of the deciding template, away from $var objects and the overlay, stands rendered at its path in the final tree |
| Reconcile.WireGuardArrives | internal/controller/reconcile.go:164-180 | the peer's address and key are in the final tree whatever the templates say |
| ReconcileResults.TemplateArrives | internal/controller/reconcile.go:53-74 | the value at a path of the template that decides it, by priority and then position, stands worked out in the final tree |
| ReconcileResults.DeviceVariables | internal/repo/template_store.go:28-35 | the variables are uuid, name, model and MAC of the device under their names, and no others |
| ReconcileResults.VariableArrives | internal/repo/template_store.go:28-35 | a template that asks for one of them gets it |
| ReconcileResults.WireGuardRun | internal/controller/reconcile.go:149-181 | in wireguard mode the stage fails exactly without a usable pool; otherwise the tree shows interface, address and private key of the peer and one server peer with server key, preshared key, endpoint, allowed IPs and keepalive; the peer is the one on file, or a new row with the device's pool address, the generated keys and the settings |
| ReconcileResults.NewPeerIsNewRow | internal/vpn/wireguard/spec.go:11-24 | the row a run creates is the one the theorems on concurrent creation and addresses are about |
| ReconcileResults.OpenVpnRun | internal/controller/reconcile.go:95-114 | in openvpn mode the tree shows one client with the settings, and CA, certificate and key go into the device's directory |
| ReconcileResults.PlainRun | internal/controller/reconcile.go:116-122 | in zerotier mode the tree is enabled for the one network; without a mode it is the base tree; neither adds files or peers |
| ReconcileResults.RunArchives | internal/controller/reconcile.go:124-144 | a run archives the rendering of the overlaid tree under the device's name with the extra files, returns that archive's sum, and on a change stores archive, sum, next version and time |
| ReconcileResults.RunFails | internal/controller/reconcile.go:48-132 | it fails exactly for an unreadable template, a failing VPN stage or a refused header, and then leaves the rows alone |
| Reconcile.WiredSubstitution | internal/repo/template_store.go:28-35 | device variables are clean, so a second pass is the identity exactly when one sufficed |
| Reconcile.Reconciler.CollectSources | internal/controller/reconcile.go:53-60 | the first unreadable template ends the run, otherwise all become sources in order |
| Reconcile.Reconciler.MergeOverlay | internal/controller/reconcile.go:86-89 | the two-source merge in place gives the overlaid tree |
| Reconcile.Reconciler.OverlayWireGuard | internal/controller/reconcile.go:149-181 | address, find-or-create, overlay; a bad pool creates no peer |
| Reconcile.Reconciler.ApplyVpn | internal/controller/reconcile.go:76-122 | the mode switch gives the overlaid tree, the extra files and the new peer table |
| Reconcile.Reconciler.Prepare | internal/controller/reconcile.go:48-132 | the archive of the first four steps, or none as soon as one fails, with the peer table it leaves |
| Reconcile.Reconciler.StoreIfChanged | internal/controller/reconcile.go:134-144 | nothing is stored when the sums agree, otherwise the archive with the next version |
| Reconcile.Reconciler.Reconcile | internal/controller/reconcile.go:42-145 | the run as the code orders it refines the function the theorems are about, failures included |
| Agent.Handler.Checksum | internal/owagent/handlers.go:86-109 | reconcile, then the checksum on file or 404, and only then the device is marked as seen |
| Agent.Handler.DownloadConfig | internal/owagent/handlers.go:112-137 | for every table: 404, the archive under a name with the first eight characters of the checksum, or a panic exactly when there is an archive and the checksum is shorter; only a complete GET marks the device |
| Agent.Handler.ReportStatus | internal/owagent/handlers.go:140-188 | defaults, the applied flag from either field, one or two saves, 404 for an unknown pair |
| Agent.ReconcileAgrees | internal/owagent/handlers.go:91-94 | reconciling keeps archives and checksums in agreement |
| Agent.ReportAgrees | internal/owagent/handlers.go:169-184 | so does a status report |
| Agent.DownloadsNeverPanic | internal/owagent/handlers.go:129 | after every interleaving without an acknowledgement below eight characters for a row with an archive no download panics |
| Agent.DownloadsNameTheirHash | internal/owagent/handlers.go:129-135 | after every interleaving with fitting acknowledgements a download has the first eight characters of its own hash in its name |
| Agent.ShortAckPanics | internal/owagent/handlers.go:129 | an acknowledgement with fewer than eight characters makes the next download of the device panic |
| Agent.ReconcileRepairs | internal/controller/reconcile.go:134-144 | after a successful Reconcile the row agrees if and only if it was updated or agreed before |
| Agent.ReportKeepsConfig | internal/owagent/handlers.go:167-184 | a report never touches the configuration, and an applied one without checksum records the checksum on file |
| Agent.FormMeans | internal/owagent/handlers.go:152-165 | the status of a form, "running" by default; when it means offline; when it says applied |
| Agent.ReportMeans | internal/owagent/handlers.go:150-184 | the row after a report, column by column: status and time, offline for an error unless applied, and the time and sum applied, by default the one on file |
| Agent.SeenKeepsFirst | internal/repo/device_store.go:212-220 | marking as seen changes neither which row a lookup finds nor its configuration |
| Agent.PollsSettle | internal/owagent/handlers.go:91-108 | after a checksum request has reconciled and marked the device, the Reconcile of the next request has nothing to do |
| Agent.ChecksumMatchesDownload | internal/owagent/handlers.go:86-137 | a checksum request followed by a download yields the sum Reconcile computed and, when the device's own row agreed before or was updated, an archive with that hash |

## Left out

- Update in place inside trees: Go maps and slices are values here, so aliasing between a tree and the variables put into it is not captured.
- Typed nil maps and slices inside trees other than a nil list of strings.
- Float precision of integers above 2^53, NaN and infinities, and replacement of invalid UTF-8 in the JSON round trip.
- Which sections a NetJSON tree yields: the UCI renderer is a function parameter of Reconcile, and the text layer is proved over an abstract list of printer calls.
- The hostname line of `renderSystem`, which is printed without `q` and so has no injectivity.
- Uci.EmissionInjective: requires section types and option names without blanks, quotes and newlines. The renderer's are constants, except `wireguard_` followed by the interface name.
- Uci.ReadEmitted: needs values without newlines, because the reader works line by line; `Uci.EmissionInjective` has no such limit.
- The bytes of tar and gzip, the text of wg0.conf, the text/template engine, SHA-256, MD5, HMAC, key and certificate generation: uninterpreted.
- `sort.Slice` on more than 12 files with equal names, where Go does not use insertion sort; with distinct names the order is the same.
- SQL: tables are maps, `Save` replaces a row, columns CreatedAt and UpdatedAt, soft deletion and database errors are absent.
- `GetConfigNoKey` except for the form of its checksum, and the rendered and desired NetJSON columns.
- `strings.ToLower` and `strings.TrimSpace` beyond ASCII.
- CIDR parsing and the lower-casing of the VPN mode: the mode and the parsed network are given.
- Wrap-around of the version at the machine integer width.
- Reconcile.Fixpoint: excludes openvpn, where every run issues a fresh certificate; `Reconcile.NextRun` covers that mode.
- ConfigRuns.Provenance: over runs without acknowledgements, which overwrite version and checksum without a put.
- VersionRuns.LockedRunsKeepPuts: one direction, without acknowledgements and from versions that are not negative; `VersionRuns.NoPutLostIff` is the exact statement over all runs.
- DeviceStore.Store.Register: one uninterrupted call, and without the device name in its result; `DeviceRuns` has the interleaved statements.
- DeviceStore.Store.EnsureWGPeer: one uninterrupted call; `PeerRuns` has the interleaved statements.
- SignedRequests.AtMostOnce: assumes that the wall clock never goes back.
- HTTP routing, header writing, logging, health and admin pages, configuration loading, shared-secret checks outside `Register`.
- `internal/owctrl/store_memory.go` and `internal/secrets/db_keyprovider.go`, which are not wired in.
