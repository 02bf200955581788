# Verified model of the analysis engine

A Dafny model of the stateful core of an application-analysis engine, with proofs of what that core
is for. Each module follows one part of the program. `dafny verify dfyconfig.toml` checks everything.

- `Model`, `Resolver`, `Merge`, `Steps`, `Ledgers`, `XRef`, `Passes`, `Build`, `Hierarchy`, `Packages` model
  the static model builder. A heap of classes, methods and fields point at each other, and the collections of the
  database index them. `Graph` is the snapshot of that heap on which the specifications are written. `Graph.Valid` says
  that the indexes agree with the classes: tables agree with their keys, `extends` climbs a ghost rank,
  every member of a class is indexed under its signature, and every index entry is a member of its
  class. The program does not keep `Valid`; what it keeps is `Graph.Consistent({}, stale)`, which
  excepts the inherited slots that hold a method of `stale`, the signatures replaced so far. All
  operations require and keep this weaker invariant, over whole runs (`Build.BuildRun`). `Steps` is the
  theory of runs of resolutions, and `Ledgers` says what a call records beside the graph: callers, call
  nodes, missing nodes, and the classes a method is bound to. `Passes` tells from the graph before pass 4
  how often a method is mapped, which calls reach the indexed node, which methods the calls create, and
  when callers and uses agree. `Scenarios` is a concrete run of two builds from the empty database.
- `Tagging` models the conditional tagging of six collections, and the passes of a full scan.
- `Fingerprints` and `Devices` model the device registry: comparing fingerprints, taking in the result
  of a scan, pruning, disconnecting.
- `HookSession`, `HookSet`, `Templates` and `ArgsHelper` model the hook runtime: the event log with its
  pages and batches, the upgrade of hook-set options, token replacement in scripts, argument lists.
- `CallerGraph` and `ClassTree` model the caller tree of a method, and the tree of class names with its
  printer. `Bus` models the event bus. `Text` holds searching, splitting and joining.

Objects that the program updates in place are classes here, loops are loops, and each method is proved
against a function of a snapshot (`View`). The laws are lemmas about those functions, mostly for all
runs. An error return stands for each exception.

## Where the code differs from its evident purpose

The model follows the code. These differences shape the theorems:

- `getName()` of a method reference is the name of its class. An inherited method is therefore stored
  under the class name, both in the class and in the index (`ByFqcn`), and the search up `extends`
  compares simple names only, so it ignores overloads.
- A method that is found by inheritance is bound anew each time: its declaring class becomes the class that
  enclosed it, and its enclosing class the one where the search met it. The second resolution meets it
  in the same place, so both then name that class, and the class that declares it is forgotten
  (`Resolver.ResolveTwice`).
- `hasMethod(o)` and `hasField(o)` look up the node instead of its signature, so the merge always adds
  an overriding member and never compares it (`Merge.OverrideMethod`, whose update branch is dead). An
  inherited slot that holds an overridden method keeps the old definition. A merge of new nodes leaves
  the indexes in full agreement with the classes if and only if every slot was current and the batch
  replaces none of the methods in the slots (`Merge.MergedValidIff`); `Scenarios.SlotScenario` is an
  input where it does not.
- A call that resolves through a stale slot reaches the replaced node, whose caller list the index does
  not hold. One call reaches the indexed node if and only if its reference denoted nothing, or such a
  node, right before it (`Steps.StepCurrent`). Over a whole pass the same can be told from the graph
  before the pass, provided that no call takes over the slot of a class that has one already
  (`Passes.CalleesCurrentIff`); without that proviso it cannot, because a slot that is taken over may
  uncover a stale one (`Scenarios.OverwrittenSlot`). A method whose calls of one name agree in this is
  then a caller of exactly the methods it uses if and only if it was mapped more than once or none of
  its calls denoted a replaced node (`Passes.OwnUsesIff`). `Scenarios.SlotScenario` builds a method that
  uses a method whose indexed node does not list it.
- Pass 4 maps what a class holds when its turn comes, slots included, so a method that mapping has put
  into a slot of a later class is mapped again, and its positions are recorded again
  (`Scenarios.SlotScenario`). An own method is mapped once, and once more for each slot of the batch
  that holds it when visited (`Passes.MappedTimes`). Where no call of what the batch holds is left to
  resolve in one of its stored classes, it is mapped once if and only if no slot of the batch held it
  before the pass (`Passes.OnceBeforeIff`), and its positions are exact if and only if so, or if it
  makes no call (`Passes.FreshExactIff`).
- An inherited method is stored under two keys, so the static and the dynamic tagging pass, whose tags
  do not end their condition, count it twice (`Tagging.TwiceCounted`; `Tagging.CountIsMeeting` gives the
  exact condition).
- A missing class registers its package without that package's parents, which leaves a package of
  several segments an orphan for good: a run leaves a well-formed forest if and only if each
  registration found the package, or one segment (`Packages.RunWellFormedIff`).
- A literal that reads like a token name and stands between two tokens is replaced as if it were a
  token, and breaks both neighbours (`Templates.LoopsMisread`). The loops are the simultaneous
  substitution if and only if each in turn finds nothing but tokens (`Templates.LoopsSubstituteIff`),
  provided that no known name goes on from the name of a token, which names like `__CTX__` never do
  (`Templates.DunderLoopsIff`). Without that proviso one loop can mend by coincidence what another
  spoiled (`Templates.LoopsMended`).
- In an option upgrade a kept strategy is stored twice. `test/HookSet.test.ts:146-150` expects two
  strategies where `src/HookSet.ts:765-796` leaves three (`HookSet.ReplacedIsNew`). Required modules are
  compared after joining with commas, which misses some changes (`HookSet.RequireSeen`).
- Fingerprint keys are compared after joining them without a separator, so different key sets can pass
  this test and the comparison of values can then fail (`Fingerprints.CompareFails`,
  `Fingerprints.KeysCollide`).
- A pending device is looked up by its own address, so a network bridge never keeps it
  (`Devices.NetworkIsFound`).

## Model

| member | source | states |
|---|---|---|
| Model.RenderInjective | src/Analyzer.ts:346-379 | The three kinds of table keys (signature, class name, text of a node) have distinct texts, and a text determines its key, so structured keys lose nothing. |
| Model.ModelMethod.AddCaller | src/Analyzer.ts:811-814 | A caller is listed once per signature, after the earlier ones. |
| Resolver.InheritedIsNearest | src/Analyzer.ts:137-156 | The inherited method is the first admissible same-named member of the first class, walking up `extends`, that declares one; all nearer classes declare none. |
| Resolver.InheritedFails | src/Analyzer.ts:137-156 | The search fails exactly when no class of the chain declares an admissible member of that name. |
| Resolver.InheritedMeets | src/Analyzer.ts:137-156 | Member by member: the one found has the name and is missing or not private; every same-named member before it in its class, and every one in a nearer class, is private and not missing. |
| Resolver.InheritedNowhere | src/Analyzer.ts:137-156 | The search fails exactly when every same-named member of every class of the chain is private and not missing. |
| Resolver.InheritedIndexed | src/Analyzer.ts:137-156 | An inherited method is a node of the index, of an admissible name, and it is the indexed node of its signature unless that signature was replaced. |
| Resolver.ResolveInheritedMethod | src/Analyzer.ts:137-156 | Returns that member, also where slots are stale; a member that is not missing gets the class where it was found as enclosing class and its former one as declaring class; nothing else changes. |
| Resolver.CreateMissingClass | src/Analyzer.ts:164-204 | Adds one fresh class tagged missing under the name, lists it as missing, and keeps the graph consistent. |
| Resolver.ResolveType | src/Analyzer.ts:266-288 | Returns the class of that name, and creates it as missing exactly when the database has none. |
| Resolver.CreateMissingMethod | src/Analyzer.ts:236-264 | Adds one fresh missing method to its class and to the index, keeps the graph consistent, and the reference then denotes it. |
| Merge.CreateMissingField | src/Analyzer.ts:206-233 | Adds one fresh field to its class, the index and the missing list, and keeps the graph consistent. |
| Resolver.ResolveMethod | src/Analyzer.ts:344-392 | Never fails, also where slots are stale: gives the indexed method, else the inherited one, else a new missing one, static as asked for (with a new missing class where the class is unknown); says exactly what was added, and keeps the graph consistent. An inherited method that is not missing is then declared in the class that enclosed it and enclosed in the class where the search met it; every other method keeps both. The node given is the indexed one of its signature exactly if the reference denoted nothing before, or such a node. |
| Resolver.ResolveTwice | src/Analyzer.ts:137-156 | Resolving the same reference again gives the same node and creates nothing missing; the first call creates something missing exactly when the reference denoted nothing; and an inherited method that is not missing ends with the class where it was met as both its enclosing and its declaring class. |
| Resolver.SlotKeepsLookup | src/Analyzer.ts:366-386 | Storing an inherited method in its slot does not change what the reference denotes. |
| XRef.CallsAre | src/Analyzer.ts:789-808 | The calls of a method are exactly its invoke instructions that are not special, each once and in program order, by their opcode and static flag, of the method that their operand refers to or already is. |
| XRef.MapInvoke | src/Analyzer.ts:800-846 | One invoke instruction that is not special links to its resolved callee by one exact step of the graph (the indexed node, or the inherited one with its slot, or a new missing one with the static flag of the instruction); records one position; and changes callers, call nodes, missing nodes and the classes that methods are bound to by exactly this one call. |
| Steps.StepCurrent | src/Analyzer.ts:344-392 | After the step the callee is the indexed node of its signature if and only if its reference denoted nothing before it, or such a node. |
| Steps.PathAlike | src/Analyzer.ts:344-392 | Along any sequence of calls none of which takes over a slot that was there at the beginning, that can be told for each call from the graph at the beginning. |
| Scenarios.OverwrittenSlot | src/Analyzer.ts:366-386 | Without that proviso it cannot: a call that takes over a slot uncovers an old node in the slot of the superclass, so that another reference, which denoted an indexed node, then denotes an old one. |
| XRef.MapInstructionFrom | src/Analyzer.ts:744-962 | Mapping a method resolves its calls in program order, each in the graph that the former ones left and by its own static flag; links each to a method of the referenced name; adds exactly the sites of its blocks to its uses; and leaves callers, call nodes, missing nodes and bindings as these calls, one after the other, make them. |
| XRef.EnterCalls | src/Analyzer.ts:816-827 | There is one call node for each opcode, caller and callee signature of the log, besides those from before. |
| XRef.MappedMethod | src/Analyzer.ts:800-846 | A method mapped once records, under each signature, exactly the positions of its calls to it, each once and in order, and has an entry exactly for the signatures it calls. |
| XRef.CalledIff | src/Analyzer.ts:811-814 | After logging the calls of a method, a method is in the caller list of a node exactly if it was there, or if it is the one mapped, called that node, and no caller of its signature was listed. |
| XRef.SamePositions | src/Analyzer.ts:800-846 | Mapping a mapped method again finds calls to the same signatures at the same positions. |
| Passes.MappedTimes | src/Analyzer.ts:1343-1356 | In pass 4 over any batch of distinct names an own method is mapped once for its signature, and once more for each slot of the batch that holds it when that slot is visited. |
| Passes.Created | src/Analyzer.ts:344-392 | Each node that the index gains in pass 4 is a missing method made by a call in the code that some method had before the pass: it has the signature that the call refers to, and is static exactly if the call is. |
| Passes.MappedOnceIff | src/Analyzer.ts:1343-1356 | So it is mapped once if and only if no class of the batch holds it in its slot at that visit. |
| Passes.SlotByThenIff | src/Analyzer.ts:1343-1356 | At any point of the pass a class has a slot if and only if it had one before the pass, or an earlier call inherited for it. |
| Passes.OnceBeforeIff | src/Analyzer.ts:1343-1356 | Told before the pass: where every call of what the batch holds is indexed or names no stored class of the batch, an own method is mapped once if and only if no slot of the batch holds it. |
| Passes.FreshExactIff | src/Analyzer.ts:800-846 | Under the same condition an own method that had recorded nothing ends with exactly its calls, each once and in order, if and only if it makes no call or no slot of the batch held it before the pass. |
| XRef.CalledAllIff | src/Analyzer.ts:811-814 | After any sequence of mappings a method is in the caller list of a node exactly if it was, or if no method of its signature was and it is the first of its signature to call that node. |
| Passes.CalleesCurrentIff | src/Analyzer.ts:344-392 | Over a whole pass 4 in which no call takes over a slot that was there before, each logged call ends at the indexed node if and only if its reference denoted, before the pass, such a node or nothing. |
| Passes.SecondTimeCurrent | src/Analyzer.ts:1343-1364 | A method that is mapped again calls indexed nodes only, the second time. |
| Passes.OwnUsesIff | src/Analyzer.ts:811-838 | Told before the pass: an own method of the batch that had recorded nothing, that no list had and whose signature no other node has, is a caller of exactly the methods it uses if and only if it is mapped more than once or none of its calls denoted a replaced node (given that no call left to resolve names a class with a slot, and that its calls of one name agree). |
| Passes.FreshCallers | src/Analyzer.ts:811-838 | In a pass over a valid graph every own method of the batch that had recorded nothing, and that no list had, is a caller of exactly the methods it uses, however often it is mapped. |
| Passes.FreshBatch | src/Analyzer.ts:1340-1381 | A pass over a valid graph leaves exact records (positions, counter, callers) of every fresh method of the batch that no slot held, if no call of what the batch holds is left to resolve in one of its stored classes. |
| XRef.CurrentCallersAreUses | src/Analyzer.ts:811-838 | Where no method has been replaced, that is so for every such method. |
| XRef.MapClass | src/Analyzer.ts:1346-1364 | Pass 4 on one class visits exactly the keys that the class has when its turn comes, in order, and maps what the class holds under each at that moment. |
| XRef.MapBatch | src/Analyzer.ts:1340-1381 | Pass 4 over any batch, on any consistent graph: which method is mapped at each visit, class by class, given the graph by then; how each mapping led from one graph to the next; each mapped method records, besides what it held, exactly its calls, as often as it was mapped; its counter exceeds its entries by as much as before; callers, call nodes, missing nodes and bindings are those from before with all these calls entered in order; and who is a caller of which node afterwards. |
| Merge.NodeIsNoKey | src/Analyzer.ts:1122-1136 | No member is ever stored under the text of a node, so the test for an existing field or method never succeeds, and its update branch is dead. |
| Merge.OverrideField | src/Analyzer.ts:1114-1156 | The field of a new version is stored under its signature, in its class and in the index, whether or not there was one: the branch that compares is never taken. |
| Merge.OverrideMethod | src/Analyzer.ts:1191-1234 | The method of a new version likewise. |
| Merge.StoreClasses | src/Analyzer.ts:1007-1036 | Pass 1 stores the classes whose name is new, keeps the known ones, and returns the names that are overridden. |
| Merge.LinkSuper | src/Analyzer.ts:1080-1088 | A new class gets its superclass linked by name, created as missing only when absent. |
| Merge.OverrideSuper | src/Analyzer.ts:1057-1078 | What becomes of the superclass of an overridden class, including the test that compares the wrong names and the swallowed failure. |
| Merge.AssembleNew | src/Analyzer.ts:1080-1240 | A new class gets as superclass and interfaces the classes of those names, in order; its members stay and enter the indexes, its methods enclosed in it; absent referenced classes are created, empty and missing, and no other class changes. |
| Merge.AssembleOverridden | src/Analyzer.ts:1057-1213 | An overridden class gets the members of the new version over its old ones, keys in front staying in front, enclosed in it and indexed; its interfaces are replaced exactly if their number differs; its superclass as `OverrideSuper` says; and no other class changes. |
| Merge.MergeBatch | src/Analyzer.ts:1002-1272 | Passes 1 and 2 over any batch, into a database with any stale slots: the graphs after each class, the first with the new classes stored, each led to from the one before by exactly that class (`Merges`); superclass and interfaces of each new class are linked in the last one; the indexes agree with all classes except for slots that hold a method replaced before or now, and are the former ones overlaid by the members of the batch; every method of the batch is enclosed in the stored class of its name; exactly the referenced absent classes are created as missing, each once; and whether the graph is fully valid afterwards is told from the state before. |
| Merge.MergedAdds | src/Analyzer.ts:1080-1108 | In the merged graph each new class is as the parser left it, but that superclass and interfaces are the stored classes of those names. |
| Merge.MergedOverrides | src/Analyzer.ts:1057-1078 | And each overridden class is its old version overlaid with the members of the new one, with the superclass and interfaces that it got at its turn; interfaces of another number are the stored classes of the new names. |
| Merge.MergedKeeps | src/Analyzer.ts:1002-1272 | And every class that the batch does not name is as it was, or is new, empty and missing. |
| Merge.IndexComplete | src/Analyzer.ts:1112-1240 | In every class after a merge each member is found under its signature: a declared one as itself, an inherited slot at least as the definition that replaced it. |
| Merge.AllMembersOf | src/Analyzer.ts:1112-1240 | In those overlaid indexes every member of the batch is the entry under its signature. |
| Merge.ValidIff | src/Analyzer.ts:1180-1213 | A consistent graph is valid if and only if every inherited slot holds the indexed node of its signature. |
| Merge.MergedValidIff | src/Analyzer.ts:1180-1213 | For a batch of new nodes the merged graph is valid if and only if, before the merge, every slot held the indexed node, and no slot holds a method of a signature that the batch defines for a known class. |
| Merge.FinalClasses | src/Analyzer.ts:1007-1108 | The final class names are those of the database, of the batch, and of the referenced classes; a class defined on either side is never created as missing. |
| Merge.OrderFree | src/Analyzer.ts:1007-1108 | The referenced names, hence the final class names, do not depend on the order of the batch. |
| Build.BuildModel | src/Analyzer.ts:986-1404 | One build: the graphs of the merge, class by class, and validity, are told from the graph before; pass 4 is a run over the merged graph, on top of the records and caller lists of the merged index, the call nodes from before, the bindings of the merge, and the missing nodes that the merge added; afterwards the graph is consistent but for slots that hold a method replaced before or by this batch, and valid if the merged one was. |
| Build.BuildRun | src/Analyzer.ts:1872-1967 | Over any run of builds into one database, the indexes agree with the classes but for inherited slots that hold a method which some batch replaced, given the graph when it came; and in full after a run from a valid graph in which no batch replaces a method that a slot holds. |
| Build.ValidBuild | src/Analyzer.ts:986-1404 | A build into a valid graph that replaces no method which a slot holds leaves a valid graph. |
| Scenarios.SlotScenario | src/Analyzer.ts:986-1404 | From the empty database, a class with a method that calls itself through a subclass is built: its one call is recorded twice. Then another version of the class is built, with a method that calls through a further subclass: the slot of the subclass keeps the old method, the graph is not valid, and the caller uses a method whose indexed node does not list it. |
| Hierarchy.AncestorsChain | src/Analyzer.ts:1293-1317 | The ancestors of a class are linked one to the next by `extends`, start at the class, stop only where no superclass is linked, and never repeat. |
| Hierarchy.CollectSupers | src/Analyzer.ts:1293-1317 | The loop of pass 3 ends and stores exactly these ancestors; nothing for a superclass that is still a name. |
| Packages.AddKeeps | src/Analyzer.ts:586-637 | Creating a package keeps the forest well formed: parents exist, and a package with several segments is listed once, by its direct parent only. |
| Packages.AddNames | src/Analyzer.ts:586-637 | The packages after the call are the former ones and every dotted prefix of the name. |
| Packages.AddIdempotent | src/Analyzer.ts:586-637 | Creating an existing package, or the same one twice, adds no package and no link. |
| Packages.RunForest | src/Analyzer.ts:586-637 | After any sequence of creations the packages are exactly the prefixes of the names, in a well-formed forest. |
| Packages.RegisterMissingKeeps | src/Analyzer.ts:185-201 | Registering the package of a missing class keeps the forest well formed if and only if the package exists or has one segment. |
| Packages.RunWellFormedIff | src/Analyzer.ts:185-201 | A run of creations, filings and registrations leaves a well-formed forest if and only if each registration met that condition when it came; else some package stays an orphan, whatever follows. |
| Packages.RegisteredOrphan | src/Analyzer.ts:185-201 | An input: `a.b` registered first stays an orphan, also when `a.b.c` is created later. |
| Packages.AppendClassKeeps | src/Analyzer.ts:1283-1289 | Appending a class to its package disturbs no link between packages. |
| Packages.FiledLast | src/Analyzer.ts:1283-1289 | A filed class is the last child of its package, and the only one of a new package; all lists of children grow at their end only, by new packages. |
| Packages.PackageStore.CreatePackage | src/Analyzer.ts:586-637 | The loop over the segments computes that specification on the package nodes. |
| Packages.PackageStore.FileClass | src/Analyzer.ts:1277-1289 | Pass 3 creates the package of a class if needed and appends the class to it. |
| Tagging.CountIsMeeting | src/Analyzer.ts:2210-2234 | The count of `tagIf` is never below the number of nodes that met the condition, and equal to it if and only if a tag that is added ends the condition, or no node that meets it is stored twice. |
| Tagging.TwiceCounted | src/Analyzer.ts:2210-2234 | A node stored twice in a collection is counted twice by the static pass, although one node meets its condition. |
| Tagging.CountsAreMeeting | src/Analyzer.ts:2186-2200 | Each of the six counts of `tagAllIf` is the number of nodes of its collection that met the condition at the start if and only if, where the tags end the condition, none of these is in an earlier collection, and elsewhere, none of them is stored twice in it. |
| Tagging.TaggedAllIs | src/Analyzer.ts:2186-2200 | A node in any of the collections gets the tags exactly if it met the condition at the start. |
| Tagging.PassTags | src/DexcaliburProject.ts:2644-2781 | The same of the passes that `FullScan` is made of. |
| Tagging.NodeStore.TagIf | src/Analyzer.ts:2210-2234 | The loop, in both its forms, computes that pass over one collection and its count. |
| Tagging.NodeStore.TagAllIf | src/Analyzer.ts:2186-2200 | The six calls compute the pass over all collections and the six counts. |
| Tagging.NodeStore.DoPass | src/DexcaliburProject.ts:2644-2781 | Which nodes get which tags in each pass: static for those not internal; static for strings that an internal node uses; mixed and static, or dynamic and the tag of its origin, for those neither internal nor static; no other node changes. |
| Tagging.PassSettles | src/DexcaliburProject.ts:2644-2706 | After each pass every visited node has one of the tags that the pass is meant to guarantee. |
| Tagging.FullScan | src/DexcaliburProject.ts:2644-2781 | Whatever tags nodes have and whenever they arrive between passes: in the end every node is internal, static or dynamic. A node is mixed exactly if others made it so or it was stored, neither internal nor static, before the mixed pass; static exactly if others or one of the first three passes made it so; dynamic from the passes only if it came after the mixed one. So no node has both the mixed and the dynamic tag unless others gave it one of them, nodes of the start get neither, and internal nodes get nothing but the static tag of strings. |
| Fingerprints.CompareIsEquality | src/Device.ts:1562-1580 | On fingerprints whose joined keys do not collide the test is equality, hence an equivalence. |
| Fingerprints.CompareYes | src/Device.ts:1562-1580 | On any two fingerprints the test answers yes if and only if they are equal but for an entry under the empty key that only the second may have. |
| Fingerprints.CompareFails | src/Device.ts:1562-1580 | The test fails if and only if the joined keys agree and the first key of the device that the other fingerprint lacks or values differently is one that it lacks. |
| Fingerprints.KeysCollide | src/Device.ts:1562-1580 | An input: it fails on the keys `a`, `bc` against `ab`, `c`, whatever the values. |
| Fingerprints.EqualsUIDFP | src/Device.ts:1562-1580 | The loop over the sorted keys computes that comparison, including where hashing a missing value fails. |
| Devices.Device.Update | src/Device.ts:763-793 | A device takes over the reported info and the bridges name by name, and the id if it had none; it keeps its uid, fingerprint, known id and other bridges. |
| Devices.Device.Disconnect | src/Device.ts:680-689 | All bridges go down; nothing else but the connected flag changes. |
| Devices.Device.IsConnected | src/Device.ts:655-661 | A device is connected exactly when some bridge is up. |
| Devices.DeviceManager.SearchDeviceByUidFP | src/DeviceManager.ts:926-934 | Finds exactly the devices with an equal fingerprint, each once, or fails exactly when some comparison fails. |
| Devices.DeviceManager.AddDevice | src/DeviceManager.ts:399-410 | The device gets an unused uid and is stored under it. |
| Devices.DeviceManager.DisconnectAll | src/DeviceManager.ts:351-355 | Every registered device is disconnected. |
| Devices.DeviceManager.UpdateDeviceList | src/DeviceManager.ts:437-488 | The loops compute the fold over the candidates and the pruning, and count the connected candidates; they fail exactly when a comparison on the way fails. |
| Devices.DeviceManager.Prune | src/DeviceManager.ts:462-485 | Exactly the devices are kept that are not pending or have a bridge under which no device is found. |
| Devices.ScannedKeeps | src/DeviceManager.ts:437-459 | At every point of a scan: each key is its device's uid, there is one device per fingerprint, namely per known or listed one, no device and no known id is lost, and the next comparison does not fail. |
| Devices.UpdateKeeps | src/DeviceManager.ts:437-488 | The same after pruning, for every device whose id is known and not pending. |
| Devices.RunKeeps | src/DeviceManager.ts:437-488 | Over any run of scans and disconnections with comparable fingerprints the registry stays well formed and a device with a known id keeps its uid, id and fingerprint. |
| Devices.RunUnmatched | src/DeviceManager.ts:437-488 | So it does, whatever the fingerprints, over any run in which no comparison fails, from a registry in which no device matches another; no two devices ever match. |
| Devices.RunFromEmpty | src/DeviceManager.ts:437-488 | In particular from the empty registry there is one device for each fingerprint. |
| Devices.ScannedBridges | src/Device.ts:763-793 | Each device ends up with its former bridges overlaid by those of its candidates, in order. |
| Devices.ScannedTells | src/Device.ts:763-793 | After any part of a scan a device has the info of its last candidate; its former id, or else the first one that a candidate knows; and stays as it was without a candidate. |
| Devices.ConnectedAfterScan | src/DeviceManager.ts:351-459 | After `disconnectAll` and a scan, a registered device is connected if and only if, for some bridge name, the last candidate of its fingerprint that lists the name has that bridge up. |
| Devices.ConnectedIffListed | src/DeviceManager.ts:351-459 | When candidates of one device use distinct bridge names: connected if and only if some candidate of its fingerprint is. |
| Devices.NetworkIsFound | src/DeviceManager.ts:466-471 | The search by address always finds the device itself. |
| HookSession.LogIsAccepted | src/HookSession.ts:346-451 | In every run the log holds one entry for each accepted operation, in order, and the offset is its length. |
| HookSession.MessagesTell | src/HookSession.ts:383-467 | In every run the message logged for a push has its place as uid and id, and its hook identifier, data, fragment, runtime type and kind (that of the fragment, else `*`) are told from the raw message and the hooks; so has every hook message, if no other event handed in is one. |
| HookSession.StepIs | src/HookSession.ts:346-525 | Which pushes change nothing, and what any other push and any extra event leave: log, offset, batch and saved batches. |
| HookSession.BatchesArePushed | src/HookSession.ts:700-714 | In every run the saved batches followed by the waiting one are the stored hook messages in order; saved batches are full; there are floor((k-1)/100) saves after k messages. |
| HookSession.SaveCount | src/HookSession.ts:700-714 | The number of saves for any batch size. |
| HookSession.PageIsSlice | src/HookSession.ts:551-561 | A page is the part of the log between its bounds, also where these lie outside of it. |
| HookSession.PagesAreLog | src/HookSession.ts:551-561 | Consecutive pages of any size concatenate to the log. |
| HookSession.PagesStay | src/HookSession.ts:551-561 | The log only grows, and a page within it stays as it was read. |
| HookSession.Session.PushMessage | src/HookSession.ts:383-525 | One push: exactly when it fails and how, which event results (place, offset, kind, type, hook, fragment, data), fuzzing messages included, and the whole new state; a failure or a fuzzing message changes nothing. |
| HookSession.Session.PushExtraRuntimeEvent | src/HookSession.ts:346-376 | An extra event is logged but not batched, and moves the offset by one; a missing one changes nothing. |
| HookSession.Session.BatchSave | src/HookSession.ts:700-714 | A full batch is handed over when the next event comes, for any batch size. |
| HookSession.Session.GetMessages | src/HookSession.ts:551-561 | Returns the existing messages at the places asked for, also for negative offsets and sizes. |
| HookSet.UndoShare | src/HookSet.ts:648-682 | Deleting `added`, restoring `modified` and adding `removed` again turns the new shared values into the old ones, null values included. |
| HookSet.DiffShare | src/HookSet.ts:651-670 | The two loops list exactly the keys that are gone or null, changed, and new or null before, each once and with its old (or new) value, in whatever order keys come. |
| HookSet.UndoRequire | src/HookSet.ts:684-714 | When a change of the required modules is recorded, the old set is the new one minus `added` plus `removed`. |
| HookSet.RequireSeen | src/HookSet.ts:684-714 | A change is recorded if and only if the joined lists differ and so do the sets. |
| HookSet.RequireMissed | src/HookSet.ts:688 | For names without a comma, different lists join alike only for no module against one empty name. |
| HookSet.MatchedCount | src/HookSet.ts:765-796 | How often an old strategy is recorded as removed in the second loop, with or without distinct names. |
| HookSet.GoneCount | src/HookSet.ts:745-762 | The first loop records exactly the strategies whose name is gone; the same function gives `added`. |
| HookSet.RemovedIsOld | src/HookSet.ts:745-796 | In REPLACE mode with distinct names `removed` is a permutation of the old strategies. |
| HookSet.MergedOptions | src/hook/HookStrategy.ts:600-626 | In a merge of two strategies the new value of an option wins, unless it is a known option that the old strategy lacks, which is then not set; options of the old one alone stay. |
| HookSet.ReplacedNames | src/HookSet.ts:765-796 | The names after a replacement are the new ones. |
| HookSet.ReplacedIsNew | src/HookSet.ts:765-796 | The new list is taken over as it is if and only if no name is kept; each kept name makes it longer by one. |
| HookSet.ReplacedAt | src/HookSet.ts:765-796 | In REPLACE mode each new strategy is stored in order, twice in a row if its name is kept. |
| HookSet.PreservedNames | src/HookSet.ts:765-796 | In PRESERVATIVE mode names are the new ones and each kept name is stored twice as well. |
| HookSet.PreservedAt | src/HookSet.ts:765-796 | In PRESERVATIVE mode each new strategy is stored in order; if its name is kept, the merge with the old one of that name comes before it and is recorded as modified. |
| HookSet.PreservedAdded | src/HookSet.ts:765-796 | The others are recorded as added. |
| HookSet.UpgradeUndone | src/HookSet.ts:627-805 | The change record of any successful upgrade leads back to the old options. |
| HookSet.HookSetOptions.UpgradeOptions | src/HookSet.ts:627-805 | The whole new state and change record; it fails exactly when an upgrade that preserves would lose a strategy, and then the other options have been overwritten. |
| Templates.LiteralIff | src/Hook.ts:577-581 | A value without '@' replaces a token literally if and only if it holds no replacement pattern. |
| Templates.ReplaceFalls | src/Hook.ts:577-581 | Each replacement by a plain value lowers the number of '@', so the loops end on any script. |
| Templates.SelfReferenceLoops | src/Hook.ts:577-581 | With a value that holds its own token the loop never ends. |
| Templates.ReplaceIff | src/Hook.ts:577-581 | One replacement fills the first token of its name if and only if no literal between two earlier tokens reads like the name. |
| Templates.LoopsSubstitute | src/Hook.ts:829-833 | On clean templates the loops, in any order of the tokens, are one simultaneous substitution. |
| Templates.LoopSubstitutesIff | src/HookPrologue.ts:91-95 | The loop for one token is the simultaneous substitution if and only if the template is clean. |
| Templates.LoopsSubstituteIff | src/Hook.ts:829-833 | Where no known name goes on from the name of a token, the loops, in any order of the tokens, are the simultaneous substitution if and only if each loop in turn finds nothing but tokens in the template that the loops before it have filled. |
| Templates.DunderLoopsIff | src/Hook.ts:736-764 | The same for names of the form `__CTX__`, with no further proviso. |
| Templates.LoopsMisread | src/Hook.ts:736-833 | An input: with the tokens of a hook, in the order of their loops and with any values, `@@__HOOK_ID__@@__FQCN__@@__CTX__@@` does not become the substitution. |
| Templates.LoopsMended | src/Hook.ts:829-833 | Without the proviso on the names the condition is not necessary. |
| Templates.ReplaceTokens | src/Hook.ts:874-878 | The do/while loops compute the loops of the specification. |
| Templates.ReplaceTokensFound | src/Hook.ts:929-933 | So do the while loops of custom scripts. |
| Templates.HookPrologue.BuildScript | src/HookPrologue.ts:85-99 | The prologue stores and returns its expanded script, in which the token no longer occurs. |
| ArgsHelper.GetLetterFromType | src/Hook.ts:36-41 | The loop over the words finds the letter of a primitive word, and nothing for other names. |
| ArgsHelper.LetterIs | src/CoreConst.ts:152-168 | Which word has which letter; other names have none. |
| ArgsHelper.LetterInjective | src/CoreConst.ts:152-168 | A letter stands for one word. |
| ArgsHelper.ListsArePerArgument | src/Hook.ts:640-702 | Cut at commas, the signature and the parameter list have one item per argument: its type, and `arg` with its number. |
| ArgsHelper.SignatureDetermines | src/Hook.ts:666-690 | The overload signature determines the types of the arguments. |
| ArgsHelper.NamesDistinct | src/Hook.ts:660 | No two parameters share a name. |
| ArgsHelper.DecimalShows | src/Hook.ts:660 | The number in a parameter name is its index, in decimal. |
| ArgsHelper.DataAt | src/Hook.ts:674-690 | The logged data lists exactly the basic arguments and those of type `java.lang.String` or `java.lang.CharSequence`, each as `argN:argN`. |
| ArgsHelper.MakeArgsHelper | src/Hook.ts:640-702 | The loop builds these lists, for any arguments, known or not. |
| CallerGraph.Enumerates | src/Graph.ts:88-105 | A place of the tree holds a method exactly when the chain chosen by its address does not return to the start, and a loop mark exactly when the chain returns with its last call; the depth is the length of the chain. |
| CallerGraph.WalkHasAddress | src/Graph.ts:88-105 | Every chain of callers has an address, so the tree misses none. |
| CallerGraph.FiniteIff | src/Graph.ts:88-105 | A finite caller tree exists if and only if every cycle the start can reach passes through it. |
| CallerGraph.AllCyclesPass | src/Graph.ts:88-105 | That holds when every cycle of the graph passes through the start. |
| CallerGraph.CallerTree | src/Graph.ts:88-105 | Under that condition the recursion ends, with the tree that lists below each method its callers in order. |
| ClassTree.InsertLeaves | src/FridaGenerator.ts:26-36 | An insertion fails exactly when a name is in the way; else it puts the name at its path, loses what was below, and keeps every other name in place. |
| ClassTree.BuildFails | src/FridaGenerator.ts:26-36 | Building fails if and only if a name comes after one of its dot-prefixes. |
| ClassTree.ExactIff | src/FridaGenerator.ts:26-36 | The leaves are exactly the names, each at its own path, if and only if no name is a dot-prefix of another. |
| ClassTree.PrintInjective | src/FridaGenerator.ts:39-50 | The printer is injective on trees of safe keys and names. |
| ClassTree.ScriptReads | src/FridaGenerator.ts:39-74 | A reader of the script format reads the script of a tree of safe keys and names back as that tree. |
| ClassTree.ScriptShows | src/FridaGenerator.ts:26-74 | So the script for names none of which is a dot-prefix of another is read back as a tree with exactly these names, each at its own path. |
| ClassTree.ScriptDetermines | src/FridaGenerator.ts:64-74 | The generated script determines the set of class names. |
| ClassTree.MakeTree | src/FridaGenerator.ts:26-36 | The nested objects, filled in place, show the tree after that insertion. |
| ClassTree.Tree2Str | src/FridaGenerator.ts:39-50 | The recursive printer computes the text of the tree. |
| ClassTree.FridaGenerator.Class | src/FridaGenerator.ts:64-74 | Stores the script for the class nodes of a result, or fails and leaves the former script. |
| Bus.Delivery | src/Bus.ts:352-384 | In every history a send is swallowed if and only if `prevent` came last on its topic among prevent, unprevent and send; else it reaches each earlier subscription of its topic once, in order. |
| Bus.SwallowedPaid | src/Bus.ts:205-220 | In every history the swallowed sends of a topic never outnumber its calls to `prevent`. |
| Bus.Independent | src/Bus.ts:205-384 | Erasing everything done to other topics changes no outcome of a topic. |
| Bus.ListenersAreSubscribed | src/Bus.ts:263-326 | The listeners of a topic are its earlier subscriptions, in order. |
| Bus.EventBus.PreventTopic | src/Bus.ts:205-208 | Suppresses the next event of the topic. |
| Bus.EventBus.UnpreventTopic | src/Bus.ts:217-220 | Lifts the suppression. |
| Bus.EventBus.SubscribeTo | src/Bus.ts:263-292 | Subscribes a listener to each of the topics, in order. |
| Bus.EventBus.SendEvent | src/Bus.ts:352-384 | Calls the listeners or swallows the event, and clears the suppression it used up. |

## Left out

- Resolver.ResolveMethod: takes the hierarchy as acyclic (a ghost rank) and method keys as structured values; tags, locations and events are not modelled.
- Resolver.CreateMissingClass: the package part is modelled apart, in `Packages.RegisterMissing`.
- XRef.MapBatch: field, string, type and catch instructions are not modelled; the keys of a class are those it has when its turn comes.
- Passes.OnceBeforeIff: where a call is left to resolve in a stored class of the batch, the number of mappings depends on the order of the calls, and is told from the graph at each visit (`Passes.MappedTimes`).
- Passes.OwnUsesIff: calls of one name that denote partly replaced nodes are excepted, because one of them may list the method where the other does not.
- Merge.MergeBatch: inherited slots that hold an overridden method are excepted, because the code leaves them stale.
- Build.BuildRun: takes the parsed classes of all batches to be different objects; pass 3 is modelled apart, in `Hierarchy` and `Packages`.
- Templates.LoopsSubstitute: sufficient only, on a condition that does not depend on the order of the loops; the exact one is `Templates.LoopsSubstituteIff`.
- Devices.DeviceManager.UpdateDeviceList: bridges are values, so an up flag shared between a candidate and a known device is not modelled; drawn identifiers are inputs, unused and distinct.
- Devices.UpdateKeeps: says nothing about devices whose id is still pending.
- HookSet.HookSetOptions.UpgradeOptions: strategies are values, so a merged strategy that a repeated new name changes again is shown as it was when stored; a null option and an absent one are the same. SHA-256 is taken as injective.
- HookSession.Session.PushMessage: takes the hook to have a target and the calls to sockets, bus and database to return.
- ClassTree.MakeTree: inherited object properties and the enumeration order of numeric keys are not modelled.
- Bus.EventBus.SendEvent: listeners do not re-enter the bus, and the suppression of a single listener is not modelled.
- Field resolution by inheritance (`src/Analyzer.ts:114-134`), the lazy caller tree and other code whose text contradicts its purpose.
- Parsing of bytecode and device output, file system, network, database, shell and instrumentation calls.
- Boot, project life cycle, access control, serialisation, getters.
