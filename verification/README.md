# Asset content cache and output-before-AJAX-continuation policy

A Dafny model of two small stateful components of the FubuMVC web framework,
built from what their tests assert:

- **The asset content cache** (`output_cache.dfy`, `asset_content_cache.dfy`).
  The output cache is a lazy keyed store: `Retrieve(key, supplier)` serves the
  recorded output stored under a resource hash, or calls the supplier once,
  stores its output and returns it. The asset content cache keeps a
  many-to-many link table between asset files and resource hashes
  (`LinkFilesToResource`). `Changed(file)` ejects exactly the hashes linked to
  that file, from the output cache and from the headers cache
  (`IHeadersCache.Eject`). `FlushAll()` ejects every linked hash from the
  headers cache and clears the output cache.
  `CacheState`, `Event` and `Step` give the whole system of the three caches
  as values. The class `AssetContentCache` is proved against `Step` through
  its abstraction `State()`. The lemmas about `Step` and `Run` state the
  eviction properties. That includes the compute-once property: while nothing
  invalidates a hash, its supplier is never called again.
  `asset_cache_scenarios.dfy` replays the tests against the class contracts.
- **The behavior chain and the output-before-AJAX-continuation policy**
  (`behavior_chain.dfy`, `output_before_ajax_continuation.dfy`). A behavior
  chain is an ordered sequence of node objects. `AddToEnd` appends a node.
  `First` and `Last` read the ends of the chain. On an empty chain they
  answer `None`; that stands for the exception `Enumerable.First` and
  `Enumerable.Last` (the test imports `System.Linq`) raise on an empty
  sequence. `Modify` moves the chain's own output node in front of the
  first action call. On `[action, output]` this gives `[output, action]`.
  `Modify` moves node objects and never copies them.

Modelling choices:

- Outputs (`RecordedOutput`) and behavior nodes are objects compared by
  identity, the way the tests compare them with `ShouldBeTheSameAs`.
- A supplier either yields an output (`Supplies`) or fails (`Fails`). The
  tests' "do not call me" supplier fails when called. So a `Retrieve` with
  `Fails` that answers `Ok` shows that the supplier was not called. The ghost
  log `OutputCache.SupplierCalls` also records every call.
- A failing supplier propagates its failure as `Err` and stores nothing, so a
  later `Retrieve` calls a supplier again.
- The headers cache is seen only through `Eject`. Its ghost log `Ejections`
  records the calls, as the tests' mock does.
- The tests do not settle whether `Changed` removes the changed file's links.
  This model keeps them: `Changed` leaves the link table as it was. A second
  `Changed` of the same file ejects the same hashes again, which is harmless.
  No lemma depends on this choice except `Changed`'s own frame.
- The tests assert that each linked hash reaches the headers cache's `Eject`
  (`AssertWasCalled`, which demands at least one call). The model ejects each
  linked hash exactly once per `Changed` or `FlushAll`; an implementation that
  walks the link table link by link could eject a hash several times.
- `FlushAll` keeps the link table, as `Changed` does; the tests do not settle
  this either. Only `FlushAllIdempotent`'s "ejects the same hashes again"
  depends on it: were the links cleared, a second `FlushAll` would eject
  nothing.
- `Modify` puts the output node right before the *first* action call, as the
  test name `reorders_output_node_before_the_first_action` says. On the
  two-node chain of the tests this is "output first, action last". A chain
  with no action call is left unchanged.
- `AddToEnd` of a node that already is in the chain first detaches it, so a
  node never has two positions.
- The policy selects a chain by the return type of its first action call
  (`ChainResourceType`). Only `AjaxContinuation` chains are rewritten.

## Model

| member | source | states |
|---|---|---|
| OutputCaching.RetrieveContract | src/FubuMVC.Tests/Assets/Caching/AssetContentCacheTester.cs:42-47 | a hit serves the stored output and never calls the supplier; a miss calls it; an `Ok` answer is what is now stored; a failing supplier stores nothing; no other key changes |
| OutputCaching.RetrieveMissStoresSupplied | src/FubuMVC.Tests/Assets/Caching/AssetContentCacheTester.cs:129-131 | `Retrieve` on a key with no entry returns the supplier's output and stores it under that key |
| OutputCaching.RetrieveAgainHits | src/FubuMVC.Tests/Assets/Caching/AssetContentCacheTester.cs:139-142 | after a successful `Retrieve`, a later `Retrieve` of that key, with any supplier, answers the same output without calling its supplier |
| OutputCaching.OutputCache.constructor | src/FubuMVC.Tests/Assets/Caching/AssetContentCacheTester.cs:60 | a new output cache is empty and has called no supplier |
| OutputCaching.OutputCache.Retrieve | src/FubuMVC.Tests/Assets/Caching/AssetContentCacheTester.cs:140-152 | the answer and the new entries are those of `Retrieved`; the supplier log grows by the key exactly when the supplier was called |
| OutputCaching.OutputCache.Eject | src/FubuMVC.Tests/Assets/Caching/AssetContentCacheTester.cs:144-150 | removes the entry under the key (a missing key is no error); no supplier is called |
| OutputCaching.OutputCache.FlushAll | src/FubuMVC.Tests/Assets/Caching/AssetContentCacheTester.cs:71 | removes every entry |
| OutputCaching.HeadersCache.constructor | src/FubuMVC.Tests/Assets/Caching/AssetContentCacheTester.cs:61 | a new headers cache has received no `Eject` |
| OutputCaching.HeadersCache.Eject | src/FubuMVC.Tests/Assets/Caching/AssetContentCacheTester.cs:83-85 | records one `Eject` of the key |
| AssetCaching.LinksAccumulate | src/FubuMVC.Tests/Assets/Caching/AssetContentCacheTester.cs:109-110 | `LinkFilesToResource` only adds links: a link is present afterwards exactly when it was before or is one of the new ones, and a file's hashes grow by the new hash only if the file was given |
| AssetCaching.AllHashesAccumulate | src/FubuMVC.Tests/Assets/Caching/AssetContentCacheTester.cs:77-79 | the set of linked hashes grows by the new hash exactly when it was given at least one file |
| AssetCaching.ChangedEvictsExactlyLinked | src/FubuMVC.Tests/Assets/Caching/AssetContentCacheTester.cs:144-157 | after `Changed(f)` a hash keeps its output exactly when it had one and is not linked to `f`, with the same value; each hash linked to `f` is ejected from the headers cache (once, by the model's choice; the test asks for at least once), every other hash not at all; links are unchanged |
| AssetCaching.FlushAllEjectsEveryLinkedHash | src/FubuMVC.Tests/Assets/Caching/AssetContentCacheTester.cs:71-85 | `FlushAll` removes every output and ejects each hash that has any link, including one linked to a single file (the test asks for at least one `Eject` per hash; the model issues exactly one), and keeps the link table |
| AssetCaching.FlushAllIdempotent | src/FubuMVC.Tests/Assets/Caching/AssetContentCacheTester.cs:71-85 | a second `FlushAll` changes no output and no link; because the model keeps the link table across `FlushAll`, it ejects the same hashes as the first |
| AssetCaching.ChangedTwiceEvictsNothingMore | src/FubuMVC.Tests/Assets/Caching/AssetContentCacheTester.cs:96-100 | changing the same file twice evicts no output that the first change left |
| AssetCaching.SupplierCallsGrow | src/FubuMVC.Tests/Assets/Caching/AssetContentCacheTester.cs:133-142 | running events only appends to the log of supplier calls |
| AssetCaching.CachedOutputIsServed | src/FubuMVC.Tests/Assets/Caching/AssetContentCacheTester.cs:140-157 | while no event invalidates a cached hash, its output stays, every `Retrieve` of it answers that output, and no supplier is called for it |
| AssetCaching.RepopulatedOutputIsServed | src/FubuMVC.Tests/Assets/Caching/AssetContentCacheTester.cs:144-152 | after `Changed(f)` evicts a hash linked to `f`, the next `Retrieve` answers the new supplier's output, and later `Retrieve`s answer it again until something invalidates the hash |
| AssetCaching.AssetContentCache.constructor | src/FubuMVC.Tests/Assets/Caching/AssetContentCacheTester.cs:63 | the cache works over the given headers and output caches and starts with no links |
| AssetCaching.AssetContentCache.LinkFilesToResource | src/FubuMVC.Tests/Assets/Caching/AssetContentCacheTester.cs:125-127 | the state after the call is `Step(LinkFiles)` of the state before: the links accumulate and nothing else changes |
| AssetCaching.AssetContentCache.Changed | src/FubuMVC.Tests/Assets/Caching/AssetContentCacheTester.cs:94-100 | the state after the call is `Step(Changed(file))` of the state before; the headers log grows by each linked hash (once each, by the model's choice) |
| AssetCaching.AssetContentCache.FlushAll | src/FubuMVC.Tests/Assets/Caching/AssetContentCacheTester.cs:77-85 | the state after the call is `Step(FlushAll)` of the state before; the headers log grows by each linked hash (once each, by the model's choice) and the outputs are cleared |
| AssetCaching.AssetContentCache.EjectEach | src/FubuMVC.Tests/Assets/Caching/AssetContentCacheTester.cs:96-98 | ejects each given hash exactly once from the headers cache and, when asked, from the output cache; nothing else changes |
| AssetCaching.RetrieveOutput | src/FubuMVC.Tests/Assets/Caching/AssetContentCacheTester.cs:42-47 | a `Retrieve` on the output cache behind an asset content cache moves the whole system's state by the `Retrieve` event of `Step` and answers what `Reply` gives, which ties `Run`, `CachedOutputIsServed` and `RepopulatedOutputIsServed` to the classes |
| AssetCacheScenarios.FlushAllEjectsAllHeaders | src/FubuMVC.Tests/Assets/Caching/AssetContentCacheTester.cs:70-86 | after linking three hashes and `FlushAll`, each of the three hashes reached the headers cache's `Eject` (in the model exactly once each) and the output cache is empty |
| AssetCacheScenarios.ChangedEjectsHeaders | src/FubuMVC.Tests/Assets/Caching/AssetContentCacheTester.cs:103-119 | `Changed(file1)` then `Changed(file2)` ejects both hashes from the headers cache; the second `Changed` raises no error |
| AssetCacheScenarios.LinkStoreAndServe | src/FubuMVC.Tests/Assets/Caching/AssetContentCacheTester.cs:125-142 | after the links and the first pass, each resource's first output is stored and the second pass answers them without calling a supplier |
| AssetCacheScenarios.RetrieveAfterChange | src/FubuMVC.Tests/Assets/Caching/AssetContentCacheTester.cs:146-157 | with only resource3 cached, resource1 is recomputed once and then served, resource2 is recomputed, resource3 is served without a supplier call |
| AssetCacheScenarios.LinkFilesThenClearCache | src/FubuMVC.Tests/Assets/Caching/AssetContentCacheTester.cs:122-158 | the whole scenario answers, in order, the three first outputs, then the new output of resource1 three times, the new output of resource2, and the first output of resource3 |
| BehaviorChains.FirstCallIndex | src/FubuMVC.Tests/Registration/OutputBeforeAjaxContinuationPolicyTester.cs:17 | `None` exactly when the chain has no action call; otherwise an index holding an action call with no action call before it |
| BehaviorChains.WithoutMultiset | src/FubuMVC.Tests/Registration/OutputBeforeAjaxContinuationPolicyTester.cs:39-40 | detaching a node removes every copy of it and keeps the multiplicity of every other node |
| BehaviorChains.BehaviorNode.constructor | src/FubuMVC.Tests/Registration/OutputBeforeAjaxContinuationPolicyTester.cs:33 | a new node has the given kind |
| BehaviorChains.BehaviorChain.constructor | src/FubuMVC.Tests/Registration/OutputBeforeAjaxContinuationPolicyTester.cs:32 | a new chain is empty and owns a fresh output node |
| BehaviorChains.BehaviorChain.AddToEnd | src/FubuMVC.Tests/Registration/OutputBeforeAjaxContinuationPolicyTester.cs:34-35 | the node becomes the last node (`Last()` answers it) and every other node keeps its order; the chain stays free of duplicates |
| BehaviorChains.BehaviorChain.First | src/FubuMVC.Tests/Registration/OutputBeforeAjaxContinuationPolicyTester.cs:25 | a non-empty chain begins with the node answered; `None` exactly on an empty chain, standing for the exception `Enumerable.First` raises there |
| BehaviorChains.BehaviorChain.Last | src/FubuMVC.Tests/Registration/OutputBeforeAjaxContinuationPolicyTester.cs:26 | a non-empty chain ends with the node answered; `None` exactly on an empty chain, standing for the exception `Enumerable.Last` raises there |
| AjaxContinuationPolicy.ChainResourceType | src/FubuMVC.Tests/Registration/OutputBeforeAjaxContinuationPolicyTester.cs:45-48 | `None` exactly when the chain has no action call; otherwise the return type of an action call with no action call before it |
| AjaxContinuationPolicy.OutputPrecedesFirstCall | src/FubuMVC.Tests/Registration/OutputBeforeAjaxContinuationPolicyTester.cs:17 | in a chain with an action call, after `Modify` the output node stands immediately before the first action call and all other nodes keep their relative order |
| AjaxContinuationPolicy.NoCallNoChange | src/FubuMVC.Tests/Registration/OutputBeforeAjaxContinuationPolicyTester.cs:37 | a chain without an action call is left unchanged |
| AjaxContinuationPolicy.ModifyPermutes | src/FubuMVC.Tests/Registration/OutputBeforeAjaxContinuationPolicyTester.cs:39-40 | when the output node is in the chain, `Modify` yields a permutation of the same node objects, still without duplicates |
| AjaxContinuationPolicy.ActionThenOutputIsSwapped | src/FubuMVC.Tests/Registration/OutputBeforeAjaxContinuationPolicyTester.cs:34-40 | `Modify` turns `[action, output]` into `[output, action]` |
| AjaxContinuationPolicy.ModifyIdempotent | src/FubuMVC.Tests/Registration/OutputBeforeAjaxContinuationPolicyTester.cs:37 | applying `Modify` a second time changes nothing |
| AjaxContinuationPolicy.Modify | src/FubuMVC.Tests/Registration/OutputBeforeAjaxContinuationPolicyTester.cs:37 | the new node order is `OutputBeforeFirstCall` of the old one; the chain stays free of duplicates |
| AjaxContinuationPolicy.Apply | src/FubuMVC.Tests/Registration/OutputBeforeAjaxContinuationPolicyTester.cs:43-48 | a chain whose action returns an AJAX continuation is rewritten by `Modify`; any other chain is unchanged |
| AjaxContinuationPolicy.BuildChainFor | src/FubuMVC.Tests/Registration/OutputBeforeAjaxContinuationPolicyTester.cs:17-27 | for an action returning an AJAX continuation the built chain is `[output, action]`, so it starts with an output node and ends with an action call; for any other action it is `[action, output]` |
| AjaxContinuationPolicy.ModifiesAChain | src/FubuMVC.Tests/Registration/OutputBeforeAjaxContinuationPolicyTester.cs:30-41 | after adding the action, then the chain's output, then `Modify`, the first node is the chain's own output node and the last is the action |

## Left out

- The implementations of `OutputCache`, `AssetContentCache` and `OutputBeforeAjaxContinuationPolicy` are not part of this model. Their behaviour is taken from the tests in `AssetContentCacheTester.cs` and `OutputBeforeAjaxContinuationPolicyTester.cs`.
- Concurrent access to the caches (locking, compute-once under threads): the tests are single-threaded.
- Body, header and ETag contents of recorded outputs: outputs are opaque objects without fields, compared by identity.
- The headers cache's storage of header sets: only its `Eject` calls are modelled, as a ghost log.
- The order in which `Changed` and `FlushAll` eject hashes: the model walks a set, so no order is stated, and the number of `Eject` calls per hash is the model's choice of one (see above).
- `BehaviorGraph.BuildFrom`, reflection over controller types, content negotiation and formatters: `BuildChainFor` models only the node order the graph builder produces for one action and the policy step.
- The chain's linked-list representation (previous/next pointers): the node order is a sequence field.
- The fluent registration DSL (`ViewExpression.cs`) and the integration harness (`OutputFromAnActionThatReturnsStrings.cs`): they are not part of this model.
