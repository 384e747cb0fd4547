# CLIProxyAPI: verified models of its stateful cores

The proxy routes AI requests to providers. This project models the parts of it that keep state or transform
configurations, and proves what they promise. Time is a number passed in, floats are reals, a method protected by
a mutex is one step, and an iteration over a Go map takes any order.

| files | what they model |
|---|---|
| `RegistryState`, `RegistryTheorems`, `RegistryRuns`, `RegistryRecount`, `RegistryListing`, `RegistryExamples`, `Registry` | the reference-counted model registry: its state as a value, laws of one operation, laws of runs, the recount, what a provider offers, runs outside the conditions, and the class that updates registrations in place |
| `YamlTree`, `YamlTheorems`, `YamlReads`, `YamlShape`, `YamlNode`, `YamlMerge` | the comment-preserving YAML merge: on trees, reading and pruning, what the merged tree reads, its shape and tags, nodes in the heap, and the merge in place |
| `Ranking`, `RankingNotes`, `Sorting`, `Filtering` | the ranking of upstream candidates from probe observations, and the words kept with each |
| `ResolverState`, `ResolverSafety`, `ResolverBalance`, `Resolver`, `Suffix` | the routing resolver: state and one call, blocks over runs, load balance, the class, and model-name suffixes |
| `Thinking`, `ThinkingTheorems` | the thinking-configuration normaliser |
| `Capture`, `Limiter`, `SignatureCache`, `Spool` | the stream capture, the inbound limiter, the signature cache and the log spool |
| `Usage`, `UsageMerge` | the usage merge: its laws on values, and the copying and merging of maps and detail lists in the heap |
| `Activation`, `ActivationTheorems` | card activation: one call and the service, and its laws over runs |
| `Wrappers`, `Text` | options, results, arithmetic and string helpers |

Code that updates state is a class or a method with the source's loops, proved against a specification function or
relation; the laws are lemmas about those.

## What turned out to need a condition

- Re-registration equals a rebuild for counts, shares, metadata and client records always, but for quota and
  suspension marks only without stray marks (`ReregisteringRebuildsExactly`, `StrayMarkTellsApart`).
- The per-provider recount trims ids while the cache does not (`RecountMatchesCache`,
  `UntrimmedIsRecountedElsewhere`).
- The availability count subtracts a client that is both suspended and cooling down twice (`AvailableMeansFree`,
  `FreeClientIsMissed`), and so does the list of a provider's models (`OfferedExactly`).
- What is merged into a configuration is read back from it except for values worth writing under a blank key of a
  sequence element that takes over an old one (`MergeReadsExactly`, `BlankKeyIsLost`).
- Validation leaves four exceptions to soundness or idempotence: "auto" in capitals for a budget-only model, a
  level-only model without the medium level, a range of [0, 1] without zero, and a budget below -1 for a range that
  starts at zero (`ValidatedIsSound`, `ValidatedIsIdempotent`, `ExceptionsExist`).
- The ranking does not depend on the order of probes, but the reason kept with a candidate does unless its best
  probes agree (`ReasonsExactly`, `TraitFixedExactly`, `OrderCanMatter`).
- A stream capture takes in all bytes exactly while every chunk fits beside the line it continues
  (`AllTakenExactly`); a line as long as the limit is never finished (`FullLineIsStuck`).
- A positive rate below one request per second admits nobody (`PatientCallers`).
- A binding survives exactly the readings of the state file that find it written (`BindingSurvivesExactly`). A seed
  shortens a card only if the card is stored without a duration, and then exactly when neither a seed nor the new
  type makes up for the default of the old type (`SeedingShortensExactly`).
- A report about a returned model finds its token only if the upstream name has no suffix of its own
  (`ReportFindsSelection`).

## Model

| member | source | states |
|---|---|---|
| RegistryTheorems.ReregisteringRebuilds | internal/registry/model_registry.go:207-413 | Re-registering a client with any list, duplicates allowed, and any provider leaves counts, provider shares, metadata and client records exactly as unregistering and registering afresh would |
| RegistryTheorems.ReregisteringRebuildsExactly | internal/registry/model_registry.go:268-403 | The quota and suspension marks come out the same too if and only if no listed model carries a stray mark: one of the client on a model new to it, or somebody else's on a model only this client supplies |
| RegistryTheorems.SuppliedMarksAreNotStray | internal/registry/model_registry.go:268-403 | Marks that name suppliers are never stray, so the previous condition holds wherever marks name suppliers |
| RegistryTheorems.ReconciledIsRebuilt | internal/registry/model_registry.go:288-390 | For one model: hand-over, removals, overage, additions and refresh together equal taking the whole old share away and giving the whole new one, and a registration that stays listed or has other suppliers is there after every phase |
| RegistryTheorems.StagesSurvive | internal/registry/model_registry.go:288-346 | A registration that stays listed or has other suppliers is dropped by none of the hand-over, removal and overage phases |
| RegistryTheorems.RegisteredConsistent | internal/registry/model_registry.go:207-413 | Registration keeps the books: each count is the number of listings over all clients, entries exist iff it is positive, provider shares are the same sums per provider without zeros, metadata per provider has the same keys |
| RegistryTheorems.UnregisteredConsistent | internal/registry/model_registry.go:534-588 | Unregistering any client, known or not, keeps the books |
| RegistryRuns.ReachableConsistent | internal/registry/model_registry.go:207-671 | Every run of registrations, unregistrations, marks and sweeps from the empty registry keeps the books |
| RegistryRuns.ReachableMarksSupplied | internal/registry/model_registry.go:456-489 | If marks are only set for suppliers, then in every reachable state every mark names a current supplier |
| RegistryRuns.ReachableReregistration | internal/registry/model_registry.go:207-413 | In such runs re-registration is, marks included, unregistration followed by registration |
| RegistryRuns.AvailableMeansFree | internal/registry/model_registry.go:884-910 | Where clients list a model once, a positive count means some supplier is neither suspended nor cooling down; the count never exceeds the free suppliers and is exact iff nobody is both suspended and cooling down, or nobody is free |
| RegistryRuns.ReachableAvailable | internal/registry/model_registry.go:884-910 | A positive count in any such run has a free supplier |
| RegistryRuns.SweepsAreInvisible | internal/registry/model_registry.go:1093-1108 | Sweeps of expired quota marks inserted anywhere in a timed run never change a later count |
| RegistryRecount.RecountMatchesCache | internal/registry/model_registry.go:773-808 | The recount over a provider's clients agrees with every cached share if and only if those clients list white-space-trimmed ids only |
| RegistryListing.OfferedExactly | internal/registry/model_registry.go:816-876 | Where the provider's clients list a trimmed id once and marks name suppliers: the model is offered if and only if the provider has clients for it and either none of them is suspended for more than a quota, or more clients are ready than are both cooling down and so suspended |
| RegistryListing.OfferedIsDescribed | internal/registry/model_registry.go:793-804 | Where the provider's clients list trimmed ids, every model offered has a description |
| RegistryListing.ReachableOffer | internal/registry/model_registry.go:816-876 | In every run that marks suppliers only, a model offered in spite of other suspensions has a client of the provider that is neither cooling down nor so suspended |
| RegistryExamples.StrayMarkTellsApart | internal/registry/model_registry.go:268-403 | A run with a mark on a model its client does not list, after which re-registration and rebuild differ |
| RegistryExamples.UntrimmedIsRecountedElsewhere | internal/registry/model_registry.go:773-808 | A run with an untrimmed id, after which the recount disagrees with the cached shares |
| RegistryExamples.FreeClientIsMissed | internal/registry/model_registry.go:884-910 | A run with a client both cooling down and suspended, after which the count is below the number of free clients |
| Registry.ModelRegistry.constructor | internal/registry/model_registry.go:124-136 | The registry starts empty |
| Registry.ModelRegistry.RegisterClient | internal/registry/model_registry.go:207-413 | The heap method takes the registry from its old value to the specified one, through all branches: empty list, new client, re-registration; a model that survives keeps its registration object |
| Registry.ModelRegistry.Reconcile | internal/registry/model_registry.go:268-390 | The in-place phases of a re-registration, each a loop over ids, compute the reconciled entry of every model, and a surviving model keeps its registration object |
| Registry.ModelRegistry.HandOverOverlap | internal/registry/model_registry.go:288-314 | The hand-over phase moves every overlapping id from one stage to the next, in any iteration order |
| Registry.ModelRegistry.RemoveDropped | internal/registry/model_registry.go:317-322 | The removal phase for ids no longer listed |
| Registry.ModelRegistry.RemoveOverage | internal/registry/model_registry.go:324-333 | The overage phase for ids listed less often |
| Registry.ModelRegistry.AddMissing | internal/registry/model_registry.go:336-346 | The addition phase for ids listed more often |
| Registry.ModelRegistry.RefreshListed | internal/registry/model_registry.go:348-390 | The refresh phase: metadata, own marks and overlap credit |
| Registry.ModelRegistry.AddModelRegistration | internal/registry/model_registry.go:415-454 | One addition in place, on a new or an existing registration object |
| Registry.ModelRegistry.RemoveModelRegistration | internal/registry/model_registry.go:456-489 | One removal in place; at zero the registration goes |
| Registry.ModelRegistry.UnregisterClient | internal/registry/model_registry.go:534-588 | The heap method computes the unregistered state |
| Registry.ModelRegistry.SetModelQuotaExceeded | internal/registry/model_registry.go:594-603 | Marks the client, if the model is registered, and nothing else |
| Registry.ModelRegistry.ClearModelQuotaExceeded | internal/registry/model_registry.go:609-617 | Clears that mark and nothing else |
| Registry.ModelRegistry.SuspendClientModel | internal/registry/model_registry.go:624-648 | Suspends the client for the model, keeping an earlier suspension |
| Registry.ModelRegistry.ResumeClientModel | internal/registry/model_registry.go:654-671 | Lifts a suspension and nothing else |
| Registry.ModelRegistry.CleanupExpiredQuotas | internal/registry/model_registry.go:1093-1108 | Drops exactly the marks older than the window |
| Registry.ModelRegistry.GetModelCount | internal/registry/model_registry.go:884-910 | Counts in a loop what the availability specification says |
| Registry.ModelRegistry.CountModelsByProvider | internal/registry/model_registry.go:773-808 | The recount loop counts the trimmed listings of the provider's clients, and describes each model by the first client that can, or else by its registration |
| Registry.ModelRegistry.GetAvailableModelsByProvider | internal/registry/model_registry.go:759-876 | Lists exactly the models that are offered and described by some listing client or the registry, each with such a description, and nothing without a provider |
| YamlTheorems.PruneReads | internal/config/config.go:1472-1506 | A pruned new node reads like the unpruned one: every path has the same kind, scalar tag and value, or is absent for being or pruning to a known default |
| YamlTheorems.KeptKeysRead | internal/config/config.go:1793-1822 | Cutting a mapping to the generated keys does not change what it reads |
| YamlReads.MergeReadsExactly | internal/config/config.go:1264-1366 | After merging a tree with distinct keys, every path of it reads the same kind, scalar tag and value in the destination or is absent for being or pruning to a known default (sequences keep the source's length, bar an explicit null kept for an empty one), if and only if no sequence element that takes over an old one holds a value worth writing under a blank key |
| YamlReads.MergeItemExactly | internal/config/config.go:1329-1345 | The same for one sequence element that takes over an old one and is cut to its generated keys |
| YamlReads.MergeReads | internal/config/config.go:1264-1366 | A source without blank keys always reads the same in the merged tree |
| YamlReads.MergeItemReads | internal/config/config.go:1329-1345 | The same for an element that takes over an old one |
| YamlReads.MergePairLookup | internal/config/config.go:1264-1298 | What one merged pair changes in the lookups of the mapping, for every key |
| YamlShape.MergeFinds | internal/config/config.go:1264-1298 | What a merged mapping finds under any key: untouched, merged or newly pruned |
| YamlShape.MergeKeepsKeyOrder | internal/config/config.go:1279-1297 | Old keys stay as an in-order prefix and new keys follow in source order |
| YamlShape.MatchesOnce | internal/config/config.go:1588-1608 | No old element is taken over by two source elements |
| YamlShape.MatchesFit | internal/config/config.go:1610-1651 | A matched old element has the target's identity or is structurally equal to it |
| YamlShape.MergeTags | internal/config/config.go:1303-1366 | Merging trees whose collections carry the standard tags leaves such a tree |
| YamlShape.ReadsSameTags | internal/config/config.go:1303-1366 | Such trees that read the same carry the same tag at every path found, an explicit null standing for an empty sequence |
| YamlShape.MergeReadsWithTags | internal/config/config.go:1264-1366 | For such trees: values, kinds and tags of every path of the source are found in the merged tree if and only if nothing is lost under a blank key |
| YamlShape.BlankKeyIsLost | internal/config/config.go:1793-1822 | A value worth writing under a blank key is always lost from an element that takes over an old one |
| YamlShape.BlankKeyIsLostFromItself | internal/config/config.go:1793-1822 | A list merged into itself that loses such a value |
| YamlTree.Match | internal/config/config.go:1610-1651 | An unused old element with the same identity or structure, and -1 only when there is none |
| YamlTree.FindPair | internal/config/config.go:1370-1380 | The first pair with the key, and -1 only when there is none |
| YamlMerge.MergeNodePreserve | internal/config/config.go:1303-1366 | In place: the destination denotes the merged tree, the source denotes what it did, and the two share no node |
| YamlMerge.MergeMappingPreserve | internal/config/config.go:1264-1298 | The same for mappings, and for a copy where the kinds differ |
| YamlMerge.MergeSequence | internal/config/config.go:1323-1354 | Sequence merge in place: matched elements are moved and merged, the others copied |
| YamlMerge.MergeElement | internal/config/config.go:1335-1345 | Merges into one old element and takes ownership of the nodes it gains |
| YamlMerge.ReorderSequenceForMerge | internal/config/config.go:1588-1608 | The loop with used flags computes the matching |
| YamlMerge.MatchSequenceElement | internal/config/config.go:1610-1651 | The two search loops compute the match |
| YamlMerge.PruneKnownDefaultsInNewNode | internal/config/config.go:1472-1506 | Pruning in place computes the pruned tree and takes in no other node |
| YamlMerge.PruneMissingMapKeys | internal/config/config.go:1793-1822 | The removal loop keeps exactly the keys the source lists |
| YamlMerge.CopyNodeShallow | internal/config/config.go:1570-1586 | The node becomes a copy of the source with fresh children |
| YamlNode.DeepCopyNode | internal/config/config.go:1554-1566 | A copy made of fresh nodes that denotes the same tree |
| Ranking.RankingIgnoresSnapshotOrder | internal/api/cpams_resolver.go:1021-1150 | Shuffling snapshot entries, probes within entries, or map iteration gives the same ranked list |
| Ranking.RankingIsOrderIndependent | internal/api/cpams_resolver.go:1031-1149 | Two rankings of the same multiset of observations are equal |
| Ranking.AggregatesCommute | internal/api/cpams_resolver.go:1031-1115 | The aggregates depend on the observations only as a multiset |
| Ranking.OrderIsUnique | internal/api/cpams_resolver.go:1136-1147 | A strictly ordered list of candidates is determined by its elements |
| Ranking.BeforeTotal | internal/api/cpams_resolver.go:1136-1147 | The four-key comparator is asymmetric and total on distinct names |
| Ranking.ObservationsCoherent | internal/api/cpams_resolver.go:1044-1080 | A full model name fixes the provider prefix of a requested model, hence its priority |
| Ranking.RankedNames | internal/api/cpams_resolver.go:1044-1080 | Every ranked name is a plain provider prefix before the requested name |
| Ranking.BuildRequestedCandidates | internal/api/cpams_resolver.go:1021-1150 | The aggregation loops, collection in any order and sort produce the ranking of the snapshot's observations, and the reason and continuation words kept with each name |
| RankingNotes.ReasonsExactly | internal/api/cpams_resolver.go:1100-1105 | The reasons that some order of the observations leaves with a name: those given with its best status; any given one, if the best status also comes without a reason; and none, if it only comes without |
| RankingNotes.TraitFixedExactly | internal/api/cpams_resolver.go:1100-1105 | A trait read off the reason is the same for every order of the observations if and only if all those reasons agree on it |
| RankingNotes.AgreeingTops | internal/api/cpams_resolver.go:1100-1105 | Where every observation with the best status of a name gives the same reason, that reason is kept in every order |
| RankingNotes.ShuffledTrait | internal/api/cpams_resolver.go:1031-1111 | Such a trait is the same for a snapshot and any shuffling of it |
| RankingNotes.ContinuationsAreFirst | internal/api/cpams_resolver.go:1106-1111 | The continuation words kept are the first ones given, in the order of the observations |
| RankingNotes.WordsExactly | internal/api/cpams_resolver.go:1106-1111 | The continuation words that some order leaves: any that is given, or none where none is |
| RankingNotes.NotesOfRanked | internal/api/cpams_resolver.go:1069-1111 | Every candidate keeps words, under the status it is ranked with |
| RankingNotes.OrderCanMatter | internal/api/cpams_resolver.go:1100-1105 | Two snapshots that differ in the order of two green probes keep different reasons |
| Sorting.SortSlice | internal/api/cpams_resolver.go:1136-1147 | Sorted under any weak order, and a permutation |
| ResolverSafety.BlockedUntilLifted | internal/api/cpams_resolver.go:295-501 | In every run of model-named resolutions, invalidations, evictions and cooldowns: once blocked, an upstream has no token, binding or selection and is not returned on its channel, until a call finds it among the candidates the protocol leaves with the block expired or a strictly newer probe |
| ResolverSafety.ResolvesSound | internal/api/cpams_resolver.go:295-501 | Every branch, the snapshot-error and all-unhealthy fallbacks included, returns only an unblocked upstream that serves the requested model, and keeps the invariant |
| ResolverSafety.ResolvesLifts | internal/api/cpams_resolver.go:2250-2295 | A call removes a block exactly when a candidate the protocol leaves lifts it, and never changes one |
| ResolverSafety.SiftLifts | internal/api/cpams_resolver.go:2250-2295 | Filtering drops a block if and only if some candidate of the list lifts it |
| ResolverSafety.SiftOpen | internal/api/cpams_resolver.go:2250-2295 | What filtering lets through is not blocked afterwards |
| ResolverSafety.InvalidatedSafe | internal/api/cpams_resolver.go:2086-2146 | Invalidation keeps the invariant: token, selection and bindings of the failed model are gone as the block appears |
| ResolverSafety.InvalidationBlocks | internal/api/cpams_resolver.go:2070-2146 | Invalidation blocks until a probe after the failure, a cooldown at most for its period, an eviction not at all |
| ResolverSafety.StepBlocked | internal/api/cpams_resolver.go:246-501 | One event removes a block exactly when it lifts it, and otherwise does not return the upstream |
| ResolverSafety.AnswersAreHealthy | internal/api/cpams_resolver.go:318-501 | With a snapshot at hand, reuse and every strategy answer with a healthy candidate; a call falls back or gives up only when none is healthy |
| ResolverSafety.HealthyExactly | internal/api/cpams_resolver.go:1157-1247 | The healthy candidates: usable greens if any, else fresh usable yellows unless the request is stateful |
| ResolverSafety.ForProtocolExactly | internal/api/cpams_resolver.go:1759-1807 | The candidates the protocol leaves: for an external native Claude client the bridges if any, of those the native ones if any; for stateful Codex responses those that support them; else all; for Claude never none of some |
| ResolverSafety.RankedForQuery | internal/api/cpams_resolver.go:1021-1150 | The ranking of a snapshot is made of upstreams of the requested model |
| ResolverState.UpstreamOfFull | internal/api/cpams_resolver.go:1536-1546 | Splitting a full name gives back the upstream it was built from |
| ResolverBalance.NewConversationsBalance | internal/api/cpams_resolver.go:473-491 | From no tokens or bindings, with a fixed healthy set and no expiry, k new conversations over n candidates leave each with floor(k/n) or ceil(k/n) bindings, whatever calls of bound conversations and calls for other models or channels come in between |
| ResolverBalance.LeastLoadedExactly | internal/api/cpams_resolver.go:1340-1365 | The least-loaded list holds exactly the candidates nobody undercuts, and is never empty |
| ResolverBalance.PicksLightest | internal/api/cpams_resolver.go:1308-1338 | Round-robin settles on a lightest healthy candidate |
| ResolverBalance.NewConversationPicks | internal/api/cpams_resolver.go:318-491 | A new conversation with a healthy candidate always reaches the strategy |
| ResolverBalance.CallTouchesOwn | internal/api/cpams_resolver.go:295-501 | A call issues at most the token of its answer, and keeps every live binding but its own conversation's |
| ResolverBalance.CallServesRequested | internal/api/cpams_resolver.go:295-501 | In any state, a call answers only with an upstream of the requested model |
| ResolverBalance.RepeatSettles | internal/api/cpams_resolver.go:328-348 | A bound conversation whose candidate is healthy comes back to it and keeps its expiry |
| ResolverBalance.EvenShares | internal/api/cpams_resolver.go:1340-1365 | Loads that differ by at most one are the floor or the ceiling of the mean |
| Resolver.LeastLoadedCandidates | internal/api/cpams_resolver.go:1340-1365 | The one-pass reset-and-filter scan returns exactly the minimum-load candidates in order |
| Resolver.PickLatestToken | internal/api/cpams_resolver.go:627-645 | A named token that expires last, and None only when there is none |
| Resolver.HealthyCandidates | internal/api/cpams_resolver.go:1157-1247 | The filter loops compute the healthy candidates |
| Resolver.Resolver.constructor | internal/api/cpams_resolver.go:203-224 | The resolver starts empty |
| Resolver.Resolver.CollectValidTokens | internal/api/cpams_resolver.go:607-625 | The loop drops the channel's dead tokens and returns the live ones |
| Resolver.Resolver.ActiveLoadsByModel | internal/api/cpams_resolver.go:1367-1413 | The sweep loops drop dead bindings and tokens and count the load of every model |
| Resolver.Resolver.ApplyUnifiedHealth | internal/api/cpams_resolver.go:842-893 | The candidates rated under the current loads, in the five-key order |
| Resolver.Resolver.FilterBlockedCandidates | internal/api/cpams_resolver.go:2250-2295 | The loop keeps the open candidates and deletes lifted blocks |
| Resolver.Resolver.PickBalanced | internal/api/cpams_resolver.go:1322-1337 | The cursor picks among the least loaded and advances, starting over at its limit |
| Resolver.Resolver.Settle | internal/api/cpams_resolver.go:484-490 | Issues the token, selects and binds, and changes nothing else |
| Resolver.Resolver.FallBack | internal/api/cpams_resolver.go:387-471 | The branches without a healthy candidate, in order |
| Resolver.Resolver.Issue | internal/api/cpams_resolver.go:354-501 | Token reuse, fallback or a new pick |
| Resolver.Resolver.ResolveRequested | internal/api/cpams_resolver.go:246-501 | The whole call is one step of the resolution relation |
| Resolver.Resolver.DropModel | internal/api/cpams_resolver.go:2086-2146 | The loop over bindings and the deletions compute the invalidated state |
| Resolver.Resolver.InvalidateModel | internal/api/cpams_resolver.go:2070-2072 | Is the invalidation event of the runs |
| Resolver.Resolver.EvictModel | internal/api/cpams_resolver.go:2074-2076 | Is the eviction event of the runs |
| Resolver.Resolver.CooldownModel | internal/api/cpams_resolver.go:2078-2084 | Is the cooldown event of the runs; a cooldown that is not positive evicts |
| Suffix.ReportFindsSelection | internal/api/cpams_resolver.go:1424-1442 | A report about the returned name finds the selected upstream, whatever suffix was put back, if and only if the upstream name itself has no suffix |
| Suffix.CanonicalIsStable | internal/api/cpams_resolver.go:1424-1427 | Stripping the suffix twice, as the keys do, is stripping once if and only if there was one suffix |
| Suffix.ParseSuffixed | internal/thinking/suffix.go:23-44 | Parsing gives back the name and suffix a model name was put together from |
| ThinkingTheorems.ValidatedIsSound | internal/thinking/validate.go:38-155 | For any request an extractor produces, negative budgets included: a successful call leaves a budget in the range (iff "auto" did not come in capitals to a budget-only model), a listed level (iff the medium level was not needed and missing), automatic mode only where allowed |
| ThinkingTheorems.ValidatedIsIdempotent | internal/thinking/validate.go:38-155 | Validating the result again returns it unchanged if and only if none of four exceptions applies, each a condition on the request and the model |
| ThinkingTheorems.ExceptionsExist | internal/thinking/validate.go:38-155 | A concrete request and model for each of the four exceptions |
| ThinkingTheorems.StrictBudgetIsKept | internal/thinking/validate.go:117-127 | A strict nonzero budget is returned unchanged if it is in the range and refused if it is not |
| ThinkingTheorems.StrictBudgetIsNeverAltered | internal/thinking/validate.go:117-127 | For any model, a strict budget that stays a budget is the budget given |
| ThinkingTheorems.ClampsToNearest | internal/thinking/validate.go:208-249 | A standard level clamps to the nearest listed one, ties going lower |
| ThinkingTheorems.ClampsToRange | internal/thinking/validate.go:252-300 | A clamped budget is automatic or an allowed zero as given, and else the budget of the range nearest to the one given |
| ThinkingTheorems.ClampIsMonotone | internal/thinking/validate.go:252-300 | A larger positive budget is never clamped to a smaller one |
| ThinkingTheorems.MidRangeIsMiddle | internal/thinking/validate.go:167-201 | Disallowed automatic thinking becomes the medium level, or the middle of the range: off exactly if that is zero and zero is allowed |
| ThinkingTheorems.BudgetToLevelIsMonotone | internal/thinking/convert.go:73-93 | With a standard level listed, a larger positive budget never becomes a lower level, and the level is listed |
| ThinkingTheorems.LevelBudgetRoundTrip | internal/thinking/convert.go:11-93 | The budget of a standard level converts back to that level |
| ThinkingTheorems.SupportedIsListed | internal/thinking/validate.go:302-309 | A standard level is supported if and only if its position is listed, spelling and white space aside |
| Thinking.Nearest | internal/thinking/validate.go:208-249 | The outward search finds a listed position at the least distance, the lower one on a tie |
| Thinking.ClampToLevel | internal/thinking/validate.go:208-249 | The best-so-far loop computes the outward search |
| Thinking.ValidateConfig | internal/thinking/validate.go:38-155 | The step-by-step rewriting computes the specified result or error |
| Capture.ChunkingDoesNotMatter | internal/api/cpams_routes.go:648-673 | While every chunk fits beside the buffered line, ids, mismatch flag and leftover equal those of the whole text read line by line |
| Capture.CaptureReadsTaken | internal/api/cpams_routes.go:648-673 | For any chunks, the capture is that of the bytes taken in, read line by line |
| Capture.AllTakenExactly | internal/api/cpams_routes.go:652-658 | All bytes are taken in if and only if every chunk fits beside the line it continues |
| Capture.ReadTextExactly | internal/api/cpams_routes.go:675-689 | Read line by line, an id is captured exactly when a finished line carries it, and the flag is set exactly when one mismatches |
| Capture.LinesOfParts | internal/api/cpams_routes.go:648-673 | Cutting a text in two only moves the cut line into the second part |
| Capture.FullLineIsStuck | internal/api/cpams_routes.go:652-658 | A buffered line of the limit's length takes nothing in any more |
| Capture.ChunkingMattersBeyondLimit | internal/api/cpams_routes.go:652-658 | An oversized line shows how the result depends on the limit |
| Capture.Writer.CaptureSSE | internal/api/cpams_routes.go:648-673 | Appending what fits and draining finished lines computes the fed state |
| Capture.Writer.CaptureSSELine | internal/api/cpams_routes.go:675-689 | One line adds its id and flag |
| Limiter.WindowIsBounded | internal/api/inbound_limiter.go:69-96 | In every window starting with a call of the key, at most qps * elapsed + qps of its calls are admitted |
| Limiter.RunInRange | internal/api/inbound_limiter.go:69-96 | Tokens stay between 0 and qps over every run |
| Limiter.PatientCallers | internal/api/inbound_limiter.go:69-96 | Calls at least 1/qps apart are all admitted if qps is at least 1, and none is if it is less |
| Limiter.InFlightIsHeld | internal/api/inbound_limiter.go:50-67 | While holders give back once, the count is the number of places held and never exceeds the limit |
| Limiter.InboundLimiter.AllowKey | internal/api/inbound_limiter.go:69-96 | Refill, cap and spend compute the specified bucket and answer; other keys are untouched |
| Limiter.InboundLimiter.AcquireGlobal | internal/api/inbound_limiter.go:50-67 | A place is taken exactly when one is free, and no release is owed without a limit |
| Limiter.InboundLimiter.Release | internal/api/inbound_limiter.go:50-67 | Gives one place back, and never goes below zero |
| SignatureCache.PurgesAreInvisible | internal/cache/signature_cache.go:75-94 | Taking all sweeps out of a timed run changes no lookup |
| SignatureCache.HitIsLastWrite | internal/cache/signature_cache.go:120-166 | A lookup returns a signature if and only if it was the last one written for that group and hash, not cleared since, with every gap between touches at most the TTL |
| SignatureCache.HolderIsLast | internal/cache/signature_cache.go:98-116 | No write or clearing of the key comes after the write a hit returns |
| SignatureCache.Cache.CacheSignature | internal/cache/signature_cache.go:98-116 | Stores a cacheable signature and nothing else |
| SignatureCache.Cache.GetCachedSignature | internal/cache/signature_cache.go:120-166 | Answers, and refreshes or drops the entry |
| SignatureCache.Cache.PurgeExpiredCaches | internal/cache/signature_cache.go:75-94 | The loop drops exactly the expired entries |
| SignatureCache.Cache.ClearSignatureCache | internal/cache/signature_cache.go:169-179 | Clears one group or all |
| Usage.MergeAddsFirsts | internal/usage/detail_query.go:156-216 | A merge adds exactly the first record of each key the base lacks; lists are time-sorted permutations of base and additions, counters are unchanged, the count is the growth |
| Usage.MergingAgainAddsNothing | internal/usage/detail_query.go:156-216 | Merging the same records again adds nothing |
| Usage.MergedKnows | internal/usage/detail_query.go:156-216 | After a merge every record's key is present |
| UsageMerge.SeenKeys | internal/usage/detail_query.go:162-169 | The nested loops over maps and details collect exactly the keys of the statistics |
| UsageMerge.Statistics.CopyOf | internal/usage/detail_query.go:218-276 | A copy with the same value made of new maps and new detail lists, shared by nobody |
| UsageMerge.Statistics.Add | internal/usage/detail_query.go:195-202 | Adds one detail: only the model's list grows, in a new array, and no other entry changes |
| UsageMerge.AppendFirsts | internal/usage/detail_query.go:171-203 | The record loop appends, in place, exactly the first records of new keys, and every map and detail list it gains is new |
| UsageMerge.Statistics.SortAll | internal/usage/detail_query.go:205-213 | The loops sort every detail list in place, and write nothing else |
| UsageMerge.MergePersistedDetails | internal/usage/detail_query.go:156-216 | The method is a merge of what the base held; the base is not written, and with records the result shares no map and no detail list with anything there was before |
| ActivationTheorems.OneActivationPerCard | internal/covsactivation/service.go:141-190 | In every run from an empty store with fresh tokens, whatever becomes of the writes, a card has at most one activation |
| ActivationTheorems.FileIsMemory | internal/covsactivation/service.go:92-283 | While writes succeed, the file holds what memory holds, and no card's duration ever shrinks |
| ActivationTheorems.BindingSurvivesExactly | internal/covsactivation/service.go:92-283 | Whatever becomes of the writes, a binding that does not lapse is there after a run if and only if every reading of the file in it found the binding written |
| ActivationTheorems.BindingLastsWhileSaved | internal/covsactivation/service.go:141-190 | Until a binding expires, and while every reading finds it written, its device and no other gets a response for the card, always with the same token and dates |
| ActivationTheorems.BindingLastsUntilExpiry | internal/covsactivation/service.go:141-190 | With successful writes that holds through every reload |
| ActivationTheorems.SavedExactly | internal/covsactivation/service.go:264-284 | While a binding lasts, the file has it after a run if and only if it had it before or some write of the run succeeded |
| ActivationTheorems.NewBindingSurvivesReload | internal/covsactivation/service.go:181-215 | A binding just made survives a reading of the file that comes at once if and only if it was written or there was no file |
| ActivationTheorems.SeedingShortensExactly | internal/covsactivation/service.go:217-242 | For any stored cards and seeds: no card loses time if and only if every card stored without a duration and named by a seed gets, from some seed or from the type its first seed gives it, at least the default of its type |
| ActivationTheorems.SeedingNeverShortens | internal/covsactivation/service.go:217-242 | So where every card has a duration, reseeding shortens none and leaves every card one |
| ActivationTheorems.UndatedCardsMayShrink | internal/covsactivation/service.go:217-242 | A stored card and a seed that shortens it |
| Activation.ActivationService.Activate | internal/covsactivation/service.go:141-190 | All refusals, the reuse of a binding, and the new binding |
| Activation.ActivationService.AuthenticateToken | internal/covsactivation/service.go:105-139 | Answers with the token, the card type and the dates of a good token, and drops a lapsed record |
| Activation.ActivationService.FindActivationByCardCode | internal/covsactivation/service.go:341-348 | A record of the card, and None only when there is none |
| Activation.ActivationService.SyncSeedCards | internal/covsactivation/service.go:217-242 | The loop applies the seeds in order |
| Activation.ActivationService.SetConfig | internal/covsactivation/service.go:192-215 | Reads the file if it can be read, seeds and writes |
| Spool.Writer.WriteChunk | internal/logging/request_logger.go:1446-1473 | The file stays the first bytes of everything offered, then the notice exactly if more was offered |
| Spool.Writer.WriteAll | internal/logging/request_logger.go:1412-1444 | The same for any sequence of chunks |
| Spool.SpoolIsFaithful | internal/logging/request_logger.go:1446-1497 | The body reads back up to the limit, and what follows is the notice once if something is missing, else nothing |

## Left out

- Registry.ModelRegistry.RegisterClient: deep copies of model metadata (values here), hooks, logging, `GetAvailableModels` and the conversion of models to maps.
- Strings: lower-casing is ASCII and white space is the Latin-1 range; no Unicode folding.
- YAML: alias and document nodes, comments, styles, indentation and file writing; nodes are trees, as the decoder makes them without aliases.
- YamlMerge.ReorderSequenceForMerge: the temporary holes a reordered sequence has before its elements are filled in; the order of elements is computed first and the elements are placed one by one.
- YAML: idempotence of the merge for sequences of mappings identified by a pruned default field is not claimed.
- Ranking.BuildRequestedCandidates: probe statuses and reasons arrive adjusted, scored and trimmed; how traits are read off the words kept is an input of the resolver, per full model name.
- Resolver.Resolver.ResolveRequested: the lock is held throughout, names are already normalised, the token map of maps is flattened, and the unified health score is an uninterpreted function of a candidate and its load; the soft-rank log record is left out.
- Resolver: the channel-level `Resolve`, `RememberResponseIDs`, `Snapshot` and the removal of legacy entries; the first two can issue a token for a blocked upstream, so they are not among the events of the block property.
- ResolverBalance.NewConversationsBalance: calls without a conversation and invalidations of the model are not interleaved; the first issue tokens that count as a load, the second take bindings away.
- Thinking: reading configurations out of requests and applying them, and log lines.
- Capture.Writer.CaptureSSELine: the JSON read off a payload and the trimming of bytes are functions given as parameters; bodies that are not event streams.
- Limiter.InboundLimiter.AllowKey: floating-point rounding; the status report.
- SignatureCache: the two-level map is flattened, so empty groups are not visible; hashing and the mapping from models to groups are inputs.
- UsageMerge.MergePersistedDetails: the base's map of APIs exists, a slice has no spare capacity, and the four calendar maps are values; reading and filtering persisted files is left out.
- Activation.ActivationService.Activate: JSON encoding of the state file, the device information, URLs of the response, and a missing configuration; drawing a token never fails, and a duration above 106751 days does not overflow.
- Activation.ActivationService.AuthenticateToken: the product and the model prefix, which only pass through.
- Activation.ActivationService.SetConfig: one fixed state file, and what it decodes to; the path does not change with the configuration.
- Spool.Writer.WriteChunk: failing writes, the temporary file and the channel's capacity.
- Gin handlers, middleware, management routes, stores, OAuth, assets and the health scoring weights.
