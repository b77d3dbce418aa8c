# Verified kernels of the MCP broker

A Dafny model of the broker's stateful kernels, with proofs of what they keep over every input, every
run and every interleaving. The broker merges layered configuration, relays elicitation prompts between
upstream servers and a host, keeps shared runtime state in files that are written one at a time, owns the
client objects of its upstreams, speaks JSON-RPC to processes that come and go, routes tool names, trims
responses, rewrites client configuration files and gates releases on mutation testing. Each kernel is one
module, and layered configuration is four: the composer itself, one merge and compositions of merges with
places found by their paths, and how far dotted strings do as well. They share only `Prelude`
(optional values, Python's string order), `DottedPaths` (joining and splitting at dots) and `Pointers`
(pointer files written by temporary file and replacement).

`dafny verify dfyconfig.toml` checks the whole project.

## How a kernel is modelled

- Where the source updates objects or loops over mutable state, a class or method does the same here, and
  its `ensures` equates the new state with a specification function of the old one. What the source
  promises is then proved of the specification functions, over all states and all runs.
- A call that writes several files is the list of its writes in order. A crash keeps a prefix of that
  list, so a theorem about `After(d, e)` for every `e.writes` speaks of every crash point.
- Threads are events of a run. Each locked region of the source is one event; what the source does outside
  its locks lies between two events. Host input, timeouts, process exits and failing reads and writes are
  events or parameters, so a theorem about `Run(es)` covers every interleaving.

## What the kernels do and do not guarantee

Several claims one would like to make are false of the code. Each is stated with the exact condition
under which it holds, and where that helps with a concrete input for which it fails.

- **Layered configuration.** `docs/governance-bundles.md` promises an entry for each leaf path, naming the
  layer its value comes from. Two things break it, and only the record: the document itself is always the
  overlay of the layers (`ConfigClashes.DocumentIsOverlay`), which holds what a later layer does not cover
  (`ConfigClashes.DocumentHoldsIff`).
  - The composer finds entries by dotted strings, and keys may contain dots, as in `tool_timeouts`. A new value
    for `a` takes away the entry of a sibling `a.b` (`ConfigClashes.SiblingLosesItsEntry`). Where no place of
    the layers clashes with a leaf in this way the dotted strings are as good as paths
    (`ConfigClashes.DottedRefinesPaths`). Over all layers made of given keys that is so if and only if no two
    paths made of those keys clash (`ConfigClashes.SafeIffUnambiguous`), as none do without dots.
  - A later layer that extends an earlier `{"secret_ref": ..}` mapping with a plain mapping leaves an entry on a
    path that is no leaf any more. A composition that succeeds keeps the promise if and only if each such
    extension is followed by a layer that replaces the value there or above it
    (`ConfigComposition.ComposedIffNoneOutgrown` for paths, `ConfigClashes.PromisedIffNoneOutgrown` for dotted
    strings that do not clash, with `ExtendedSecretExample` and `RepairedSecretExample`).
  What the composer with paths does for every list of layers is `ConfigComposition.ComposeExact`; it fails with
  "missing provenance" exactly when a layer replaces a value with no entry at or below it.
- **Projection.** The docstring of `project_value` says that a fully consumed path keeps its whole subtree.
  The code does so exactly for paths that are not proper prefixes of others: `["a", "a.b"]` keeps only `a.b`
  (`Projection.KeepsSubtreeIffMaximal`, `Projection.LongerPathNarrows`).
- **Shared-runtime state.** A revision number is reused exactly when the active record is not the newest
  journaled one, for example after a rollback (`StateStore.RollbackReusesARevision`). An apply while the
  active file is missing from a non-empty journal makes `previous` part from the journal, so that a rollback
  the journal allows is refused (`StateStore.BlindApplyLosesThePrevious`). At the end of a crash-free run the
  two files are what the journal replays to, a lost active file apart, if and only if no such apply was left
  unmended by an ordinary apply, a rollback, or a recovery after a later loss (`StateStore.RunsAgreeIffNotParted`).
  Lock expiry is
  consulted only by `acquire_lock`: in every run exactly the holder of the lock issued last passes the
  mutation check, expired or not (`StateStore.LastHolderPasses`), which keeps a superseded holder out. An apply of that holder changes
  the files exactly if it expects the active revision (`StateStore.ApplyChangesIff`).
- **Elicitation relay.** The reader takes all that is in a call's buffer for one reply. No interleaving can
  put two answers there, or one to another prompt than the one waited for, if and only if no prompt was
  raised while an earlier one of its connection was under way: after any other raise, host and client can
  bring about such a buffer without raising anything more (`Relay.SafeThroughoutIffTidy`). A call that gives
  up after its first failed elicitation is safe; a catalog search that goes on to its next upstream is not
  (`Relay.LateAnswerMeetsNextPrompt`).
- **Stdio session.** When a process was spawned and its metadata file could not be written, the buffer and the
  initialized flag of its predecessor stay. A request's result is then sure to be written by the process it
  went to if and only if the request starts another process or the buffer holds nothing older than the
  process (`StdioSession.ResultsAreOwnIff`); and an initialized flag means a completed handshake with the
  running process if and only if that process is not one that was spawned with the flag up and left
  unrecorded (`StdioSession.FlagMeansHandshakeIff`). `StdioSession.PredecessorAnswersForItsSuccessor` is a run
  in which a process that was told and said nothing counts as initialized, and its dead predecessor answers.
- **Deployments.** A stage writes the active pointer before the previous one, so between the two no pointer
  names the formerly active deployment, and repeating such a stage loses it for good. Runtime
  installation writes in the other order and never does.
- **Routing.** Configuration checks that a tool prefix is unique per profile, while the call route takes the
  first upstream with the prefix whatever its profile. An accepted configuration can advertise tools that
  cannot be called (`Routing.AcceptedConfigCanAdvertiseUncallable`); of what status exposes, names are
  callable exactly when their prefix is clean and first (`Routing.ExposedIsCallableIff`).
- **Mutation gate.** Excuses are by mutant name. A pass can be trusted for every outcome exactly when no two
  selected mutants share a name that denotes a callable, or the minimum score leaves no room for one
  unaccounted result, as the default of 100 does (`MutationGate.TrustworthyIff`).
- **Config rendering.** Rendering a rendered file again keeps every significant line, but is the identity
  exactly when the preserved part holds no two separator comments with only blanks between.

## Model

| member | source | states |
|---|---|---|
| `DottedPaths.SplitJoin` | src/mcp_broker/config_layers.py:145-222 | splitting a dotted path gives back its dot-free keys, so key sequences and dotted strings are the same paths |
| `DottedPaths.JoinSplit` | src/mcp_broker/catalog.py:509-515 | joining the parts of any string gives it back, so distinct projection paths stay distinct |
| `DottedPaths.DottedTestIsPrefix` | src/mcp_broker/config_layers.py:201-222 | "equal, or starting with the path and a dot" is the prefix order on key sequences, both ways |
| `LayeredConfig.Composer.RecordProvenance` | src/mcp_broker/config_layers.py:187-198 | the recursive loop stamps exactly the dotted strings of the leaf paths of the value and leaves every other entry |
| `LayeredConfig.Composer.ClearProvenance` | src/mcp_broker/config_layers.py:218-222 | exactly the entries whose string is the dotted one or starts with it and a dot are gone |
| `LayeredConfig.Composer.MergeMapping` | src/mcp_broker/config_layers.py:145-184 | the in-place merge with its dictionary of dotted strings fails, or leaves tree, provenance and conflict log, as the recursive specification says |
| `LayeredConfig.ComposeLayeredConfig` | src/mcp_broker/config_layers.py:52-84 | the loop over the layers is the fold of merges from the empty document, and fails where the fold does |
| `ConfigClashes.DottedRefinesPaths` | src/mcp_broker/config_layers.py:145-222 | for layers no place of which clashes with a leaf, dots in their keys or not: composing with dotted strings fails exactly when composing with paths does, and otherwise gives the same document, entries and conflicts, each under the dotted string of its path |
| `ConfigClashes.SafeIffUnambiguous` | src/mcp_broker/config_layers.py:145-222 | every list of layers made of given keys is composed alike with dotted strings and with paths, if and only if no two paths made of those keys clash |
| `ConfigClashes.ClashesMislead` | src/mcp_broker/config_layers.py:201-222 | for any two clashing paths, three layers with no other leaves that the two composers treat differently |
| `ConfigClashes.DotFreeKeysAreSafe` | src/mcp_broker/config_layers.py:145-222 | keys without dots are safe in this sense |
| `ConfigClashes.MergeForgets` | src/mcp_broker/config_layers.py:160-175 | a merge that replaces a value leaves no earlier entry at or under its dotted string, whatever place it belongs to |
| `ConfigClashes.SiblingLosesItsEntry` | src/mcp_broker/config_layers.py:218-222 | three layers that compose into a document whose leaf `a.b` has no entry, as a layer replaced its sibling `a` |
| `ConfigClashes.DocumentIsOverlay` | src/mcp_broker/config_layers.py:52-84 | whatever the keys, a composition that succeeds yields the overlay of the layers |
| `ConfigClashes.DocumentHoldsIff` | docs/governance-bundles.md:84-93 | for every list of layers that composes, by looking paths up in the layers alone: the document holds a scalar, a list or a secret reference at a path exactly if some layer does, and each later layer holds only plain mappings above the path and nothing at it (an empty mapping over a secret reference apart); and it holds anything at all there exactly if some layer does and each later one holds only plain mappings above |
| `ConfigClashes.DocumentLeafIff` | docs/governance-bundles.md:84-93 | in the same terms, which paths are leaves of the document with which values: those where such a value is in force and no secret reference is in force above |
| `ConfigClashes.PromisedIffNoneOutgrown` | docs/governance-bundles.md:84-101 | for layers without such a clash that compose: the dotted strings with an entry are those of the leaves, each naming the last layer with that leaf and carrying its value, if and only if no extension of a secret reference is outgrown |
| `ConfigLayers.LeavesFromAreLeaves` | src/mcp_broker/config_layers.py:187-198 | what is recorded for a value are exactly its leaf paths, secret references being leaves |
| `ConfigLayers.MergeFrame` | src/mcp_broker/config_layers.py:145-184 | from any state, a merge that succeeds yields the right-biased deep override and touches no entry outside its path |
| `ConfigLayers.MergeEntry` | src/mcp_broker/config_layers.py:145-222 | from any state, whether or not entries and leaves are in step: after a merge a path has an entry exactly if the layer has that leaf, or it had one and nothing there or above was replaced; it names the layer in the first case and is unchanged in the second |
| `ConfigLayers.MergeFailsIff` | src/mcp_broker/config_layers.py:160-215 | from any state, a merge fails exactly when it replaces a value that has no entry at or below it |
| `ConfigComposition.MissingIffLeafless` | src/mcp_broker/config_layers.py:201-215 | with entries and leaves in step, the lookup of the previous layer fails exactly when the value being replaced has no leaf |
| `ConfigComposition.MergeCorrect` | src/mcp_broker/config_layers.py:145-222 | what `MergeEntry` and `MergeFailsIff` come to when entries and leaves are in step and no secret reference is extended: failure exactly on a clash with a leafless mapping, and otherwise still in step |
| `ConfigComposition.AgreementExactlyWhenSecretsKept` | src/mcp_broker/config_layers.py:160-175 | a merge keeps entries and leaves in step if and only if it extends no secret reference |
| `ConfigComposition.ExtendedSecretExample` | src/mcp_broker/config_layers.py:160-175 | two layers that compose into a document whose entries are not its leaves |
| `ConfigComposition.RepairedSecretExample` | src/mcp_broker/config_layers.py:160-175 | and a third layer that puts it right again, although a secret reference was extended |
| `ConfigLayers.MergeReports` | src/mcp_broker/config_layers.py:160-184 | the conflicts logged are exactly the replacements made, once each, with the layer that held the value before |
| `ConfigLayers.PreviousNames` | src/mcp_broker/config_layers.py:201-215 | which layer a conflict names: that of the entry at the path, else the only one among the entries below, else "mixed" |
| `ConfigLayers.MergeTwiceIsOnce` | src/mcp_broker/config_layers.py:145-184 | merging a layer a second time changes no value, no entry and logs no conflict |
| `ConfigLayers.MergeSucceeds` | src/mcp_broker/config_layers.py:145-184 | a merge that replaces nothing never fails, from any state |
| `ConfigComposition.LaterLeafStays` | docs/governance-bundles.md:91-93 | every leaf of the later tree is a leaf of the override with its value, whatever was there before |
| `ConfigComposition.OverlayHoldsIff` | docs/governance-bundles.md:84-93 | of any list of layers, composable or not, by looking paths up in them: when their overlay holds a given scalar, list or secret reference at a path |
| `ConfigComposition.OverlayReachesIff` | docs/governance-bundles.md:91-93 | when it holds anything at all there, an empty mapping included, as maps merge recursively |
| `ConfigComposition.OverlayLeafIff` | docs/governance-bundles.md:84-93 | and when a path is a leaf of it with a given value |
| `ConfigComposition.EarlierLeaf` | docs/governance-bundles.md:84-93 | an earlier leaf that is not replaced there or above stays a leaf with its value, unless it is a secret reference being extended |
| `ConfigComposition.LeafPathsPrefixFree` | docs/governance-bundles.md:96-101 | no leaf path is a prefix of another |
| `ConfigComposition.ComposeExact` | src/mcp_broker/config_layers.py:52-84 | for every list of layers, with places found by their paths: failure exactly when some layer replaces a value with no entry at or below it; otherwise the document is the overlay, and which paths have an entry, and the layer it names, is read off the layers |
| `ConfigComposition.ComposedIffNoneOutgrown` | docs/governance-bundles.md:84-101 | for every list of layers that composes, with places found by their paths: the entries are the leaves, each naming the last layer with that leaf and carrying its value, if and only if every extension of a secret reference is followed by a layer that replaces the value there or above |
| `ConfigComposition.ComposeCorrect` | src/mcp_broker/config_layers.py:52-84 | in particular for layers that extend no secret reference, which fail exactly when one clashes with a leafless mapping |
| `ConfigComposition.LastLayerSurvives` | docs/governance-bundles.md:84-93 | for every list of layers that composes, every leaf of the last layer is in the result, unchanged and attributed to it |
| `ConfigComposition.ConflictsExact` | src/mcp_broker/config_layers.py:160-215 | for every list of layers that composes, with places found by their paths: each layer adds exactly one conflict for each value it replaces, naming itself and the last layer with the leaf replaced, or the one layer that all leaves of a replaced mapping are from, or "mixed" |
| `Relay.ClientRelay.Reply` | src/mcp_broker/client_relay.py:63-74 | a host message that answers a pending prompt is sent to that prompt's connection and the prompt removed; anything else changes nothing |
| `Relay.ClientRelay.ReceivePrompt` | src/mcp_broker/client_relay.py:103-111 | a prompt becomes pending, or is closed at once after end-of-input |
| `Relay.ClientRelay.LeaveCall` | src/mcp_broker/client_relay.py:83-88 | leaving a call drops exactly the prompts of its connection |
| `Relay.ClientRelay.EndOfInput` | src/mcp_broker/client_relay.py:54-59 | every pending prompt is answered with a closing notice and none stays pending |
| `Relay.RunsKeepInv` | src/mcp_broker/client_relay.py:54-111 | over every interleaving: each prompt is live in at most one place and each answer went home once |
| `Relay.EachPromptInOnePlace` | src/mcp_broker/client_relay.py:54-111 | every prompt is in flight, pending, answered or dropped with its call, and never two of the first three |
| `Relay.AnswersGoHomeOnce` | src/mcp_broker/client_relay.py:63-74 | an answer goes only to the connection that raised its prompt, under its relay id, and no prompt is answered twice |
| `Relay.NothingPendingAfterEof` | src/mcp_broker/client_relay.py:54-59 | after the host's input ended, nothing is pending in any later state |
| `Relay.UpstreamReceivesItsOwnAnswer` | src/mcp_broker/elicitation.py:58-81 | over every run and across both hops: each delivery is, field for field, a valid answer to the upstream's own prompt, with only the id replaced by the upstream's original one, at most once per prompt, even when upstream ids repeat across calls |
| `Relay.AnswersComeFromTheHost` | src/mcp_broker/client_relay.py:63-74 | every answer is a host message of the run or a closing notice, the latter only after end-of-input |
| `Relay.OtherMessagesAreIgnored` | src/mcp_broker/client_relay.py:54-74 | from every state, a host message with a method, without result and error, or without the id of a pending prompt changes nothing |
| `Relay.ResultIsHandedOnIff` | src/mcp_broker/elicitation.py:67-112 | from any run, of an undisturbed prompt: the host's result is handed to the upstream, unchanged and under the upstream's id, exactly if its action is accept, decline or cancel and its content, if any, is an object; otherwise the call fails |
| `Relay.ErrorIsHandedOnIff` | src/mcp_broker/elicitation.py:67-112 | and the host's error exactly if it is an object with an integer code and a string message |
| `Relay.OtherAnswersFail` | src/mcp_broker/elicitation.py:99-107 | an answer of another version, or with both result and error, is never handed on |
| `Relay.ClosedHostIsReported` | src/mcp_broker/client_relay.py:103-111 | after the end of the host's input a prompt is answered at once, and the upstream is handed an error with code -32000 under its own id |
| `Relay.SafeThroughoutIffTidy` | src/mcp_broker/elicitation.py:83-96 | at every point of a run and after every continuation without a further prompt, each buffer holds at most one answer and none but the one waited for, if and only if no prompt was raised while an earlier one of its connection was under way |
| `Relay.ObedientRunsAreTidy` | src/mcp_broker/upstream_stdio.py:513-518 | a call that gives up after a failed elicitation never raises such a prompt |
| `Relay.WholeBufferIsTheAnswer` | src/mcp_broker/elicitation.py:83-112 | in such runs parsing the whole buffer is right, and what is read is handed on exactly when it is a valid reply with result or error but not both, as section 5 of the JSON-RPC 2.0 specification requires |
| `Relay.LateAnswerMeetsNextPrompt` | src/mcp_broker/elicitation.py:58-96 | a run in which the answer to an abandoned prompt lies in the buffer of the next one and fails it |
| `StateStore.Store.ReplayJournal` | src/mcp_broker/distributed_state.py:264-284 | the loop computes the fold of all journal entries |
| `StateStore.Store.NextRevisionOf` | src/mcp_broker/distributed_state.py:233-243 | one above the active revision, or above every revision the journal names |
| `StateStore.Store.AcquireLock` | src/mcp_broker/distributed_state.py:58-107 | cut short after any number of writes, files and outcome are those of the plan; refused exactly while a lock is unexpired or the lifetime is not positive |
| `StateStore.Store.ApplyState` | src/mcp_broker/distributed_state.py:109-146 | the same for apply: refused exactly without the matching lock or on a revision mismatch |
| `StateStore.Store.RollBack` | src/mcp_broker/distributed_state.py:148-175 | the same for rollback: refused exactly without the matching lock or with a file missing |
| `StateStore.Store.RecoverFiles` | src/mcp_broker/distributed_state.py:177-212 | the same for recover: refused exactly when the active file is missing and the journal is empty |
| `StateStore.MutationRestoresAgreement` | src/mcp_broker/distributed_state.py:109-175 | from any files, even after crashes, a completed apply or rollback makes the active file what the journal replays to |
| `StateStore.TwoRollbacksRestore` | src/mcp_broker/distributed_state.py:148-175 | two rollbacks in a row restore active and previous, and the journal replays to them |
| `StateStore.ApplyCutShort` | src/mcp_broker/distributed_state.py:130-146 | a crash inside apply leaves the active file ahead of the journal exactly when only the append is missing |
| `StateStore.RollbackCutShort` | src/mcp_broker/distributed_state.py:155-170 | a crash inside rollback breaks agreement exactly between the first write and the append, unless both records are equal |
| `StateStore.CrashFreeRunsAreSound` | src/mcp_broker/distributed_state.py:109-212 | in every crash-free run, losses of the active file included, a present active file is the replayed one |
| `StateStore.ApplyAgreesIffNotBlind` | src/mcp_broker/distributed_state.py:109-146 | after a completed apply both files agree with the journal, whatever was before, exactly when the active file was not missing from a non-empty journal |
| `StateStore.RunsAgreeIffNotParted` | src/mcp_broker/distributed_state.py:109-212 | at the end of every crash-free run, losses of the active file included, `previous` and, unless lost, `active` are the replayed pair if and only if no apply over a missing active file was left unmended |
| `StateStore.NextApplyMends` | src/mcp_broker/distributed_state.py:109-146 | a run with such an apply after which they are |
| `StateStore.BlindApplyLosesThePrevious` | src/mcp_broker/distributed_state.py:109-175 | a crash-free run whose apply over a missing active file leaves no previous file, so that a rollback is refused though the journal has the record |
| `StateStore.RecoveredRunsAgreeFully` | src/mcp_broker/distributed_state.py:177-212 | if every loss is recovered before the next apply, active and previous equal the replayed pair throughout |
| `StateStore.RecoveryRestoresLoss` | src/mcp_broker/distributed_state.py:177-212 | losing the active file of such a run and recovering gives back the very same files |
| `StateStore.BlindApplyExceedsJournal` | src/mcp_broker/distributed_state.py:233-243 | an apply after a loss takes a revision above every journaled one |
| `StateStore.RevisionReusedIffBehind` | src/mcp_broker/distributed_state.py:233-243 | a new revision is already journaled exactly when the active record is not the newest |
| `StateStore.RollbackReusesARevision` | src/mcp_broker/distributed_state.py:233-243 | a crash-free run that journals one revision number with two different states |
| `StateStore.RevisionsCountApplies` | src/mcp_broker/distributed_state.py:109-146 | without rollbacks the journaled revisions are 1, 2, .., n, losses included |
| `StateStore.LocksAreFenced` | src/mcp_broker/distributed_state.py:58-107 | in every run, crashes between counter and lock writes included: tokens strictly increase, none is issued twice, and validity intervals are disjoint |
| `StateStore.SupersededHolderStaysOut` | src/mcp_broker/distributed_state.py:214-231 | once another lock was issued, the former holder fails the mutation check in every later state |
| `StateStore.LastHolderPasses` | src/mcp_broker/distributed_state.py:214-231 | in every run, crashes included, a claim passes the mutation check if and only if it is that of the lock issued last, expired or not |
| `StateStore.ApplyChangesIff` | src/mcp_broker/distributed_state.py:109-146 | over every run: an uncut apply changes the files if and only if its claim is that of the lock issued last and the revision it expects is the one in the active file, or none where there is none; then active holds the caller's state, previous what active was, and the journal gains both; otherwise it changes nothing however far it gets |
| `StateStore.RollbackChangesIff` | src/mcp_broker/distributed_state.py:148-175 | the same for rollback: if and only if the claim is that of the lock issued last and both files are there; it swaps them and journals that |
| `StateStore.AcquireIssuesIff` | src/mcp_broker/distributed_state.py:58-107 | over every run: an uncut acquire issues a lock if and only if the lifetime is positive and the lock issued last, if any, has expired; the lock is the caller's for exactly that long, under a token above all issued before |
| `StateStore.RecoverChangesIff` | src/mcp_broker/distributed_state.py:177-212 | an uncut recover changes the files if and only if active is missing and the journal is not empty; then active is the record the last entry made active |
| `Registries.Daemon.StdioClient` | src/mcp_broker/daemon_upstreams.py:325-354 | get-or-create under the lock: the registered object, or a new one registered under the key; refused after shutdown |
| `Registries.Daemon.PerCallStdioClient` | src/mcp_broker/daemon_upstreams.py:256-279 | a new object registered for the call; refused after shutdown |
| `Registries.Daemon.StopPerCallStdioClient` | src/mcp_broker/daemon_upstreams.py:281-323 | the call's client is removed only if it is still the registered one and its stop returned |
| `Registries.Daemon.ShutdownUpstreams` | src/mcp_broker/daemon.py:511-530 | both registries are emptied for good and every client in them is claimed |
| `Registries.Daemon.ShutdownSessionUpstreams` | src/mcp_broker/daemon.py:532-551 | exactly the clients under keys of the session are taken out |
| `Registries.Daemon.PopIfSame` | src/mcp_broker/daemon.py:592-597 | the key is removed exactly when it still holds the stopped object |
| `Registries.RunsKeepInv` | src/mcp_broker/daemon.py:511-602 | over every interleaving: each client is registered under one key or has a recorded fate, and never both |
| `Registries.EachCallClientHasOneFate` | src/mcp_broker/daemon_upstreams.py:256-323 | a per-call client is exactly one of registered, removed after a returned stop, or claimed by shutdown |
| `Registries.FailedStopKeepsRegistered` | src/mcp_broker/daemon_upstreams.py:292-315 | a stop that raises, or comes after shutdown claimed the client, changes nothing |
| `Registries.GetIsRegistered` | src/mcp_broker/daemon_upstreams.py:325-354 | over every run: a request for a client of a known key returns the registered one and changes nothing; for another it registers a new client under that key alone; after shutdown began it returns none |
| `Registries.CallGetsItsOwn` | src/mcp_broker/daemon_upstreams.py:256-279 | over every run: a call gets a client that no one had before, registered under its id and the upstream's name |
| `Registries.EndCallIsExact` | src/mcp_broker/daemon_upstreams.py:281-323 | over every run: after the end of a call its id is registered exactly if it was before and the stop raised or the entry is another; all other entries stay, and the client counts as returned exactly when it was registered there and its stop did not raise |
| `Registries.EachClientHasOneFate` | src/mcp_broker/daemon.py:560-602 | any other client is registered or gone, never both; a shared client is reaped only when seen exited |
| `Registries.FatesAreFinal` | src/mcp_broker/daemon.py:511-602 | whatever follows, a client that is gone stays gone and for the reason recorded then: it is never registered again and no other reason replaces or joins it |
| `Registries.JanitorEvictsOnlyWhatItStopped` | src/mcp_broker/daemon.py:577-597 | whatever happened during the unlocked stop, the janitor removes the very object it stopped and never a replacement |
| `Registries.JanitorRoundIff` | src/mcp_broker/daemon.py:560-602 | over every run: one round of the janitor takes a client out, and nothing else, exactly if its stop returned and its process had exited, or it is a per-session one idle for its timeout or longer, which is not zero |
| `Registries.RegistriesStayEmptyAfterShutdown` | src/mcp_broker/daemon.py:511-518 | once shutdown began both registries are empty in every later state |
| `Registries.SessionStopIsExact` | src/mcp_broker/daemon.py:532-546 | session stop removes exactly the keys of that session |
| `Projection.BuildPathTree` | src/mcp_broker/catalog.py:509-515 | the walk by reference builds the same trie as inserting the paths one by one |
| `Projection.TrieIsPrefixClosure` | src/mcp_broker/catalog.py:509-515 | the trie's nodes are exactly the prefixes of the paths |
| `Projection.TrieDependsOnSetOnly` | src/mcp_broker/catalog.py:509-515 | order and repetition of paths do not matter |
| `Projection.LeavesAreMaximalPaths` | src/mcp_broker/catalog.py:509-515 | the trie's leaves are exactly the paths that are not proper prefixes of others |
| `Projection.ProjectShows` | src/mcp_broker/catalog.py:489-506 | what is visible at any location of the result: what the input shows there if selected and within the cap, and nothing else |
| `Projection.SurvivesIffNearMaximalPath` | src/mcp_broker/catalog.py:489-515 | a key path survives exactly if it is a prefix of, or extends, a maximal path |
| `Projection.KeepsSubtreeIffMaximal` | src/mcp_broker/catalog.py:476-485 | of every value, all that it holds at and below a requested path survives the projection, as the docstring says of all paths, exactly when that path is maximal |
| `Projection.LongerPathNarrows` | src/mcp_broker/catalog.py:476-485 | a value of which `["a"]` keeps all and `["a", "a.b"]` does not |
| `Projection.ProjectIsSelectThenTruncate` | src/mcp_broker/catalog.py:471-506 | projection is selection followed by truncation of every list |
| `Projection.ProjectTwice` | src/mcp_broker/catalog.py:489-506 | two successive caps act as their minimum |
| `Projection.ProjectIdempotent` | src/mcp_broker/catalog.py:471-506 | projecting again changes nothing |
| `Projection.ProjectAllUncapped` | src/mcp_broker/catalog.py:471-506 | without paths and cap the value is returned unchanged |
| `Projection.ListsBounded` | src/mcp_broker/catalog.py:489-495 | every list at every depth is within the cap |
| `AffectedTests.TransitiveDependencyTests` | scripts/select_affected_tests.py:113-144 | the multi-pass loop ends and selects exactly the test files whose imports reach the changed module through non-test modules, cycles included |
| `AffectedTests.ClosedCoversChains` | scripts/select_affected_tests.py:113-144 | a set closed under one pass contains everything an import chain of any length reaches |
| `AffectedTests.SelectionIgnoresOrder` | scripts/select_affected_tests.py:113-144 | the selection depends only on the set of files |
| `StdioSession.DeliveredLinesAreTheStream` | src/mcp_broker/upstream_stdio.py:523-544 | if delivered lines and buffer make up the bytes, the lines are the first lines of the stream, and all of them when the buffer holds no newline |
| `StdioSession.ChunkingDoesNotMatter` | src/mcp_broker/upstream_stdio.py:530-544 | the next line is the same however its bytes were cut into chunks |
| `StdioSession.Session.ReadStdoutLine` | src/mcp_broker/upstream_stdio.py:523-544 | the read loop takes lines, and fails or times out, as its specification does under every script |
| `StdioSession.Session.ReadResponseFrom` | src/mcp_broker/upstream_stdio.py:493-521 | the response loop skips notifications, answers upstream requests and treats a failed elicitation as a timeout |
| `StdioSession.Session.InitializeUpstream` | src/mcp_broker/upstream_stdio.py:435-461 | the flag is set after initialize was written, its result accepted and the notification written, in that order |
| `StdioSession.Session.Start` | src/mcp_broker/upstream_stdio.py:283-325 | a running process is kept; an exited one is counted and replaced; flag and buffer are reset only once the metadata is written |
| `StdioSession.Session.JsonrpcRequestLocked` | src/mcp_broker/upstream_stdio.py:368-402 | the whole request, with its stop on changed capabilities, its early and its late initialization |
| `StdioSession.Session.Request` | src/mcp_broker/upstream_stdio.py:100-171 | a timed-out request resets the session |
| `StdioSession.JsonrpcRequestKeeps` | src/mcp_broker/upstream_stdio.py:368-481 | a result answers the last request written, which went to the process spawned last, by a line delivered after that write; the line was written by that process if the buffer held nothing stale before or the process was spawned for the request, whether the former one was gone, stopped or found exited; when initialized, strict or listing, that process was handshaken with these capabilities exactly if it is not one left unrecorded with the flag up |
| `StdioSession.ResultsAreOwnIff` | src/mcp_broker/upstream_stdio.py:302-317 | whatever happens next and whatever lines decode to, a result of the next request is written by the process it went to, if and only if the request starts another process or the buffer holds nothing older than the running one |
| `StdioSession.OwnLineIff` | src/mcp_broker/upstream_stdio.py:523-544 | by count of bytes: the last line is the process's own exactly if what it wrote ends in that line and the buffer |
| `StdioSession.RunsKeepValid` | src/mcp_broker/upstream_stdio.py:283-544 | in every run, concurrent stops included: framing is kept, no id is used twice, only an unrecorded process inherits a buffer, and the flag of a running process is right unless it was spawned with the flag up and left unrecorded |
| `StdioSession.RunsDeliverTheStream` | src/mcp_broker/upstream_stdio.py:523-544 | in every run the delivered lines are the first lines of what was left over from before the spawn and what was read since; of a process that was recorded nothing was left over |
| `StdioSession.FlagMeansHandshakeIff` | src/mcp_broker/upstream_stdio.py:302-317 | in every run an initialized flag means a completed handshake with the running process and these capabilities, unless, and exactly unless, the process was spawned with the flag up and its metadata file could not be written |
| `StdioSession.PredecessorAnswersForItsSuccessor` | src/mcp_broker/upstream_stdio.py:302-317 | a run in which a process counts as initialized to which nothing was ever written, and the result of the next listing is a line its predecessor left behind, while it wrote nothing itself |
| `StdioSession.TimeoutMakesAFreshStart` | src/mcp_broker/upstream_stdio.py:260-271 | after a timeout, from any state and under any script, the next result is written by another process, and if the session is initialized then, after a handshake with that process |
| `StdioSession.HealthyCallReturns` | src/mcp_broker/upstream_stdio.py:368-481 | over a healthy initialized process one matching response is returned as the result |
| `StdioSession.LateInitializationReturns` | src/mcp_broker/upstream_stdio.py:390-402 | an uninitialized session whose call is refused for want of a handshake: after refusal, accepted initialize and written notification the call is sent once more, and its answer under the third id is the result, over a process now handshaken |
| `StdioSession.EarlyInitializationReturns` | src/mcp_broker/upstream_stdio.py:381-389 | a listing, or a call under strict initialization, initializes first and returns the answer under the second id |
| `StdioSession.RefusalIsFollowedByInitialize` | src/mcp_broker/upstream_stdio.py:390-394 | from every state: the answer to a request is followed by an initialize to the same process exactly if it says it is not initialized and the session is not; after any other answer nothing more is written |
| `StdioSession.ResponseAfterInterlude` | src/mcp_broker/upstream_stdio.py:493-521 | however many notifications and requests of its own the upstream sends first, the response is the first line that is neither, and each such request got one reply |
| `StdioSession.WhatTimesOut` | src/mcp_broker/upstream_stdio.py:523-544 | a request of a running, initialized session whose upstream sends no line first times out, and then resets the session and counts one restart, exactly if it stays silent while its process lives; an exited process, an end of its output or a failing read fails it and changes none of that |
| `StdioSession.UnansweredDemandTimesOut` | src/mcp_broker/upstream_stdio.py:511-517 | an elicitation of the upstream that the host does not answer ends the request with a timeout, which resets the session |
| `StdioSession.BrokenRequestFails` | src/mcp_broker/upstream_stdio.py:483-491 | a request that cannot be written fails, and does not time out |
| `Pointers.Store.WriteJsonAtomic` | src/mcp_broker/deployments.py:221-228 | temporary file and replacement, cut short anywhere |
| `Deployments.RecordDeployment` | src/mcp_broker/deployments.py:46-85 | cut short after any number of steps, the files are those of the plan: record, active, previous if one was active, journal |
| `Deployments.RollBack` | src/mcp_broker/deployments.py:87-103 | the same for rollback; raised exactly when a pointer or the previous record is missing, and done exactly when neither refused nor cut short |
| `Deployments.RemovePartialFiles` | src/mcp_broker/deployments.py:166-174 | partial files are removed in sorted order, as far as the crash allows |
| `Deployments.RecoverFiles` | src/mcp_broker/deployments.py:105-134 | the same for recover; raised exactly when refused and all partial files were removed, and done exactly when neither refused nor cut short |
| `Deployments.EventKeepsLinks` | src/mcp_broker/deployments.py:46-134 | at every crash point of stage, rollback and recover each pointer names an existing record with the same id |
| `Deployments.CutLeavesOnePartial` | src/mcp_broker/deployments.py:72-103 | at every crash point of a stage or an accepted rollback: the file whose replacement was begun is the only partial one added, the files finished are none, and the journal has the entry, naming the deployment active before, exactly when nothing was cut |
| `Deployments.RunsStayLinked` | src/mcp_broker/deployments.py:46-134 | and so in every run in which no record file is lost |
| `Deployments.PointersNeverMislead` | src/mcp_broker/deployments.py:46-134 | even after records were lost, the file at a pointer's path is the record with its id or is missing |
| `Deployments.RecoverRepairs` | src/mcp_broker/deployments.py:105-134 | recover raises exactly when the active record is gone and none is left; otherwise active is linked, the latest record if it had to be replaced, and a second recover writes nothing |
| `Deployments.CutRecoverCanBeRepeated` | src/mcp_broker/deployments.py:105-134 | a recover cut short and run again ends with the pointers of one that was not |
| `Deployments.RollbackUndoesStage` | src/mcp_broker/deployments.py:46-103 | after a stage over an active deployment, rollback is accepted exactly when the former record exists, and puts it back |
| `Deployments.TwoRollbacksRestore` | src/mcp_broker/deployments.py:87-103 | two rollbacks restore both pointers |
| `Deployments.StageDropsFormerBetweenWrites` | src/mcp_broker/deployments.py:72-75 | at which crash points of a stage no pointer names the formerly active deployment |
| `Deployments.RollbackDropsFormerBetweenWrites` | src/mcp_broker/deployments.py:91-92 | the same for rollback |
| `Deployments.StageIsDecidedByItsPointer` | src/mcp_broker/deployments.py:46-134 | a stage cut short and recovered ends with the new deployment or the former one, decided by the write of `active.json` |
| `Deployments.RepeatedStageMatchesIff` | src/mcp_broker/deployments.py:46-85 | repeating a cut stage ends like an uncut one exactly when its active pointer was not yet written, or previous would name the same record |
| `RuntimeInstall.RecordInstalledRuntime` | src/mcp_broker/runtime_install.py:44-75 | cut short after any number of steps, the files are those of the plan: manifest, previous, active; a version outside the safe pattern writes nothing |
| `RuntimeInstall.RuntimeIdIsSafe` | src/mcp_broker/runtime_install.py:86-99 | whatever the digest, the id made of a safe version is a safe path component itself |
| `RuntimeInstall.RuntimeIdShowsDigest` | src/mcp_broker/runtime_install.py:86-88 | of a safe version and a digest of letters and digits the id is the version, a dash and the digest's last twelve characters |
| `RuntimeInstall.RuntimeIdsEqualIff` | src/mcp_broker/runtime_install.py:86-88 | so two such ids are equal exactly when versions and last twelve characters are |
| `RuntimeInstall.RuntimeIdEndsInNoDash` | src/mcp_broker/runtime_install.py:86-88 | of a safe version and any digest: the id is the sanitized version, dash and last twelve characters, less exactly the dashes at the end |
| `RuntimeInstall.UnsafeRunIsOneDash` | src/mcp_broker/runtime_install.py:86-88 | sanitizing turns each maximal run of unsafe characters into one dash and keeps the rest |
| `RuntimeInstall.FormerStaysNamed` | src/mcp_broker/runtime_install.py:68-72 | the formerly active runtime is named by active or previous at every intermediate step |
| `RuntimeInstall.RepeatedInstallMatches` | src/mcp_broker/runtime_install.py:44-75 | an install cut short leaves active alone and can be repeated as if never tried |
| `RuntimeInstall.SplitsOnce` | src/mcp_broker/runtime_install.py:77-99 | the path of a manifest determines version and id |
| `RuntimeInstall.RunsStayLinked` | src/mcp_broker/runtime_install.py:44-75 | in every run of installs with any versions and digests, crashes included, both pointers name an existing manifest with their id |
| `Routing.AdvertisedSplitsBackIff` | src/mcp_broker/tool_namespace.py:299-304 | an advertised name splits back into prefix and tool exactly when the separator starts nowhere earlier, which the prefix alone decides |
| `Routing.CleanPrefixesNeverClash` | src/mcp_broker/tool_namespace.py:273-288 | different clean prefixes never produce the same advertised name |
| `Routing.PrefixesWithSeparatorsClash` | src/mcp_broker/tool_namespace.py:269-285 | prefixes that hold the separator can |
| `Routing.BuildPrefixIndex` | src/mcp_broker/tool_namespace.py:239-253 | raises exactly when two visible upstreams share a prefix; otherwise maps each visible prefix to its upstream and nothing else |
| `Routing.AdvertiseTools` | src/mcp_broker/tool_namespace.py:255-271 | raises exactly on a denied mutating upstream or a nameless tool; otherwise qualifies every tool in order |
| `Routing.AdvertiseAllTools` | src/mcp_broker/tool_namespace.py:273-288 | raises exactly on a fault, a repeated name or an exceeded budget; otherwise lists every visible tool in order |
| `Routing.NoFaultsIff` | src/mcp_broker/tool_namespace.py:255-288 | what a fault is, in the fields of upstream and profile: a nameless tool, or a mutating upstream that the profile does not allow, of an enabled upstream that the profile shows |
| `Routing.AdvertisedNamesAre` | src/mcp_broker/tool_namespace.py:273-288 | the names listed are exactly those of visible upstreams' reported tools under their prefixes |
| `Routing.ResolveCallRoute` | src/mcp_broker/broker.py:145-193 | the loop takes the first upstream with the prefix and judges it: disabled, profile denied, mutating not allowed, in that order |
| `Routing.CallIsDecidedByFirstBearer` | src/mcp_broker/broker.py:145-193 | a call under a clean prefix is decided by the first upstream that sets this prefix, or sets none and has it for a name: disabled, denied to the profile, mutating and not allowed, in that order, or routed to it |
| `Routing.CallsWithoutUpstream` | src/mcp_broker/broker.py:145-165 | the errors of a name without separator, without tool, or under a prefix that no upstream bears |
| `Routing.AdvertisedNamesResolveIff` | src/mcp_broker/tool_namespace.py:299-311 | every advertised name resolves back to its upstream and tool exactly when its prefix is clean |
| `Routing.AdvertisedNamesAreCallableIff` | src/mcp_broker/broker.py:145-193 | every advertised name is callable under the same profile exactly when its prefix is clean and no earlier upstream, visible or not, has it |
| `Routing.GloballyUniquePrefixesRoute` | src/mcp_broker/broker.py:145-165 | with globally unique prefixes both resolvers send a clean advertised name home |
| `Routing.AcceptedConfigBuildsRouters` | src/mcp_broker/config.py:452-463 | a configuration that passes validation builds a router for each profile |
| `Routing.AcceptedConfigCanAdvertiseUncallable` | src/mcp_broker/config.py:452-463 | but can advertise a tool that the call route refuses |
| `Routing.CatalogUpstreams` | src/mcp_broker/catalog.py:246-283 | the catalog lists exactly the upstreams the call gate admits, narrowed to the owners of the tool name looked up if there are any |
| `Routing.OwnsIff` | src/mcp_broker/catalog.py:450-452 | an upstream owns exactly the names made of its prefix, the separator and any text |
| `Routing.StatusUpstreams` | src/mcp_broker/catalog.py:174-213 | status lists the disabled upstreams and exactly those the call gate admits, exposed exactly if admitted, each with its own health and state |
| `Routing.ExposedIsCallableIff` | src/mcp_broker/catalog.py:204-213 | a tool name under an upstream's prefix reaches it exactly when status exposes it, its prefix is clean, and no earlier upstream, visible or not, has that prefix |
| `Routing.CallsGoToOwners` | src/mcp_broker/catalog.py:246-283 | a routed call goes to an upstream that owns the name, is exposed by status and is listed when the name is looked up in the catalog; all that is listed then owns the name, and owners with clean prefixes have the same prefix |
| `ConfigRender.StripTables` | src/mcp_broker/config_render.py:269-299 | the line loop with its four variables computes the specification's scan |
| `ConfigRender.StripTrailingSeparators` | src/mcp_broker/config_render.py:311-319 | the nested loops leave the longest prefix that ends in neither blank nor separator |
| `ConfigRender.RenderCodexToml` | src/mcp_broker/config_render.py:246-266 | the preserved lines, a blank and the broker's tables, or the tables alone |
| `ConfigRender.PreservedIsOutside` | src/mcp_broker/config_render.py:269-319 | separators and blanks apart, exactly the lines outside MCP tables and legacy comment blocks are preserved, in order |
| `ConfigRender.PreservedIsStaying` | src/mcp_broker/config_render.py:269-319 | line by line: a separator and the blanks under it are preserved unless a separator or marker comes next, every other line exactly if it is outside, and trailing decoration goes |
| `ConfigRender.RenderTwiceKeepsSignificants` | src/mcp_broker/config_render.py:246-319 | rendering again keeps every significant line |
| `ConfigRender.RenderTwiceIff` | src/mcp_broker/config_render.py:274-293 | and is the identity exactly when no two preserved separators have only blanks between |
| `ConfigRender.SeparatorsMeetExample` | src/mcp_broker/config_render.py:281-293 | a file for which it is not |
| `MutationGate.VerifiedRows` | src/mcp_broker/mutation_carveouts.py:114-134 | grouping and hashing keep exactly the rows bound to the current hash of an existing file, and report every other path |
| `MutationGate.ExcusableSurvivors` | src/mcp_broker/mutation_carveouts.py:102-150 | the names excused are exactly those of survivors that a current equivalence row for their file excuses by callable |
| `MutationGate.ExcusedNamesAre` | src/mcp_broker/mutation_carveouts.py:136-150 | in the fields of row and result: a name is excused exactly if some survivor has it for whose file and callable there is an equivalence row with the current hash |
| `MutationGate.NoProblemsIff` | src/mcp_broker/mutation_carveouts.py:120-134 | no row is reported unusable exactly when every row's file exists with the recorded hash |
| `MutationGate.ProblemsAre` | src/mcp_broker/mutation_carveouts.py:120-134 | one complaint for each file with rows that is missing, or whose contents changed, with the number of rows that do not match |
| `MutationGate.FilterMutantResults` | src/mcp_broker/mutation_stats.py:127-144 | keeps exactly the selected results in order and reports exactly the patterns that select nothing |
| `MutationGate.Tally` | src/mcp_broker/mutation_stats.py:218-243 | counts per status, excused counts per status, and a total equal to the number of results |
| `MutationGate.BlockedFileSummary` | src/mcp_broker/mutation_stats.py:147-187 | a file is listed exactly when it has unexcused results of a failing status, with their number and the number of its unexcused results |
| `MutationGate.BuildReport` | src/mcp_broker/mutation_stats.py:203-261 | every field of the report in terms of the results and the registry |
| `MutationGate.BlockedFilesAre` | src/mcp_broker/mutation_stats.py:147-187 | by counting results: the files listed are those with failing results that no excuse covers, each with their number and the number of all that no excuse covers |
| `MutationGate.BlockingCountsMatchFiles` | src/mcp_broker/mutation_stats.py:71-76 | blocking counts are never negative, and all zero exactly when no file is listed as blocked |
| `MutationGate.PassesIff` | src/mcp_broker/mutation_stats.py:318-367 | the gate passes exactly when every pattern selected something, every row is current, there are results, every failing result's name is excused and the effective score suffices |
| `MutationGate.PassesInPlainTerms` | src/mcp_broker/mutation_stats.py:318-367 | the same by counting results: those killed, caught or excused must make up the share asked for |
| `MutationGate.PassesAtHundredIff` | src/mcp_broker/mutation_stats.py:318-367 | with the default settings the gate passes exactly if all patterns match, all rows are current, there are results, each is killed, caught or excused by a row of its own, and no two excused ones share a name |
| `MutationGate.EffectiveScoreBounded` | src/mcp_broker/mutation_stats.py:78-87 | the effective score lies between 0 and 100, and at 100 every result is accounted for |
| `MutationGate.PerfectScoreIsSound` | src/mcp_broker/mutation_stats.py:284-300 | with the default minimum score a pass means every result was killed, caught, or excused by a current row of its own |
| `MutationGate.UnsharedNamesAreSound` | src/mcp_broker/mutation_stats.py:318-367 | the same for any minimum score when names are unique and fail statuses are the default |
| `MutationGate.TrustworthyIff` | src/mcp_broker/mutation_stats.py:318-367 | exactly when a pass can be trusted for every outcome and registry |

## Left out

- Validation of layers and secret references, the digest of the effective document: one check per key. The
  nested mapping that the source mutates below `target` is threaded as a value, returned and stored back;
  layers are values, as the source copies each one before merging it.
- Python's equality of `1` and `True` inside configuration values: values compare structurally.
- Encoding and decoding of JSON, TOML, YAML and timestamps, hashing and UUIDs: abstract values, parameters,
  or fresh ids as an explicit guard of the event that takes one.
- Sockets, `select`, signals, process spawning and sampling: events or scripts.
- Relay: capability and mode checks of `request`, the byte-level loop below `_read_reply`, the size limits,
  and the order of closing notices, which are sent in id order here. Prompts of one connection may be read
  in any order, which is more than a socket allows.
- State store: the audit log, identifier and tenant validation, and the zero-padded form of tokens.
- Registries: HTTP clients, auth repair statistics, the key a client is kept under (by mode and session), and
  whether a process is still alive.
- Response projection: the shape of a call result around the projected value, and normalization of the
  request.
- Affected tests: reading the repository and parsing imports; the files with their imports are given.
- Stdio session: health snapshots, events, stderr draining and the steps inside `stop`.
- Deployments: bundle validation and record contents besides the id; equal modification times.
- Runtime installation: the checks that entrypoint and digest are not blank, manifest contents besides the
  id, and symbolic links below the versions directory.
- Routing: narrowing of the catalog by query, call locks and response validation.
- Config rendering: splitting text into lines, trailing white space, quoting, the JSON formats, backups.
- Mutation gate: parsing of the registry document, the name pattern of mutants, fnmatch patterns, exit code
  tables, examples and order in the blocked-file list. Scores are real numbers, not floats.
- The process supervisor, HTTP upstreams, command lines, doctor and release scripts: plumbing or simple guards.
