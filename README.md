# GroundSeg core, modelled in Dafny

GroundSeg runs Urbit piers on a host. It optionally exposes them through
StarTram, a relay reached over a WireGuard tunnel. This project models the
parts of its back end and web client that keep shared state consistent.

- **Status tree.** Every worker publishes progress into one nested
  dictionary, and clients receive it as a snapshot. `system_broadcast` and
  `urbit_broadcast` write into it. Both the websocket utilities and the
  newer broadcaster bound to the application state do this.
- **Form store.** A per-session store of wizard answers, with the set-like
  toggle of the `ships` item.
- **Relay matching.** Deciding which relay endpoint belongs to which pier
  (`services_exist`, and the port matching of `register_urbit`).
- **Session tokens.** The session-token checks.
- **Fleet bookkeeping.** The configuration document with its defaults and
  legacy migration, the pier table and its port allocation, the network
  decision for a pier, and the anchor/endpoint/update-mode switches.
- **StarTram workflows.** Register, stop, start, restart and change endpoint.
  Each collaborator (relay API, WireGuard, MinIO and pier containers) is an
  oracle: its answers are parameters, and its calls are recorded in order in
  a trace of events. Every announcement is published into the status tree
  through the websocket utilities and is recorded in the same trace.
  Each workflow method is proved equal to a specification function of the
  configuration and the oracle's answers. Lemmas about those functions state
  what is announced, in which order, and which configuration writes happen.
- **Pier command whitelist.** The `ws_command_urbit` whitelist.
- **Client store.** The client's copy of the snapshot. `deepMerge` merges a
  broadcast into it; `removeActivity` and `updateMetadata` change it
  directly.

Modules, one per concern:

| module | file |
|---|---|
| `Json` | JSON values and Python truthiness |
| `Strings` | `split`, `join` and substring containment |
| `Relay` | relay endpoints |
| `SystemConfig` | the host configuration document |
| `BroadcastTree` | the status tree and its two publish operations |
| `Broadcaster` | api/broadcaster.py |
| `WsUtil` | api_backup/ws_util.py |
| `Fleet` | api/orchestrator.py |
| `Startram` | api_backup/orchestrator.py |
| `SocketStore` | ui/src/lib/stores/websocket.js |

Where the written design and the code disagree, the model follows the code:

- `startram_change_endpoint` leaves the configuration untouched when the
  tunnel fails to stop. It does not clear the registration flag.
- It deletes services only for piers the relay lists, and only when the
  relay reported any subdomains.
- `register_urbit` tests presence by substring containment, not by the
  exact label. `Fleet.RequestsServicesAsWritten` is that decision as coded;
  `Fleet.RequestsServices` is the exact-label rule it evidently means (see
  Findings).

## Model

| member | source | states |
|---|---|---|
| Json.EnsureDict | api_backup/ws_util.py:79-92 | the guard `not d.get(k) or not isinstance(d[k], dict)` keeps a non-empty dict and otherwise resets the slot to `{}`; every other key is kept |
| Json.EnsureDictKeepsDictionary | api_backup/ws_util.py:85-86 | resetting a slot that already holds a dict (possibly empty) leaves the dictionary as it was |
| Json.RemoveFirst | api_backup/ws_util.py:136 | `list.remove(x)` drops exactly one occurrence of `x`: the length falls by one and the multiset loses one `x` |
| Strings.JoinSplit | api/orchestrator.py:341 | `sep.join(s.split(sep)) == s` |
| Strings.SplitFirst | api/orchestrator.py:341 | a dot-free first label splits off as the first field |
| Relay.PierSegmentOf | api_backup/ws_util.py:173 | for `seg.d1.d2` with dot-free labels, `url.split('.')[-3]` exists and is `seg` |
| BroadcastTree.SystemPublish | api_backup/ws_util.py:43-71 | a category outside {system, updates} fails and leaves the tree unchanged; a success holds `info` at `[category][module][action]` |
| BroadcastTree.SystemPublishFailure | api_backup/ws_util.py:52-69 | a whitelisted publish fails exactly when the module slot is truthy but not a dict, and a failed publish changes nothing |
| BroadcastTree.SystemPublishFrame | api_backup/ws_util.py:52-65 | a successful publish changes only its leaf: other categories, other modules and (when the module was a dict) other actions are kept |
| BroadcastTree.SystemPublishLastWriteWins | api/broadcaster.py:30 | publishing twice to the same leaf is the same as publishing only the second value |
| BroadcastTree.StringModuleSlotBlocksPublish | api/broadcaster.py:24-25 | on a tree whose `system.startram` holds a string, the publish as written fails and writes nothing |
| BroadcastTree.SystemPublishIntended | api/broadcaster.py:22-36 | with the module guard on the module slot, a publish succeeds exactly for whitelisted categories and holds `info` at its leaf |
| BroadcastTree.SystemPublishAsIntended | api/broadcaster.py:24-25 | away from a blocked module slot, the publish as written equals the intended one |
| BroadcastTree.StringModuleSlotIntended | api/broadcaster.py:24-25 | the intended publish writes the leaf on the tree that blocks the one as written |
| BroadcastTree.SystemPublishKeepsShape | api/broadcaster.py:15-30 | on a well-shaped tree (dicts down to string leaves) a whitelisted publish always succeeds and keeps the tree well shaped |
| BroadcastTree.UrbitPublish | api_backup/ws_util.py:74-102 | with no whitelist, the result holds `info` at `['urbits'][patp][module][action]`, with every level a dict |
| BroadcastTree.UrbitPublishFrame | api/broadcaster.py:44-62 | sibling categories, piers, modules and actions held in dicts survive a per-pier publish |
| BroadcastTree.UrbitPublishLastWriteWins | api/broadcaster.py:62 | the second of two per-pier writes to one leaf wins |
| BroadcastTree.UrbitPublishKeepsShape | api/broadcaster.py:44-62 | a per-pier publish of a string keeps a well-shaped tree well shaped |
| BroadcastTree.StatusTree.SystemBroadcast | api_backup/ws_util.py:43-71 | the in-place walk returns and leaves exactly what `SystemPublish` gives |
| BroadcastTree.StatusTree.UrbitBroadcast | api_backup/ws_util.py:74-102 | the in-place walk always returns True and leaves what `UrbitPublish` gives |
| Broadcaster.Broadcaster.constructor | api/broadcaster.py:3-5 | the publisher's structure is the very object `state['broadcast']` |
| Broadcaster.Broadcaster.SystemBroadcast | api/broadcaster.py:8-36 | publishes into the shared tree; the state keeps pointing at it, so the change is visible through `state` |
| Broadcaster.Broadcaster.UrbitBroadcast | api/broadcaster.py:39-67 | the same for per-pier publishes |
| WsUtil.MakeActivity | api_backup/ws_util.py:27-40 | the reply is `{activity: {id: {message, status_code}}}`, with `token` added exactly when it is truthy |
| WsUtil.PierNames | api_backup/ws_util.py:128 | the copy of `config['piers']` lists the same names in the same order |
| WsUtil.EditItem | api_backup/ws_util.py:125-140 | only the edited item changes; the edit raises exactly when `ships` holds a non-empty list and the value is neither a string nor a list |
| WsUtil.ShipsEditCases | api_backup/ws_util.py:125-138 | "all" stores the pier list, "none" stores `[]`, another string keeps the item, a list is stored when no list exists and toggled into an existing one |
| WsUtil.RemoveFirstNoDup | api_backup/ws_util.py:136 | on a list without repetitions, `remove(x)` removes exactly `x` |
| WsUtil.ToggleNoDup | api_backup/ws_util.py:134-138 | one toggle step keeps the list repetition-free and flips only the membership of `x` |
| WsUtil.ToggleAllMembership | api_backup/ws_util.py:134-138 | after toggling distinct values, a pier is listed exactly when it was in the old list or in the values, but not both |
| WsUtil.Grab | api_backup/ws_util.py:143-147 | the stored value, or None when the session, template or item is missing |
| WsUtil.EditThenGrab | api_backup/ws_util.py:139-145 | editing an ordinary item and reading it back returns the value written |
| WsUtil.ServicesFailure | api_backup/ws_util.py:172-173 | `services_exist` raises exactly when some hostname has fewer than three labels |
| WsUtil.ServicesKeys | api_backup/ws_util.py:165-171 | a successful answer has exactly the five service keys |
| WsUtil.ServicesEntry | api_backup/ws_util.py:172-182 | each service is True (or the last matching status, when registered) iff some endpoint's label at index -3 is the pier and its type is the service, and False otherwise |
| WsUtil.MoonIsNotPlanet | api_backup/ws_util.py:173-175 | exact-label matching never attributes a moon's endpoint to its planet |
| WsUtil.CheckTokenHash | api_backup/ws_util.py:222-232 | true iff the id is in either partition and the token's digest equals that record's hash |
| WsUtil.CheckTokenHashIsLocal | api_backup/ws_util.py:222-232 | the answer depends only on the records stored under the id |
| WsUtil.CheckTokenContent | api_backup/ws_util.py:252-264 | false on an address mismatch, a User-Agent mismatch, or `created + 30 days <= now`; true otherwise |
| WsUtil.TokenExpiryIsFinal | api_backup/ws_util.py:259-262 | once a token is rejected for its age, it stays rejected later |
| WsUtil.TokenExpiryWindow | api_backup/ws_util.py:259-262 | a token is accepted 29 days after creation and rejected 31 days after |
| WsUtil.WSUtil.constructor | api_backup/ws_util.py:12-20 | the utilities share the status tree and the configuration object, and the form store starts empty |
| WsUtil.WSUtil.SystemBroadcast | api_backup/ws_util.py:43-71 | publishes into the shared tree as `SystemPublish` says |
| WsUtil.WSUtil.UrbitBroadcast | api_backup/ws_util.py:74-102 | publishes into the shared tree as `UrbitPublish` says |
| WsUtil.WSUtil.EditForm | api_backup/ws_util.py:109-140 | the loops leave the form store as `EditItem` says, only under `(sid, template)`; `ok` is false exactly where Python raises |
| WsUtil.WSUtil.DeleteForm | api_backup/ws_util.py:150-155 | as written, the assignment into the missing `self.form` raises, so it always answers False and changes nothing |
| WsUtil.WSUtil.DeleteFormIntended | api_backup/ws_util.py:150-155 | on `self.forms`, the template of an existing session is emptied (True, and every item then reads None); a missing session answers False and changes nothing |
| WsUtil.WSUtil.ServicesExist | api_backup/ws_util.py:163-182 | the loop over the endpoints returns exactly `Services` |
| Fleet.CheckConfigField | api/orchestrator.py:81-84 | the field is added with the default only when absent; no existing value is overwritten and nothing else is added |
| Fleet.WithDefaults | api/orchestrator.py:63-68 | all six fields are present, missing ones with their defaults, and stored values are kept |
| Fleet.MigrateRegKey | api/orchestrator.py:73-76 | a legacy `reg_key` that is not None sets `wgRegistered` and is cleared; otherwise the document is unchanged |
| Fleet.LoadConfig | api/orchestrator.py:55-78 | `gsVersion` is the current version, the six fields are present and no non-null `reg_key` is left (the key stays, set to None) |
| Fleet.LoadConfigKeys | api/orchestrator.py:63-70 | the six fields are present, and nothing else is added to the stored document except `gsVersion` |
| Fleet.LoadConfigKeepsValues | api/orchestrator.py:55-78 | every stored value other than `gsVersion`, `wgRegistered` and `reg_key` is kept |
| Fleet.LoadConfigDefaults | api/orchestrator.py:63-68 | an absent field comes back with its default |
| Fleet.LoadConfigMigration | api/orchestrator.py:72-76 | `wgRegistered` and `reg_key` after the migration, in both cases |
| Fleet.WithDefaultsComplete | api/orchestrator.py:63-68 | a document that already holds the six fields gets no defaults |
| Fleet.LoadConfigIdempotent | api/orchestrator.py:55-84 | loading a loaded document gives it back |
| Fleet.NextUpdateMode | api/orchestrator.py:526-529 | 'auto' becomes 'off'; anything else becomes 'auto' |
| Fleet.UpdateModeInvolution | api/orchestrator.py:526-529 | toggling twice restores either mode |
| Fleet.NetworkTarget | api/orchestrator.py:228-230 | 'wireguard' iff the pier is on 'none', the device is registered and the tunnel runs; 'none' otherwise |
| Fleet.WireguardPierGoesLocal | api/orchestrator.py:228-230 | a tunnel pier is always sent back to 'none' |
| Fleet.PubUrlDropsFirstLabel | api/orchestrator.py:341 | the public domain is the endpoint URL without its first label |
| Fleet.LastPortMeaning | api/orchestrator.py:342-351 | the port found for a hostname is None iff no endpoint has it, and otherwise that of the last endpoint that has it |
| Fleet.HostsDistinct | api/orchestrator.py:343-350 | the four hostname patterns never coincide, so each endpoint feeds at most one field |
| Fleet.AssignWireguardPorts | api/orchestrator.py:334-353 | every field comes from the last endpoint matching its exact pattern, stays None otherwise, and `url` is set together with the http port |
| Fleet.SubstringCheckShadowsPier | api/orchestrator.py:323-327 | as written, a planet counts as registered through its moon's endpoint, although no endpoint is the planet's |
| Fleet.RequestsServicesOwnHosts | api/orchestrator.py:321-331 | with the exact-label rule, a pier whose own http hostname is listed is not requested again |
| Fleet.RequestRulesDisagreeOnMoon | api/orchestrator.py:323-330 | on a planet whose moon alone is listed, the rule as written requests nothing while the exact-label rule requests the planet's services |
| Fleet.Orchestrator.constructor | api/orchestrator.py:25-46 | the configuration is `load_config`'s; a truthy `firstBoot` stores the new key pair and is set to False; the tunnel and the buckets are up exactly when the device is registered; no piers yet |
| Fleet.Orchestrator.GetOpenUrbitPorts | api/orchestrator.py:288-298 | the http port exceeds 8080 and every existing http port, and is one more than 8080 or than an existing one; the same for ames from 34343 |
| Fleet.Orchestrator.AddUrbit | api/orchestrator.py:301-303 | the pier is appended to `config['piers']` and entered in `_urbits`; a `piers` that is not a list changes nothing |
| Fleet.Orchestrator.BootNewUrbit | api/orchestrator.py:267-285 | no name is refused with no change; otherwise the pier is added exactly when `piers` is a list, other piers are kept, its ports exceed every existing pier's, and distinct ports stay distinct |
| Fleet.Orchestrator.RemoveUrbit | api/orchestrator.py:586-598 | a missing pier changes nothing; otherwise it leaves `_urbits` and `_minios`, and leaves `config['piers']` exactly when listed there |
| Fleet.Orchestrator.TogglePierNetwork | api/orchestrator.py:222-236 | 200 with the new network recorded when the container accepts it; 400 and no change otherwise |
| Fleet.Orchestrator.ToggleAnchorOff | api/orchestrator.py:460-467 | every tunnel pier is toggled and each other pier is kept; the buckets and the tunnel are stopped; always 200 |
| Fleet.Orchestrator.ChangeWireguardUrl | api/orchestrator.py:514-522 | the endpoint is recorded, registration cleared and the new key pair stored, with nothing else in the configuration changed; the tunnel and buckets are off; the set of piers is kept and each pier becomes its `toggle_anchor_off` outcome (a tunnel pier goes to 'none' unless its container refused, every other pier is unchanged); always 200 |
| Fleet.Orchestrator.SetUpdateMode | api/orchestrator.py:525-535 | the update mode is toggled as `NextUpdateMode` says; always 200 |
| Fleet.AddThenRemovePier | api/orchestrator.py:586-598 | adding a pier that is not listed and removing it restores `config['piers']` |
| Startram.NetworkOf | api_backup/orchestrator.py:273 | the network is known exactly for piers present in `_urbits` |
| Startram.StopTogglesTunnelPiers | api_backup/orchestrator.py:241-246 | `startram_stop` asks exactly the tunnel piers to go local and publishes nothing |
| Startram.StartPierEventsMeaning | api_backup/orchestrator.py:263-264 | one bucket start per pier, in order |
| Startram.ReplayKeepsShape | api_backup/ws_util.py:43-102 | a run of announcements keeps a well-shaped status tree well shaped |
| Startram.ReplayShowsLastAnnouncement | api_backup/ws_util.py:43-71 | after any run from a well-shaped tree, `system.startram.<action>` holds the last value announced under that action |
| Startram.StopStartLeaveTree | api_backup/orchestrator.py:238-266 | stop and start leave the status tree as they found it |
| Startram.StopStartSilent | api_backup/orchestrator.py:238-266 | stop and start publish nothing on the status tree |
| Startram.PierRequestsMeaning | api_backup/orchestrator.py:319-335 | a pier's urbit service is requested iff its endpoints parse and web or ames is missing; its MinIO service iff one of the three MinIO services is missing (unless the urbit request raised); a failed `services_exist` requests nothing |
| Startram.ReadinessOfServices | api_backup/orchestrator.py:343-351 | the urbit half is ready iff web and ames are "ok", the MinIO half iff all three MinIO services are "ok" |
| Startram.UrbitServiceNames | api_backup/orchestrator.py:348 | of the five services, exactly the two urbit ones contain "urbit" |
| Startram.ServiceReadiness | api_backup/orchestrator.py:344-351 | the loop over the answer, in any key order, computes both readiness flags |
| Startram.RoundDone | api_backup/orchestrator.py:342-358 | a poll round never shrinks `done` and only adds listed piers |
| Startram.RoundJoins | api_backup/orchestrator.py:342-358 | a pier joins `done` iff, in a round that reaches it, both halves are ready |
| Startram.RoundFailure | api_backup/orchestrator.py:342-343 | once `services_exist` raised for some pier, the rest of the round does nothing |
| Startram.PollEndsWhenAllDone | api_backup/orchestrator.py:339 | the loop ends only with `len(done) == len(piers)`, and `done` only grows |
| Startram.PollPublishesNoSystem | api_backup/orchestrator.py:352-355 | polling publishes only per-pier readiness, never under `system` |
| Startram.InIgnored | api_backup/orchestrator.py:362-367 | a missing list counts as `[]`, a list is searched for the pier, and a number or boolean raises |
| Startram.ToggleRunMeaning | api_backup/orchestrator.py:365-370 | without errors each pier is toggled once, in order: remote when on the tunnel or not in the form's list, local otherwise |
| Startram.ToggleRunFailure | api_backup/orchestrator.py:365-368 | once the access loop raised, the remaining piers are not toggled |
| Startram.SuccessHeadAnnouncements | api_backup/orchestrator.py:294-313 | the tunnel phase announces registering, updating, start-wg, start-mc, success |
| Startram.TunnelSuccess | api_backup/orchestrator.py:295-313 | when the tunnel phase succeeds, `wgRegistered` and `wgOn` are both set |
| Startram.FinishSuccess | api_backup/orchestrator.py:316-384 | after all-success polling and toggling, the services phase ends with the final "yes" |
| Startram.RegisterSuccessShape | api_backup/orchestrator.py:292-384 | the all-success run is the tunnel phase, the requests, the polls, the toggles, then "yes" |
| Startram.SuccessAnnouncements | api_backup/orchestrator.py:294-384 | requests, polls and toggles add nothing to the `register` announcements |
| Startram.RegisterSuccessAnnouncements | api_backup/orchestrator.py:294-384 | the all-success path announces registering, updating, start-wg, start-mc, success, then "yes" |
| Startram.RegisterEarlyFailure | api_backup/orchestrator.py:371-384 | a failure before the tunnel is up announces `failure\n<reason>` with the matching reason, then "no" |
| Startram.RegisterConfigOrder | api_backup/orchestrator.py:300-308 | `wgRegistered` is saved right after the wg0.conf update and before the tunnel starts; `wgOn` only after it started |
| Startram.RemoteSet | api_backup/orchestrator.py:271-274 | the remote set is exactly the listed piers on the tunnel; a listed pier missing from `_urbits` raises |
| Startram.RestartMiddleAnnouncements | api_backup/orchestrator.py:275-282 | between "stopping" and "success", only "starting" is announced, and only after a successful stop |
| Startram.RestartAnnouncements | api_backup/orchestrator.py:268-285 | restart announces initializing and stopping, then starting only after a successful stop, then success and "" |
| Startram.AnyListedMeaning | api_backup/orchestrator.py:187-188 | `True in res.values()` holds iff one of the pier's five services is listed |
| Startram.DeleteEventsMeaning | api_backup/orchestrator.py:186-194 | a pier's services are deleted iff it is listed in `config['piers']` and the relay lists one of its services |
| Startram.DeleteEventsFailure | api_backup/orchestrator.py:186-188 | once `services_exist` raised for a pier, no later pier is deleted |
| Startram.ChangeEndpointConfig | api_backup/orchestrator.py:181-203 | the endpoint is replaced and both tunnel flags cleared iff the stop succeeded and the removal did not raise; the configuration is unchanged after a failed stop; a run that raises while removing services leaves only `wgOn` cleared, and an IndexError aborts the run |
| Startram.ChangeEndpointAnnouncements | api_backup/orchestrator.py:178-213 | stopping, then (after a successful stop) rm-services only when the relay reported subdomains, reset-pubkey, changing, updating, success; "" last |
| Startram.EndpointTailAnnouncements | api_backup/orchestrator.py:196-213 | the tail announces reset-pubkey, changing, updating, success, "" |
| Startram.RestartClearsStatus | api_backup/orchestrator.py:283-285 | a restart always ends with `system.startram.restart` cleared to "" |
| Startram.ChangeEndpointClearsStatus | api_backup/orchestrator.py:211-212 | a change of endpoint that did not raise ends with `system.startram.endpoint` cleared to "" |
| Startram.RegisterShowsOutcome | api_backup/orchestrator.py:383-384 | a registration that finished leaves its `registered` answer ("yes" or "no") in `system.startram.register` |
| Startram.UrbitCommand | api_backup/orchestrator.py:107-148 | a module outside {meld, minio, container, access} is rejected with "<module> is not a valid module"; a whitelisted one succeeds |
| Startram.UrbitCommandTasks | api_backup/orchestrator.py:122-146 | each job is started by exactly one module/action pair, for the pier it names |
| Startram.Orchestrator.Say | api_backup/orchestrator.py:289-290 | a `system_broadcast` under `system.startram` is recorded as one announcement |
| Startram.Orchestrator.PierSay | api_backup/orchestrator.py:353 | an `urbit_broadcast` under the pier's `startram` module is recorded as one announcement |
| Startram.Orchestrator.StartramStop | api_backup/orchestrator.py:238-253 | returns the tunnel's answer, records the calls in order, and clears `wgOn` (and saves) only on success |
| Startram.Orchestrator.StartramStart | api_backup/orchestrator.py:255-266 | returns the tunnel's answer and, only on success, sets `wgOn`, saves, starts the MinIO client and each bucket |
| Startram.Orchestrator.RemotePiers | api_backup/orchestrator.py:271-274 | the loop computes `RemoteSet` |
| Startram.Orchestrator.ToggleRemote | api_backup/orchestrator.py:281-282 | each remote pier is toggled to remote exactly once |
| Startram.Orchestrator.StopStartToggle | api_backup/orchestrator.py:275-282 | the start runs only after a successful stop, and the remote piers are toggled only when both succeed |
| Startram.Orchestrator.StartramRestart | api_backup/orchestrator.py:268-285 | crashes right after "initializing" iff a listed pier is missing; otherwise records `RestartEvents` and toggles the remote set only when both stop and start succeeded |
| Startram.Orchestrator.DeleteServices | api_backup/orchestrator.py:186-194 | records exactly `DeleteEvents` and reports whether it raised |
| Startram.Orchestrator.RemoveServices | api_backup/orchestrator.py:183-194 | the rm-services announcement and the deletes happen only when the relay reported subdomains |
| Startram.Orchestrator.ChangeEndpoint | api_backup/orchestrator.py:195-211 | the new endpoint is written and both tunnel flags cleared, with the tail's calls in order |
| Startram.Orchestrator.StartramChangeEndpoint | api_backup/orchestrator.py:178-213 | the run equals `ChangeEndpointRun` on the form's `startram.endpoint` value |
| Startram.Orchestrator.RequestServices | api_backup/orchestrator.py:317-335 | the request loop records exactly `RequestEvents` |
| Startram.Orchestrator.RequestPier | api_backup/orchestrator.py:320-335 | one pier's requests are exactly `PierRequests` |
| Startram.Orchestrator.PollRound | api_backup/orchestrator.py:342-358 | one pass records exactly `Round`'s events and returns its `done` and crash |
| Startram.Orchestrator.AnnounceReady | api_backup/orchestrator.py:352-355 | the ready urbit half is announced before the ready MinIO half, and an unready half is not announced |
| Startram.Orchestrator.PollServices | api_backup/orchestrator.py:338-359 | the polling loop is exactly `Poll` |
| Startram.Orchestrator.ToggleAccess | api_backup/orchestrator.py:362-370 | the access loop is exactly `ToggleRun` |
| Startram.Orchestrator.RegisterTunnel | api_backup/orchestrator.py:292-314 | the tunnel phase is exactly `TunnelRun` |
| Startram.Orchestrator.RegisterStarted | api_backup/orchestrator.py:305-314 | once the tunnel is up, `wgOn` is set and saved and the MinIO client started, announcing start-wg, start-mc and success; nothing fails |
| Startram.Orchestrator.RegisterServices | api_backup/orchestrator.py:316-370 | the service phase is exactly `ServicesRun`; a missing `subdomains` raises before any request |
| Startram.Orchestrator.PollAndToggleAccess | api_backup/orchestrator.py:337-370 | the access loop runs only after polling ended with every pier ready |
| Startram.Orchestrator.RegisterAfterTunnel | api_backup/orchestrator.py:316-384 | after the tunnel phase the run is exactly `RegisterFinish`, ending with "yes" |
| Startram.Orchestrator.ReportFailure | api_backup/orchestrator.py:379-384 | announces `failure\n<reason>` and then `registered` |
| Startram.Orchestrator.StartramRegister | api_backup/orchestrator.py:287-384 | the run equals `RegisterRun` on the form's `startram.ships` value |
| SocketStore.Merged | ui/src/lib/stores/websocket.js:106-118 | the merged tree keeps the target where the source says nothing, adds no key outside the two, and carries every leaf of the source at its path |
| SocketStore.CoveredIsFixed | ui/src/lib/stores/websocket.js:107-117 | a target that already carries the source is left as it is |
| SocketStore.MergeIdempotent | ui/src/lib/stores/websocket.js:81-87 | applying the same broadcast twice is applying it once |
| SocketStore.MergeIntoEmpty | ui/src/lib/stores/websocket.js:109-115 | merging into `{}` rebuilds the source exactly |
| SocketStore.MergeFailsAt | ui/src/lib/stores/websocket.js:108-112 | a null, array or primitive where the source has a non-empty object makes the merge throw |
| SocketStore.DeepMerge | ui/src/lib/stores/websocket.js:106-118 | it completes iff `Mergeable`, then with `Merged`; a throw keeps the writes made before it and still leaves the target alone outside the source's keys |
| SocketStore.SocketInfo.constructor | ui/src/lib/stores/websocket.js:8-16 | the store starts with no activity, no address, not connected, no pier or system data |
| SocketStore.SocketInfo.UpdateData | ui/src/lib/stores/websocket.js:81-87 | the snapshot becomes the merge of the message, and stays an object |
| SocketStore.SocketInfo.RemoveActivity | ui/src/lib/stores/websocket.js:73-79 | only `activity[id]` is deleted and the answer is true; a missing or null activity slot throws and changes nothing |
| SocketStore.SocketInfo.UpdateMetadata | ui/src/lib/stores/websocket.js:89-104 | "address" and "connected" set that metadata field only; any other item changes nothing |

## Left out

- I/O is not modelled: files, `json.dump`/`json.load`, `JSON.parse`, logging and `console`. `load_config` takes the parsed file as a parameter, and a missing or invalid file becomes `None`.
- Threads, `sleep` and the client's `setTimeout` polling are not modelled. Calls run sequentially, in program order.
- Collaborators are oracles. This covers the relay API, the WireGuard, MinIO and pier containers, `reset_pubkey`, `get_regions`, `delete_service` and `create_service`. Their answers are parameters and their calls are trace events. `reset_pubkey`'s new keys and the resets of `startram_api.url`, `region_data` and `anchor_data` are recorded as calls only. In api/orchestrator.py the keys are given as parameters.
- `hash_string` (SHA-256) is a function parameter. `datetime.strptime` becomes integer seconds, and 30 days is 2592000 seconds.
- `keyfile_encrypt`, `keyfile_decrypt` and `new_secret_string` are not modelled: they are cryptography and randomness.
- `startram_cancel`, `ws_command_forms`, `ws_command_updates`, `handleActivity`, `send` and `connect` are not modelled. They are outside the modelled core, or only timers and I/O around it.
- Startram.Orchestrator.StartramRegister: the polling loop of the source never ends if the relay never reports every pier ready. The model takes the relay's successive answers as a finite list and reports `StillPolling` when the list runs out.
- Startram.Poll: the poll rounds take the relay's endpoint list as the oracle's answer, so a `KeyError` on `anchor_data['subdomains']` inside the loop is not modelled.
- Piers with the same name listed twice in `config['piers']` never satisfy `len(done) == len(piers)`. The model inherits this: such a run can only stall.
- Startram.Orchestrator.Say: states only the recorded announcement. What it does to the status tree is the contract of `WsUtil.WSUtil.SystemBroadcast`, which it calls, and is not restated.
- Startram.Orchestrator.PierSay: the same, with `WsUtil.WSUtil.UrbitBroadcast`.
- Startram.Orchestrator.ToggleAccess: `access_toggle`'s effect on the pier's network in `_urbits` is not modelled; it is a recorded call.
- Startram.Orchestrator.ToggleRemote: a Python set's iteration order is not modelled. The toggles come in some order, and each remote pier appears once.
- Fleet.Orchestrator.ToggleAnchorOff: dictionary order is not modelled either. Each pier's outcome does not depend on the order.
- WsUtil.Toggle: membership and `remove` compare JSON values structurally. Python's `in` and `list.remove` use `==`, under which `1 == True`, so a `ships` list mixing numbers and booleans toggles differently; pier names are strings, where the two agree.
- WsUtil.EditItem: a dict value toggled into an existing `ships` list is reported as a failure; Python would iterate its keys.
- Fleet.Orchestrator.AddUrbit: models only the bookkeeping. The `register_urbit`, `save_config` and container start it then calls are not modelled; `register_urbit`'s decisions are `RequestsServicesAsWritten` (as coded), `RequestsServices` (as intended) and `AssignWireguardPorts`.
- Fleet.Orchestrator.constructor: `load_urbits` is not modelled, so the pier table starts empty; the keys `wg` generates are parameters.
- `WSUtil.authorized_clients` and `unauthorized_clients` are not modelled: the core never reads them.
- SocketStore.SocketInfo.UpdateData: takes the message already parsed into an object. `JSON.parse` results that are not objects are not modelled: arrays and strings (which `for … in` would walk by index), numbers and null.
- SocketStore.DeepMerge: a merge into an array or a primitive is reported as a TypeError. In JavaScript, writing a property of an array succeeds but leaves the JSON view unchanged. The recursion works on values, so aliasing between nested objects of the snapshot is not modelled.
- SocketStore.SocketInfo.RemoveActivity: an activity slot holding an array or a primitive is reported as a TypeError. JavaScript's `delete` on those silently does nothing for most keys.
- SocketStore.SocketInfo.UpdateMetadata: a non-object metadata slot is reported as a TypeError in every case. Svelte's subscriber notifications are not modelled.

## Findings

| source | as written | input that shows it | evidently intended | confidence | as-written member | corrected member |
|---|---|---|---|---|---|---|
| api/orchestrator.py:323-327 | `patp in ep['url']` counts a pier as already registered when its name occurs anywhere in an endpoint hostname | pier `sampel-palnet` with only its moon's endpoint `doznec-sampel-palnet.x.io` listed: its services are never requested | compare the hostname's pier label exactly, as `services_exist` does | not executed | Fleet.RequestRulesDisagreeOnMoon | Fleet.RequestsServicesOwnHosts |
| api_backup/ws_util.py:150-155 | `delete_form` assigns into `self.form`, which does not exist, so it always answers False and never clears anything | any session and template | empty `self.forms[sid][template]` and answer True | not executed | WsUtil.WSUtil.DeleteForm | WsUtil.WSUtil.DeleteFormIntended |
| api/broadcaster.py:24-25 | the module guard tests `isinstance(self.structure[category], dict)` instead of the module slot, so a truthy non-dict module value is kept and the leaf write raises | `{"system": {"startram": "x"}}` with a publish to `system.startram.register` | reset a non-dict module slot to `{}` like the other levels | not executed | BroadcastTree.StringModuleSlotBlocksPublish | BroadcastTree.SystemPublishIntended |
