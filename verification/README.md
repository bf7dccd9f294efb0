# Sysplane: a verified model

Sysplane runs tools on many machines. Agents keep a message stream open to a
center instance, directly or through a proxy; center looks a host up in its
registry, sends a tool request on the stream that leads to it, and matches the
reply to the waiting call by a request id. Streams break and come back at any
time. This project models that machinery in Dafny and proves what it promises
over every interleaving.

How it is laid out:

- **The tunnel.** `Registry`, `RouterMachine`, `Center`, `Proxy` and `Agent` are
  labelled transition systems: one event per atomic action of the program
  (a lock section, a map operation, a send, a receive, a timeout). `System` joins
  them by ordered queues that may lose their tail at any time, and proves
  end-to-end correlation; `SystemRuns` lifts the invariants of the parts to runs
  of the whole, `Recovery` follows a heartbeat from a node through a reconnected
  proxy into center's registry, and `RequestPaths` shows that each request is in
  one place at a time, so that a proxy's reader and an agent meet its id at most
  once. Against these safety results, `Delivery` and `RelayedDelivery` show that
  calls get through: from every reachable state in which center routes a host to
  its agent, directly or through a proxy, some continuation returns to the call
  exactly what the handler found, and another cancels the work. `RouterService`,
  `CenterService`, `ProxyService`, `Reconnect` and the classes in `Registry` and
  `Agent` are the imperative code; each method's contract says which steps of the
  machine it takes, and the machine lemmas say what those steps keep.
- **The invocation service.** `InvocationLife` is the machine of lock sections,
  `InvocationService` the class with its five maps, `Invocations` the fan-out,
  deduplication and summary, `RequestIds` the ids under which calls travel.
  `Templates`, `TemplateService` and `Schemas` are the command templates, and
  `Forwarding` is one tool call over several center instances.
- **Algorithms.** `FileSearch`, `FileRead`, `PathGuard`, `Paging` and `NodeList`
  are loops proved against what their results must be; `LineScan` is the scanner
  of lines, `SentText` what a receiver reads of bytes sent as text, `Listings` the
  lists ordered by age. `Text`, `Sorting`, `Seqs` and `Division` are shared
  vocabulary.

Where the program does something other than its comments say, the model follows
the program, and the difference is stated as a lemma:

- A built-in action on several nodes sends every request under the one
  invocation id. `RequestIds.FanOutIdsDifferIff` says exactly when the ids of a
  fan-out differ, `RouterMachine.OpenIsSafeIffIdFree` that a free id is necessary
  and sufficient for isolation, and `RequestIds.BuiltinFanOutCrosses` gives the
  interleaving in which an answer reaches the wrong call.
- When storing a forwarded registration fails, center unregisters by hostname,
  which removes the record of whoever registered the name last
  (`Center.FailedPersistDropsIff`, `Center.FailedPersistDropsNewer`).
- The re-registration that runs in the acknowledgement callback comes before the
  stream is published, so it announces nobody (`Reconnect.RunOnce`); recovery
  comes from the next heartbeats (`Recovery.HeartbeatsRecoverAllHosts`). The
  backoff delay is never reset after a connection that worked.
- A rejected patch of a template is stored up to the check that failed and is in
  no audit event (`Templates.FailureIsNoOpIff`, `Templates.TimeoutsSurviveIff`).
- A read cut at a line limit calls itself truncated also when the file has
  exactly that many lines (`FileRead.TruncatedIsExactIff`).
- An invocation normalises the action it is given, so it never reaches a template
  by a name with a colon or outer spaces; the direct execution on one node looks
  the name up as it is and does (`Templates.InvokedByNameIff`).
- The receiving end of a hop between centers sends to hosts that a local call
  would refuse (`Forwarding.HopAgreesIff`).
- Invocations, templates and audit events are listed by age alone, from a map and
  with an unstable sort. Following the cursors shows every item once if and only
  if no two are of the same age (`Listings.TraversalIsCompleteIff`); at a tie an
  item may be on no page (`Listings.TieLosesAnItem`).
- The log of tool calls has one row to an id, so a built-in action on several
  nodes leaves one row for all of them (`Forwarding.SharedIdSharesRow`).
- A range that cuts a character is sent as other text than the bytes it stands
  for; reading a file range by range gives its text exactly when no range does
  (`FileRead.ReadAll`).

## Model

| member | source | states |
|---|---|---|
| `System.Correlation` | internal/sysplane-center/router/router.go:41-97 | in every run with ids not used twice, whatever streams break and reconnect, what a call to host h got back was found by a handler run of that id, tool and arguments on an agent that had registered as h, or is the refusal of that very id by a proxy that did not hold h; no call ends with an unexpected kind of reply |
| `System.StepKeeps` | internal/sysplane-proxy/tunnel/downstream.go:161-203 | every step of center, proxies, agents and streams keeps all queued messages, routes and outcomes backed by issued requests and real handler runs |
| `System.RouterKeeps` | internal/sysplane-center/router/router.go:49-95 | a step of the router keeps every slot and outcome backed by a handler run when the reply delivered is |
| `System.ProxyKeeps` | internal/sysplane-proxy/tunnel/downstream.go:136-203 | a proxy passes on only backed replies and issued requests, and only on streams that lead to the target |
| `System.AgentKeeps` | internal/sysplane-agent/agent.go:238-284 | an agent replies only with what a recorded handler run of that request found |
| `Delivery.TransmitSends` | internal/sysplane-center/router/router.go:53-65 | in any state, transmitting a call whose stream is there puts exactly its request at the end of that stream and nothing on any other |
| `Delivery.DirectDelivery` | internal/sysplane-center/router/router.go:41-97 | from every state in which center routes h over a served stream that agent a is on, a call under a free id has a continuation that ends it with exactly what the handler of its request found: the JSON text, the tool's own error, or the tool being unknown; whatever was on the stream before |
| `Delivery.DirectCancel` | internal/sysplane-center/router/router.go:71-83 | and one in which its deadline passes or its caller gives up, the call returns with that, and the context of its work on the agent is canceled |
| `Delivery.Connects` | internal/sysplane-center/tunnel_svc.go:54-117 | an agent that dials center and is let in is told so and is routed over the new stream |
| `Delivery.IsRefused` | internal/sysplane-center/tunnel_svc.go:65-113 | a node without a valid token, or whose store fails, is told so, and center keeps nothing of it |
| `Delivery.HeartbeatIsAcked` | internal/sysplane-center/tunnel_svc.go:155-164 | a heartbeat is answered with its own timestamp |
| `RelayedDelivery.RelayedDelivery` | internal/sysplane-proxy/tunnel/downstream.go:161-203 | the same through a proxy, from every reachable state, whatever is on the two streams and whatever the proxy's reader is about: the request passes, the reply comes back, and the call ends with exactly what the handler found |
| `RelayedDelivery.RelayedCancel` | internal/sysplane-proxy/tunnel/downstream.go:207-224 | and the cancellation follows the request through the proxy to the work |
| `RelayedDelivery.RefusalReturns` | internal/sysplane-proxy/tunnel/downstream.go:178-196 | a call whose target the proxy does not hold can come back with the proxy's refusal, and no agent is asked |
| `RelayedDelivery.Links` | internal/sysplane-proxy/tunnel/downstream.go:59-122 | an agent that dials a connected proxy is announced to center and reachable from there through both streams |
| `RelayedDelivery.ProxyDials` | internal/pkg/stream/dialer.go:99-154 | a proxy that dials center and is let in is on its new stream |
| `SystemRuns.RoutesLiveEverywhere` | internal/sysplane-center/tunnel_svc.go:115-146 | in every reachable state of the whole system each record of center and of every proxy routes to a handler that has not finished its cleanup, and cancel functions on agents belong to unfinished requests |
| `SystemRuns.CallsAreIsolated` | internal/sysplane-center/router/router.go:49-51 | in every run of the whole system without id reuse the pending map is exactly the calls in flight, and each call stands where it would with the router to itself |
| `SystemRuns.CenterRuns` | internal/sysplane-center/tunnel_svc.go:148-240 | what center does in a run of the system is a run of the center machine |
| `SystemRuns.StepIs` | internal/sysplane-proxy/tunnel/downstream.go:131-174 | each step of the system is a step of at most one of center, proxies and agents, which changes as its machine says, while every other party stays as it is |
| `Recovery.HeartbeatsRecoverAllHosts` | internal/sysplane-proxy/tunnel/downstream.go:146-160 | over runs of the whole system, from any reachable state in which center serves the proxy's new stream: when the stream stays up and is read to its end, each host of the proxy's registry sends one heartbeat, its store does not fail and its route is not cleaned up, center knows them all; new ones over the new stream on the proxy's name and their own path, known ones with route and registration time kept, each online unless a check of center's came too late after the last word of it, and nobody over a stream cleaned up before |
| `Recovery.BeatIsHeard` | internal/sysplane-proxy/tunnel/downstream.go:137-160 | a heartbeat that a proxy reads in the run leads to center reading the host's announcement off the proxy's stream |
| `Recovery.TellsOnly` | internal/sysplane-center/tunnel_svc.go:179-211 | while a host does not register anew at the proxy, all that center reads of it on the stream is the proxy's record of it |
| `Recovery.StepFlows` | internal/pkg/stream/dialer.go:88-97 | every step lets the stream from a proxy to center flow: center takes from its front, the proxy adds at its end, and nobody else touches it |
| `RequestPaths.RequestsArriveOnce` | internal/sysplane-proxy/tunnel/downstream.go:178-203 | in every run of the system with fresh ids a proxy's reader and an agent meet each id at most once, and each makes a run of its own machine |
| `RequestPaths.StepPlaced` | internal/sysplane-proxy/tunnel/downstream.go:198-203 | every step keeps each request in one place at a time, on one stream, at one reader or at one agent |
| `RequestPaths.EntriesLeaveOnce` | internal/sysplane-proxy/tunnel/downstream.go:161-171 | in system runs each id is stored at most once at each proxy and leaves by exactly one of reply, failed forward, cancel and clear, or is still there |
| `RequestPaths.NoLateCancel` | internal/sysplane-proxy/tunnel/downstream.go:198-221 | in system runs no proxy claims a cancel for an id whose reply it has taken up after its request went down, or a second one for the same id |
| `RequestPaths.CancelsAreExact` | internal/sysplane-agent/agent.go:239-245 | in system runs a cancel at an agent cancels the context of exactly the unfinished request of its id |
| `RouterMachine.SlotsStayExact` | internal/sysplane-center/router/router.go:49-51 | with ids distinct in flight the pending keys are exactly the ids of unfinished calls, and a filled slot holds a reply to its own id |
| `RouterMachine.Isolation` | internal/sysplane-center/router/router.go:126-137 | with ids distinct in flight, late, duplicate and unknown replies and all other calls change no call's outcome |
| `RouterMachine.OpenIsSafeIffIdFree` | internal/sysplane-center/router/router.go:49-51 | opening a call leaves all calls isolated in every continuation if and only if its id is free at that moment |
| `RouterMachine.OverlapStrands` | internal/sysplane-center/router/router.go:50-51 | with a taken id there is a continuation in which the later call loses its reply, because the earlier one's deferred delete removes its slot |
| `RouterMachine.SharedIdCrossesAnswers` | internal/sysplane-center/admin/service.go:699 | two calls under one id: whichever node answers, the later call takes the answer and the earlier keeps waiting |
| `RouterService.Router.Send` | internal/sysplane-center/router/router.go:41-97 | a call with its deliveries in between: the first reply to its id decides unless the deadline does, the slot is gone afterwards, the other slots hold what was delivered to them, and a cancel goes out exactly when no reply was taken |
| `RouterService.Router.Deliver` | internal/sysplane-center/router/router.go:126-137 | fills the slot of the id if it is waiting and empty, never blocks and touches nothing else |
| `RouterService.SendIsARun` | internal/sysplane-center/router/router.go:49-96 | the method's outcome is that of its steps in the router machine |
| `RouterService.MultiIdsDiffer` | internal/sysplane-center/router/router.go:115 | the ids of a fan-out differ exactly when the hostnames do |
| `RouterService.DistinctIdsAreSafe` | internal/sysplane-center/router/router.go:49-51 | a run whose calls carry different ids never opens a taken id |
| `RouterService.FanOutIsIsolated` | internal/sysplane-center/router/router.go:108-122 | each call of a fan-out to distinct hosts ends as it would alone, under every interleaving |
| `RouterService.SendMulti` | internal/sysplane-center/router/router.go:108-122 | entry i of the result holds target i's name and the outcome of target i's own request, in every interleaving of completions |
| `Registry.Registry.Register` | internal/sysplane-center/registry/registry.go:47-58 | adds or replaces the record of its hostname and sets the gauge to the online count |
| `Registry.Registry.Unregister` | internal/sysplane-center/registry/registry.go:61-65 | removes the record of the hostname and leaves the gauge as it was |
| `Registry.Registry.UnregisterByStream` | internal/sysplane-center/registry/registry.go:69-80 | removes exactly the records routed over the stream and returns their hosts, each once |
| `Registry.Registry.All` | internal/sysplane-center/registry/registry.go:90-99 | a snapshot with every record exactly once |
| `Registry.Registry.UpdateHeartbeat` | internal/sysplane-center/registry/registry.go:115-122 | refreshes time and status of the named record in place, nothing else |
| `Registry.Registry.CheckOffline` | internal/sysplane-center/registry/registry.go:143-172 | marks exactly the stale online records offline in place, reports each of them once, and sets the gauge |
| `Registry.CheckIsExact` | internal/sysplane-center/registry/registry.go:147-152 | after a check every online record is fresh, the notices are exactly the switches from online to offline, and nothing else changed |
| `Registry.KeysAreHostnames` | internal/sysplane-center/registry/registry.go:36-50 | record keys equal hostnames in every run |
| `Registry.BetweenNoticesARevival` | internal/sysplane-center/registry/registry.go:115-172 | between two offline notices for one host there is a heartbeat or registration of that host |
| `Registry.HeardIsOnlineIff` | internal/sysplane-center/registry/registry.go:115-172 | a known host that beats, or a host that registers, keeps its record and is online at that time, and as long as nothing removes it or hears of it again it stays online exactly until a check comes later than the timeout, which is the one check that reports it |
| `Registry.StaysUp` | internal/sysplane-center/registry/registry.go:115-172 | a host that keeps being heard of is never reported while no check comes later than the timeout after the first time |
| `Center.RoutesStayLive` | internal/sysplane-center/tunnel_svc.go:115-146 | in every reachable state each record routes to a handler that has not finished its cleanup |
| `Center.DeadRoutesNeverReturn` | internal/sysplane-center/tunnel_svc.go:128-146 | once a handler has cleaned up no record routes to its stream, now or later |
| `Center.CleanupIsExact` | internal/sysplane-center/tunnel_svc.go:119-131 | cleanup takes the hosts on its stream and no others, so a host registered again on a newer stream keeps its record |
| `Center.LostIffTakenAway` | internal/sysplane-center/tunnel_svc.go:119-146 | a known host leaves the registry in a step if and only if its store fails or the stream it is routed over is cleaned up |
| `Center.FailedPersistDropsIff` | internal/sysplane-center/tunnel_svc.go:211-236 | whatever happens between the registration of a forwarded host and the failure of its store, the failure drops another handler's record if and only if that handler was the last to register the name and has not lost it since |
| `Center.FailedPersistAlone` | internal/sysplane-center/tunnel_svc.go:217-236 | it does so when no other registration of the host comes in between |
| `Center.FailedPersistDropsNewer` | internal/sysplane-center/tunnel_svc.go:211-236 | an interleaving in which it removes a newer direct registration |
| `Center.Recovery` | internal/sysplane-center/tunnel_svc.go:179-237 | center's half: of the hosts whose registrations it reads on a stream it knows all in the end unless a store of theirs fails or their route is cleaned up; absent ones are on that stream with the announced path, known ones keep route and registration time, and each is online unless a check came too late after the last word of it |
| `Center.KnownHostsStay` | internal/sysplane-center/tunnel_svc.go:183-195 | a host nobody removes or registers anew keeps its record but for heartbeat time and status |
| `Center.RegistrationIsRecorded` | internal/sysplane-center/tunnel_svc.go:76-110 | a registration publishes what the node says, online as of now and over its stream, and touches no other record |
| `Center.OnlineIffNotOverdue` | internal/sysplane-center/tunnel_svc.go:154-183 | in every run of center a known host is online if and only if no check has come too late after center last heard of it, by its own heartbeat, through a proxy or by registering |
| `Center.HeardIsOnlineIff` | internal/sysplane-center/tunnel_svc.go:179-183 | a host that center reads of in the run is online at its end by the same condition, whatever it was before |
| `Center.CenterRunsTheRouter` | internal/sysplane-center/tunnel_svc.go:175-178 | what center's router does in any run of center is a run of the router machine |
| `Center.CallsAreIsolated` | internal/sysplane-center/tunnel_svc.go:148-178 | whatever the streams and the registry do, calls with free ids are isolated and the pending map is exact |
| `CenterService.TunnelServer.Connect` | internal/sysplane-center/tunnel_svc.go:54-240 | registry, replies delivered and messages sent are exactly those of the handler's actions in the center machine, and no record routes over the stream afterwards |
| `CenterService.TunnelServer.HandleMessage` | internal/sysplane-center/tunnel_svc.go:150-238 | one turn of the receive loop, on the registry, the pending slots and the wire |
| `CenterService.TunnelServer.HandleForwarded` | internal/sysplane-center/tunnel_svc.go:179-237 | a forwarded registration refreshes a known host and adds an unknown one over this stream, undone when the store fails |
| `CenterService.OneMessage` | internal/sysplane-center/tunnel_svc.go:154-238 | a turn of the loop is the machine's receive, add and persist actions |
| `Proxy.RoutesStayLive` | internal/sysplane-proxy/tunnel/downstream.go:93-129 | in every reachable state of a proxy each record routes to a handler that has not finished its cleanup |
| `Proxy.EachEntryLeavesOnce` | internal/sysplane-proxy/tunnel/downstream.go:161-171 | with distinct ids each id is stored at most once and leaves by exactly one of reply, failed forward, cancel or clear, or is still there |
| `Proxy.NoCancelAfterReply` | internal/sysplane-proxy/tunnel/downstream.go:198-221 | no cancel is claimed for an id whose reply was taken up, because the entry is stored before the request goes down |
| `Proxy.OneClaimPerId` | internal/sysplane-proxy/tunnel/downstream.go:212-221 | at most one cancel is claimed per id |
| `Proxy.ClearsForget` | internal/sysplane-proxy/tunnel/downstream.go:230-235 | clearing the pending ids one by one forgets them all and nothing else |
| `Proxy.HeartbeatAnnounces` | internal/sysplane-proxy/tunnel/downstream.go:146-160 | one heartbeat of a serving node announces its record with the proxy's name in front of its path |
| `Proxy.OnlineIffNotOverdue` | internal/sysplane-proxy/tunnel/downstream.go:137-138 | a node of the proxy is online if and only if no check has come too late after its last heartbeat or registration |
| `ProxyService.DownstreamService.Connect` | internal/sysplane-proxy/tunnel/downstream.go:59-174 | registry, pending map, what goes down and what goes up are those of the handler's actions in the proxy machine |
| `ProxyService.DownstreamService.DeliverToolRequest` | internal/sysplane-proxy/tunnel/downstream.go:178-203 | stores before it forwards, undoes the entry when the forward fails, refuses an unknown host upstream |
| `ProxyService.DownstreamService.DeliverCancelRequest` | internal/sysplane-proxy/tunnel/downstream.go:207-224 | removes the entry and passes the cancel to the host it names, if that is still registered |
| `ProxyService.DownstreamService.ReregisterAll` | internal/sysplane-proxy/tunnel/downstream.go:230-252 | clears the pending map and announces every online host exactly once when there is a stream, nobody when there is none |
| `ProxyService.AnnouncesAll` | internal/sysplane-proxy/tunnel/downstream.go:236-252 | the announcements name every online host, no other, each once, with the proxy's name in front of the path |
| `Reconnect.RunOnce` | internal/pkg/stream/dialer.go:99-171 | one connection: the callback runs before the stream is published, so it clears the pending map and tells nobody; the stream is withdrawn at the end |
| `Reconnect.Run` | internal/pkg/stream/dialer.go:64-86 | wait k is the k-th delay plus jitter below 200 ms, one wait per failed connection |
| `Reconnect.DelayDoublesToTheCap` | internal/pkg/stream/dialer.go:65-83 | the delays double from 200 ms and stay at the cap |
| `Reconnect.ReaderAnnouncesNobody` | internal/pkg/stream/dialer.go:156-169 | what the reader of the upstream stream sends is refusals only |
| `Agent.CancelFnsHoldUnfinished` | internal/sysplane-agent/agent.go:254-260 | the cancel map holds only unfinished requests, under their own id, and is empty when all have finished |
| `Agent.CancelIsExact` | internal/sysplane-agent/agent.go:239-245 | with distinct ids a cancel reaches the context of the unfinished request of its id and touches no other |
| `Agent.ReusedIdShieldsEarlier` | internal/sysplane-agent/agent.go:254 | with a reused id a cancel goes to the later request only |
| `Agent.OneReplyEach` | internal/sysplane-agent/agent.go:262-282 | a request whose handler ends attempts exactly one reply, with its own id and what the handler found; before that none |
| `Agent.RepliesAreAnswers` | internal/sysplane-agent/agent.go:262-296 | every message the agent sends as a reply answers the id of some request with what its handler found |
| `Agent.ToolAgent.Dispatch` | internal/sysplane-agent/agent.go:238-254 | refines the machine: a cancel takes and calls the function of its id and no other, a request stores one |
| `Agent.ToolAgent.Serve` | internal/sysplane-agent/agent.go:256-283 | refines the machine: one reply, then the context is canceled and the function deleted |
| `InvocationLife.FinishedTogether` | internal/sysplane-center/admin/service.go:616-659 | in every reachable state terminal status, finishing time and results appear together, and the audit decision is "accepted" until it is exactly the final status |
| `InvocationLife.Lifecycle` | internal/sysplane-center/admin/service.go:302-318 | along every run status only moves forward and a terminal status, its times and its results never change |
| `InvocationLife.PendingRunsFirst` | internal/sysplane-center/admin/service.go:616-623 | no step takes a pending invocation past running |
| `InvocationLife.FinishedResultsAreComplete` | internal/sysplane-center/admin/service.go:644-656 | finished results name every target exactly once in increasing order and their summary is the status unless the context was canceled |
| `InvocationLife.CancelReaches` | internal/sysplane-center/admin/service.go:370-384 | a cancel request reaches the context of exactly the launched, unfinished asynchronous invocations and changes nothing else |
| `InvocationLife.CancelDecidesUntilSummary` | internal/sysplane-center/admin/service.go:645-652 | a cancellation before the summary makes the invocation canceled whatever the targets answered, a later one makes no difference |
| `InvocationLife.SameOutcomesSameSummary` | internal/sysplane-center/admin/service.go:630-646 | two runs whose targets end alike in any two orders come to the same results and status |
| `InvocationService.Service.Insert` | internal/sysplane-center/admin/service.go:285-305 | the first lock section is the machine's insert step on the five maps |
| `InvocationService.Service.Begin` | internal/sysplane-center/admin/service.go:616-623 | the second is the machine's begin step, in place |
| `InvocationService.Service.Store` | internal/sysplane-center/admin/service.go:648-656 | the third stores status, finishing time and results together |
| `InvocationService.Service.FinishAudit` | internal/sysplane-center/admin/service.go:657-658 | closes the audit event with the final status and drops the cancel function |
| `InvocationService.Service.CancelInvocation` | internal/sysplane-center/admin/service.go:370-384 | nothing for an unknown or finished invocation, the cancel function of the others |
| `InvocationService.Service.ExecuteInvocation` | internal/sysplane-center/admin/service.go:616-659 | for every order of completion the stored and returned results are those of the targets sorted by node; status and audit decision follow from the outcomes alone: succeeded if and only if there are targets and all came back with data, canceled if all were or the context was, partial if some came back, failed otherwise; the steps are a run of the machine |
| `InvocationService.Service.CreateInvocation` | internal/sysplane-center/admin/service.go:278-318 | a synchronous creation ends closed with the results of the deduplicated targets, and with the status and audit decision that their outcomes determine, by a run of the machine |
| `InvocationService.Service.CreateAsync` | internal/sysplane-center/admin/service.go:308-313 | an asynchronous creation returns the pending invocation, already in the audit and in the cancel map when its goroutine starts |
| `InvocationService.FanOutRun` | internal/sysplane-center/admin/service.go:630-641 | the completions of a fan-out are steps of the machine that the maps do not show |
| `Invocations.Dedupe` | internal/sysplane-center/admin/service.go:1448-1463 | computes the deduplicated list |
| `Invocations.DedupedIsExact` | internal/sysplane-center/admin/service.go:1448-1463 | exactly the non-empty trimmed names, none twice |
| `Invocations.DedupedKeepsOrder` | internal/sysplane-center/admin/service.go:1448-1463 | names keep the order in which they first occur |
| `Invocations.SummarizeInvocationStatus` | internal/sysplane-center/admin/service.go:1237-1261 | the counting loop gives the status that the results as a set determine, always a terminal one |
| `Invocations.SummaryIgnoresOrder` | internal/sysplane-center/admin/service.go:1237-1261 | the summary does not depend on the order of the results |
| `Invocations.FanOutIsOrderIndependent` | internal/sysplane-center/admin/service.go:625-646 | for fixed outcomes every completion order gives the same list, strictly increasing by node, one entry per target, and the same summary |
| `Invocations.ExecuteTarget` | internal/sysplane-center/admin/service.go:661-688 | a target is succeeded if and only if it came back with data, canceled if and only if its error has the code of a cancellation, and failed otherwise; the result carries the node and what came back |
| `Invocations.OutcomesDecide` | internal/sysplane-center/admin/service.go:644-646 | from the outcomes alone: one result per target; the invocation is succeeded if and only if there are targets and all came back with data, canceled if and only if all were, or its context was, partial if and only if some but not all came back, failed otherwise |
| `Sorting.AnySortAgrees` | internal/sysplane-center/admin/service.go:644 | on distinct keys any ordered permutation is the one the model computes, so the unstable library sort cannot differ |
| `RequestIds.MintedIdsDiffer` | internal/pkg/stream/dialer.go:22-24 | equal minted ids come from the same count, whatever prefix and clock |
| `RequestIds.SameTargetIdIff` | internal/sysplane-center/admin/service.go:690-721 | over all calls of all invocations two travel under one id if and only if they belong to one invocation and go to one node or are built-in |
| `RequestIds.FanOutIdsDifferIff` | internal/sysplane-center/admin/service.go:699-721 | the ids of a fan-out are pairwise different if and only if it is a template's or has at most one target |
| `RequestIds.BuiltinFanOutCrosses` | internal/sysplane-center/admin/service.go:690-704 | on two targets a built-in action has an interleaving in which the answer of whichever node replies first goes to the second call and the first keeps waiting |
| `Templates.RunKeeps` | internal/sysplane-center/admin/service.go:409-514 | after every sequence of creates and updates, successful or failed, templates and name index are mutually inverse and every template has a valid risk level and schema |
| `Templates.NamesStay` | internal/sysplane-center/admin/service.go:420-424 | a taken name belongs to its template for good |
| `Templates.CreateSucceedsIff` | internal/sysplane-center/admin/service.go:409-424 | exactly when a creation succeeds |
| `Templates.CreateStores` | internal/sysplane-center/admin/service.go:425-441 | a successful creation stores each field of the request, enables the template, indexes its name, audits it and touches no other template |
| `Templates.UpdateSucceedsIff` | internal/sysplane-center/admin/service.go:453-495 | exactly when a patch succeeds |
| `Templates.UpdateStores` | internal/sysplane-center/admin/service.go:466-514 | a successful patch stores each field it names, keeps the others, audits it and touches no other template |
| `Templates.FailureIsNoOpIff` | internal/sysplane-center/admin/service.go:466-498 | exactly when a failed operation leaves nothing behind |
| `Templates.FailureIsUnaudited` | internal/sysplane-center/admin/service.go:496-513 | an audit event is added if and only if the operation succeeds |
| `Templates.TimeoutsSurviveIff` | internal/sysplane-center/admin/service.go:484-498 | valid timeouts survive a patch if and only if it does not reach the timeout check and fail it there |
| `Templates.RejectedPatchBreaksTimeouts` | internal/sysplane-center/admin/service.go:487-498 | a rejected patch that leaves a stored template with a zero maximum |
| `Templates.TimeoutIsCappedIff` | internal/sysplane-center/admin/service.go:1224-1235 | the timeout lies between 1 and the maximum for every request if and only if the maximum is positive and the default is, or the fallback fits |
| `Templates.ResolveIsExact` | internal/sysplane-center/admin/service.go:869-881 | a reference is found if and only if some template has it as id or name |
| `Templates.FoundByNameIff` | internal/sysplane-center/admin/service.go:869-881 | a template is found under its name if and only if that is not the id of another one |
| `Templates.NameIsWritableIff` | internal/sysplane-center/admin/service.go:1220-1222 | a name can be written as an action if and only if it has no outer spaces and no colon |
| `Templates.InvokedByNameIff` | internal/sysplane-center/httpapi/server.go:181-243 | a template whose name is no other one's id is found by its name on the direct path, and by an invocation if and only if the name has no outer spaces and no colon |
| `Templates.InvokedById` | internal/sysplane-center/admin/service.go:561-596 | a minted id survives the normalisation, so every template can be invoked by its id |
| `TemplateService.Service.CreateTemplate` | internal/sysplane-center/admin/service.go:409-441 | error, index, record and audit event of a creation, as the template machine says |
| `TemplateService.Service.UpdateTemplate` | internal/sysplane-center/admin/service.go:453-514 | error, record and audit event of an update, as the template machine says, also when it fails |
| `TemplateService.TemplateRecord.Patch` | internal/sysplane-center/admin/service.go:466-499 | writes field by field in place and stops at the first failing check |
| `TemplateService.BuildTemplate` | internal/sysplane-center/admin/service.go:1051-1091 | the first failing check of a request; a template that passes is sound |
| `Schemas.ValidateSchema` | internal/sysplane-center/admin/service.go:1111-1131 | accepts exactly the schemas of an object whose properties are objects of a known type |
| `Schemas.ValidateParams` | internal/sysplane-center/admin/service.go:1133-1183 | reports a bad schema as such, otherwise accepts exactly the conforming parameters; the cast of a property never fails |
| `Schemas.SatisfiableIff` | internal/sysplane-center/admin/service.go:1133-1183 | a valid schema accepts some parameters if and only if it does not both close its properties and require a name outside them |
| `Schemas.EachTypeAccepts` | internal/sysplane-center/admin/service.go:1160-1180 | which values each declared type accepts, and that there are no other types |
| `Schemas.RequiredIsNeeded` | internal/sysplane-center/admin/service.go:1139-1149 | a listed name must be there |
| `Schemas.UnlistedIsOptional` | internal/sysplane-center/admin/service.go:1139-1149 | a name that is not listed may be left out |
| `Schemas.AdditionalIffOpen` | internal/sysplane-center/admin/service.go:1150-1160 | an undeclared name is accepted if and only if the schema does not forbid additional properties |
| `Forwarding.InvokeTool` | internal/sysplane-center/admin/service.go:822-867 | the request reaches a node at most once over all instances, at one whose registry holds the host, and that node's answer is the result; the log gets one row for the id, also over a hop; when nothing is sent the error says why |
| `Forwarding.ForwardIfNeeded` | internal/sysplane-center/ha/router_bridge.go:34-68 | when a request is forwarded, to whom, and when the database failure counts as forwarded |
| `Forwarding.HandleForward` | internal/sysplane-center/run.go:254-302 | the receiving end sends to a host it holds and never forwards again |
| `Forwarding.HopAgreesIff` | internal/sysplane-center/run.go:271-283 | a hop and a call at its other end ask the same node if and only if the record there is an online agent |
| `Forwarding.BracketWrites` | internal/sysplane-center/store/store.go:184-201 | an insert and a completion around effects of the same request leave one row, which names the first instance and holds the last reply |
| `Forwarding.SharedIdSharesRow` | internal/sysplane-center/store/store.go:184-201 | two calls one after the other under one id leave one row with the first host and the last reply |
| `FileSearch.SearchFileContent` | internal/sysplane-agent/fileops/search.go:108-162 | in the words of the request: the entries are the first `maxMatches` matching lines, or with inversion not matching ones, and those around them, each once and in order, with its text, its number from one on, and marked after, before or as a match; the count stops one beyond the limit |
| `FileSearch.SearchFile` | internal/sysplane-agent/fileops/search.go:82-172 | the search of a file fails if and only if a line reaches the size of the scanner's buffer, and otherwise searches all its lines |
| `FileSearch.ReportIsUnionOfWindows` | internal/sysplane-agent/fileops/search.go:133-161 | entry for entry what is reported are the lines of the union of the clipped windows, each once and in order, with or without numbers |
| `FileSearch.SelectedAreFirst` | internal/sysplane-agent/fileops/search.go:125-131 | no hit before a selected one is left out |
| `FileRead.JoinLines` | internal/sysplane-agent/fileops/readfile.go:175-191 | the loop joins the lines with newlines between them |
| `LineScan.JoinThenScanIff` | internal/sysplane-agent/fileops/readfile.go:175-191 | scanning the joined lines gives them back if and only if none ends in a carriage return and the last is not empty |
| `LineScan.ScanThenJoin` | internal/sysplane-agent/fileops/readfile.go:98-122 | a file without carriage returns comes back but for a final newline |
| `LineScan.ScanFailsIff` | internal/sysplane-agent/fileops/readfile.go:100-120 | a scan fails if and only if a stretch between newlines reaches the size of the buffer |
| `FileRead.ReadHead` | internal/sysplane-agent/fileops/readfile.go:98-130 | the first lines up to the smaller positive limit; a line that is too long makes it fail unless the limit comes first |
| `FileRead.TruncatedIsExactIff` | internal/sysplane-agent/fileops/readfile.go:109-116 | the flag is right if and only if the file does not have exactly as many lines as the limit |
| `FileRead.TakenAreFirst` | internal/sysplane-agent/fileops/readfile.go:105-116 | the lines read from the front are as many as there are, or as the first limit that is set allows |
| `FileRead.LastAreLast` | internal/sysplane-agent/fileops/readfile.go:136-173 | the lines read from the end are the last ones, as many as asked for or as there are |
| `FileRead.ReadTail` | internal/sysplane-agent/fileops/readfile.go:136-173 | the ring and its rotation give exactly the last lines in order, truncated exactly when there were more; any line that is too long makes it fail |
| `FileRead.ReadRange` | internal/sysplane-agent/fileops/readfile.go:193-230 | the bytes of the range clipped to the file, and whether more follow |
| `FileRead.SliceIsRange` | internal/sysplane-agent/fileops/readfile.go:193-220 | a range holds the bytes from the offset on, up to its length or the end of the file |
| `FileRead.NewlinesCut` | internal/sysplane-agent/fileops/readfile.go:221-230 | the lines counted for a range are the parts that its newlines cut it into |
| `FileRead.ReadAll` | internal/sysplane-agent/fileops/readfile.go:193-230 | repeated ranges from offset 0 until nothing is cut off give back the bytes of the file in as many requests as it fills, and its text if and only if each range by itself is valid text |
| `FileRead.ReadFile` | internal/sysplane-agent/fileops/readfile.go:65-133 | which of the readings happens, and which errors: binary before size, range before tail, tail before head, lines too long |
| `SentText.SentIffValid` | internal/sysplane-agent/fileops/readfile.go:221-231 | bytes sent as text arrive as they are if and only if they are valid text, otherwise longer |
| `SentText.ValidIffEncoded` | internal/sysplane-agent/fileops/readfile.go:221-231 | bytes are valid text if and only if they encode some sequence of code points as section 3 of RFC 3629 has it |
| `SentText.SentIsValid` | internal/sysplane-agent/fileops/readfile.go:221-231 | what a receiver reads is always valid text |
| `SentText.BadByteIsReplaced` | internal/sysplane-agent/fileops/readfile.go:221-231 | a byte that starts no character is read as U+FFFD |
| `PathGuard.Check` | internal/sysplane-agent/fileops/guard.go:38-71 | granted if and only if nothing blocked is at or above the resolved path, by components, and the allowlist is empty or something allowed is; blocking comes first |
| `PathGuard.NewPathGuard` | internal/sysplane-agent/fileops/guard.go:19-35 | the stored prefixes are the cleaned paths with one separator at the end |
| `PathGuard.PrefixIsCover` | internal/sysplane-agent/fileops/guard.go:48-56 | the string test with the trailing separator is the component test, root included |
| `PathGuard.SiblingIsFree` | internal/sysplane-agent/fileops/guard.go:48-52 | a longer name is a string prefix but not blocked |
| `PathGuard.BlockedBelow` | internal/sysplane-agent/fileops/guard.go:54-59 | everything under a blocked path is blocked |
| `PathGuard.CleanIsIdempotent` | internal/sysplane-agent/fileops/guard.go:39 | cleaned text and normal component lists are two forms of one thing |
| `PathGuard.CleanStays` | internal/sysplane-agent/fileops/guard.go:39 | a clean path, leading ".." of a relative one included, stays as it is |
| `PathGuard.DotDotCancels` | internal/sysplane-agent/fileops/guard.go:39 | ".." takes back the component before it, whatever precedes and follows |
| `PathGuard.RootStays` | internal/sysplane-agent/fileops/guard.go:39 | ".." at the root stays at the root |
| `PathGuard.DotIsNothing` | internal/sysplane-agent/fileops/guard.go:39 | empty components and "." say nothing |
| `PathGuard.DetourIsDecidedAlike` | internal/sysplane-agent/fileops/guard.go:38-71 | a path with a detour through ".." and the path without it get one decision |
| `Paging.Paginate` | internal/sysplane-center/admin/service.go:1329-1349 | the page after the cursor and the next cursor, with every index in range |
| `Paging.FollowCursors` | internal/sysplane-center/httpapi/server.go:647-667 | following the cursors over a fixed list visits every item exactly once in order in max(1, ceil(n/limit)) pages |
| `Paging.UnknownCursorEnds` | internal/sysplane-center/admin/service.go:1331-1338 | a cursor on no item ends the traversal |
| `Listings.TraversalIsCompleteIff` | internal/sysplane-center/admin/service.go:336-354 | of any set of items with distinct ids, listed by age, all listings agree, and following the cursors over any of them with any page size shows each item exactly once, if and only if no two items are of the same age |
| `Listings.TieLosesAnItem` | internal/sysplane-center/admin/service.go:352-353 | at a tie of age there are listings and a page size for which a named item is on no page |
| `Listings.DistinctTimesAreSeen` | internal/sysplane-center/admin/service.go:405-406 | with ages all different the pages, each cut from a list made anew, show the one listing exactly |
| `Listings.SteadyFrom` | internal/sysplane-center/admin/service.go:1329-1349 | from any place on, a list that stays as it is is seen to its end |
| `Paging.NormalizeLimit` | internal/sysplane-center/admin/service.go:1351-1359 | a limit between 1 and 200, the requested one when it is in range |
| `NodeList.ListNodes` | internal/sysplane-center/httpapi/server.go:123-156 | one page of the sorted list of the wanted agents, or a refusal of the label selector or of the limit |
| `NodeList.ListingIsCanonical` | internal/sysplane-center/httpapi/server.go:139-154 | the list holds exactly the wanted agents in strictly increasing order whatever the order of the snapshot |
| `NodeList.PositiveIsReadBack` | internal/sysplane-center/httpapi/server.go:624-637 | a positive decimal number is read back, up to the maximum |
| `NodeList.AcceptedIff` | internal/sysplane-center/httpapi/server.go:624-637 | a limit is accepted if and only if it is left out or writes a positive 64-bit number in decimal |
| `Text.LessIff` | internal/sysplane-center/admin/service.go:644 | strings are ordered by their first difference, a prefix first |
| `Text.WhiteSpaceIs` | internal/sysplane-center/admin/service.go:1448-1463 | what counts as white space among the first 256 code points |
| `Text.TrimKeepsMiddle` | internal/sysplane-center/admin/service.go:1448-1463 | trimming takes the white space around a text and keeps what is between |

## Left out

- RelayedDelivery.RelayedDelivery: says that a continuation brings the answer back, not that every fair one does before the deadline; which steps the program's scheduler takes, and when, is not modelled.
- Agent.RepliesAreAnswers: the name of an unknown tool stands in the error between plain quotes; the escapes that the original's formatting puts into unusual names are not modelled.
- System.Correlation: assumes that no id is used twice in the whole run, not only among calls in flight, because a reply to an abandoned call can still arrive after its id would have been free again.
- RouterService.Router.Send: the deliveries during a call are given as a list; the interleaving with other calls is the router machine's.
- CenterService.TunnelServer.Connect: runs without steps of other handlers in between; the interleavings are those of the center machine.
- CenterService.TunnelServer.HandleForwarded: lookup, registration and undo run without steps of other handlers in between; as separate lock sections they are steps of the center machine.
- ProxyService.DownstreamService.Connect: runs without steps of other handlers in between; the interleavings are those of the proxy machine.
- Reconnect.RunOnce: the nodes' handlers, which also send on the published stream, do not run during the connection; they do in runs of the system.
- Agent.ToolAgent.Serve: handler, reply and cleanup run without a dispatch in between; the interleavings are those of the agent machine.
- InvocationService.Service.ExecuteInvocation: its lock sections run without those of other invocations in between; the interleavings are those of the machine in `InvocationLife`, step by step.
- InvocationService.Service.CreateInvocation: the same.
- InvocationService.Service.Insert: ids are required to be new, as minted ids are (`RequestIds.MintedIdsDiffer`).
- Forwarding.InvokeTool: the database is as one call finds it, and the log's writes succeed; its rows need not agree with the registries, since the writes that mark hosts offline are asynchronous.
- Forwarding.SharedIdSharesRow: the two calls run one after the other; when they overlap the row has the host of the first insert and the reply of the last completion.
- FileSearch.SearchFile: regular expressions, case folding and substring search are one abstract predicate on lines; the cancellation of the request is not modelled.
- FileRead.ReadHead: the lines are bytes; what a receiver reads of lines that are no valid text is what `SentText.Sent` says.
- PathGuard.Check: the resolution of symbolic links is an abstract function that gives cleaned paths.
- Schemas.ValidateParams: numbers are reals, and a number is an integer when an int64 holds it; what the conversion of a larger float gives is left to the platform.
- Text.Trim: white space beyond the first 256 code points is not trimmed.
- Time: clocks are integers given to the steps, timeouts are steps that may happen at any point of a wait.
- Atomicity: a proxy's handling of one heartbeat, with the two sends it makes, is one step, and so is closing an audit event together with dropping the cancel function.
- Ids that a caller of the HTTP API chooses for a single template execution: they are outside the program, and subject to the condition of `RouterMachine.OpenIsSafeIffIdFree`.
- gRPC, TLS, HTTP, JSON, YAML, metrics and logging: messages are datatypes, streams are queues that may close; texts of error messages are abstracted where nothing depends on them.
- The SQL of the store: a write or query that may fail.
- Template rendering, token catalog, output limits, hardware collection, process execution, the local API proxy, the command line and the web interface: input and output, or members that would add nothing hard.
- Nested proxies: a proxy ignores a registration on a stream that is already registered, so one level is modelled.
- Filters of the lists of invocations, templates and audit events: plain selections.
