# A verified model of the inference mesh

The repository is a peer-to-peer mesh for sharing model inference: providers publish what they can
serve, clients discover them, rank them, and send requests directly or through a bootstrap peer. This
Dafny project models the stateful parts of it and proves what they keep over whole runs, under any
interleaving of calls, and for any behaviour of the network. `dafny verify dfyconfig.toml` checks it.

| file | what it models | main results |
|---|---|---|
| `Limiter.dfy` | the provider's token bucket and in-flight cap | the bucket decides exactly as a reference without tokens that keeps every window of grants under `burst + rate * length`; refused arrivals leave no trace |
| `Reputation.dfy` | the reputation tracker | any history of a peer acts as one clamped shift and ignores other peers |
| `Accounting.dfy` | capability state and credit ledger | latency average, honest reliability, balance never below zero |
| `Admission.dfy` | provider calls as interleaved atomic steps | counting, conservation, lockout, published depths, over every run |
| `Provider.dfy` | the provider service's methods | they take exactly the steps of `Admission`; what each way of ending costs |
| `Routing.dfy` | the router | a ranking is exactly the eligible peers, ascending; scores are monotone; where preferring favorites fails to fall back |
| `Client.dfy` | the client service's methods, and client calls as interleaved atomic steps | failover to the first success for any gateway, alone and interleaved; routing safety under concurrent settings updates |
| `Json.dfy`, `JsonWriter.dfy`, `JsonSize.dfy` | the JSON reader and writer (RFC 8259, strings as in its section 7) | what is written is one line and reads back; sizes |
| `Wire.dfy`, `JsonCodec.dfy` | requests, proxied requests and headers as JSON | every one survives the codec |
| `Protocol.dfy` | the infer, proxy and client stream handlers | the proxied path looks like the direct one, for any chunking |
| `RouteCache.dfy`, `Gateway.dfy` | the gateway client and its route cache | the cache changes only the work, also under interleaved calls; every route gives the provider's own answer |
| `EndToEnd.dfy` | client, gateway, protocols and provider together | a solved proof of work is accepted at the provider; a default gateway URL leads back to its peer |
| `Sse.dfy` | the Ollama adapter's stream and the chat client's reader | what arrives, for every backend output |
| `Registry.dfy` | the node's tables with lazy expiry | they answer as a full log of documents would |
| `Discovery.dfy` | merging, probing and back-off | exact admission of probes; what a listing holds |
| `Pow.dfy`, `Mesh.dfy`, `Text.dfy` | proof of work, shared data, strings | least nonce, numerals, order on strings |

Where the source updates fields step by step the model is a class with methods proved against
functions; the functions are then related to independent references (a window policer, a log, a
search without a cache, an interleaved system).

## Where code and expectation differ

* The adapter ends a stream with `data: [DONE]` followed by a backslash and an `n`, twice, instead of
  two newlines, so the chat client never sees its end mark and finishes at the end of the stream. The
  output is the same (`Sse.StreamArrives`).
* The adapter quotes contents the way Go does, which is not always JSON. A content with a character
  outside `Sse.Survives` is dropped whole by the client; that is the exact condition in
  `Sse.EventEffect`, and `Sse.BellIsDropped` is a backend line it happens to.
* Preferring favorites counts a blocked favorite as a candidate, so blocked favorites can hide every
  other peer. `Routing.BlockedFavoriteHidesOthers` is an instance and `Routing.FavoritesFallBack` the
  exact condition.
* A client call that finds no peers or fails after paying is not refunded (`Client.CallIsRankedFailover`).
* Settings that allow only the empty id (`allowed_peers: [""]`) leave the manual policy without any
  restriction, because empty ids are dropped from the allow list. `Client.EmptyIdAllowsAll` is an instance
  and `Client.ManualKeepsToList` the exact condition; `Client.PinKeepsToPeer` is the condition for a peer
  selected by hand, whose one caller refuses the empty id. `Client.RoutingSafety` therefore speaks of
  nonempty allow lists.
* Through a proxy an unreadable reply of a foreign provider still fails, but with the proxy's error
  text. The results are equal exactly when the reply has a readable header
  (`Protocol.RelayIsTransparent`).

## Model

| member | source | states |
|---|---|---|
| RateLimiter.Limiter.constructor | internal/control/limiter.go:23-32 | a new limiter has a full bucket and no request in flight |
| RateLimiter.Limiter.AcquireSlot | internal/control/limiter.go:34-54 | cancellation first, then the cap, then the refilled bucket; the whole new state and the verdict |
| RateLimiter.Limiter.ReleaseSlot | internal/control/limiter.go:56-62 | one slot fewer, never below zero, tokens untouched |
| RateLimiter.Limiter.RefillLocked | internal/control/limiter.go:64-74 | what the clock pays in, capped by the burst; a clock that has not advanced changes nothing |
| RateLimiter.LevelIsLeastWindow | internal/control/limiter.go:64-74 | the level before an arrival is the least, over the windows opened by past grants, of burst plus rate times length less the grants in it |
| RateLimiter.ConformsIffToken | internal/control/limiter.go:47-51 | one more grant keeps every window under the arrival curve exactly when a whole token is there |
| RateLimiter.BucketRefinesPolicer | internal/control/limiter.go:34-74 | over any run of arrivals, cancellations and releases the bucket gives the verdicts of the reference that only knows the instants of grants |
| RateLimiter.FreshLimiterIsPolicer | internal/control/limiter.go:23-74 | the same from a fresh limiter |
| RateLimiter.TokensAreLeastWindow | internal/control/limiter.go:34-74 | after any run from a fresh limiter the refilled tokens are that least window term |
| RateLimiter.GrantedIffConforms | internal/control/limiter.go:34-74 | from a full bucket, in any run with releases in which slots are never exhausted, nothing is refused if and only if every window i..j of the arrivals has j - i + 1 <= burst + rate * (t_j - t_i), in plain arithmetic |
| RateLimiter.RefillTwice | internal/control/limiter.go:64-74 | refilling at two instants is refilling at the later |
| RateLimiter.RefusalsLeaveNoTrace | internal/control/limiter.go:44-50 | deleting any refused arrivals from a run leaves every other answer as it was |
| RateLimiter.RefillForgotten | internal/control/limiter.go:64-74 | a refill alone changes no later answer |
| RateLimiter.WindowBound | internal/control/limiter.go:34-74 | tokens stay within the burst and slots within the cap, and the grants between two states are at most the tokens consumed plus what the clock paid |
| RateLimiter.GrantsWithinCurve | internal/control/limiter.go:34-74 | no window of any run grants more than burst plus rate times the advance of the refill instant |
| Reputation.ReputationTracker.Score | internal/control/reputation.go:20-28 | the stored score, or 1 for a peer never adjusted |
| Reputation.ReputationTracker.Reward | internal/control/reputation.go:30-32 | moves the peer's score up and no other |
| Reputation.ReputationTracker.Penalize | internal/control/reputation.go:34-36 | moves the peer's score down and no other |
| Reputation.ReputationTracker.Adjust | internal/control/reputation.go:38-53 | the clamped sum is stored for this peer only |
| Reputation.ActsAsOneShift | internal/control/reputation.go:38-53 | any sequence of adjustments is one map min(H, max(L, x + D)) with 0 <= L <= H <= 1 |
| Reputation.ScoreIsOwnHistory | internal/control/reputation.go:38-53 | a score after any history depends on the peer's own adjustments only |
| Reputation.HistoryIsOneShift | internal/control/reputation.go:20-53 | both together for any history of many peers, with every score in range |
| Reputation.InterleavingIrrelevant | internal/control/reputation.go:20-53 | adjustments of different peers commute |
| Reputation.ScoreInNumbers | internal/control/reputation.go:20-53 | a new peer scores 1 less its penalties, down to 0; rewards then add up to 1 at most |
| Reputation.MovedAllAppend | internal/control/reputation.go:38-53 | a history can be cut anywhere: its later part acts on what the earlier part left |
| Accounting.CapabilityState.constructor | internal/app/capability.go:18-29 | the defaults of a new document and an honest, empty record |
| Accounting.CapabilityState.SetQueueDepth | internal/app/capability.go:39-44 | the depth is published and stamped, nothing else changes |
| Accounting.CapabilityState.UpdateLatency | internal/app/capability.go:46-57 | the moving average takes the sample and its whole part is published |
| Accounting.CapabilityState.RecordOutcome | internal/app/capability.go:59-74 | one more success or failure, and the reliability that follows |
| Accounting.LatencyApproachesSample | internal/app/capability.go:46-57 | each sample takes the average three tenths of the way to it, never past it, and the published latency is the average without its fraction |
| Accounting.OutcomeKeepsHonest | internal/app/capability.go:59-74 | the published reliability stays the share of successes, between 0 and 1 |
| Accounting.CreditLedger.Spend | internal/control/credits.go:20-31 | pays exactly the amount or nothing, and never takes a balance below zero |
| Accounting.SpentIffCovered | internal/control/credits.go:20-31 | a positive amount is paid exactly when the balance covers it, down to nothing left |
| Accounting.CreditLedger.Earn | internal/control/credits.go:33-40 | adds a positive amount and ignores any other |
| ProofOfWork.Validate | internal/control/pow.go:9-25 | accepts exactly the nonces whose digest begins with the required zeros |
| ProofOfWork.Solve | internal/control/pow.go:27-37 | finds the least nonce within the budget that a provider accepts, or reports that there is none |
| Text.DecimalDigits | internal/control/pow.go:13 | the digits of a numeral |
| Admission.SlotHeld | internal/control/limiter.go:56-62 | in every reachable state a call that releases holds a slot, so the guard against zero never acts |
| Admission.CountAgainstSlots | internal/app/services.go:370-391 | slots and count differ by exactly the calls caught between the two updates |
| Admission.InterleavedCounting | internal/app/services.go:370-403 | in any interleaving the limiter's number is the calls holding a slot and at most the cap, the atomic count is the calls between its two adds, and their difference is bounded |
| Admission.DepthsWereCounts | internal/app/services.go:388-392 | every depth published is a value the in-flight count has had |
| Admission.StepBalanced | internal/app/services.go:377-402 | every step keeps outcomes plus unfinished calls equal to grants, and the ledger in balance |
| Admission.RunHonest | internal/app/capability.go:59-74 | the published reliability is honest after every run |
| Admission.Quiescence | internal/app/services.go:373-402 | once all calls have ended, successes plus failures are the grants, the balance is initial plus earned less spent and never went negative, reliability is successes over grants, and nothing is in flight |
| Admission.StepLockedOut | internal/app/services.go:350-369 | a step never raises the score of a client below the threshold that has no call past the check |
| Admission.LockoutIsAbsorbing | internal/app/services.go:350-401 | from any reachable state such a client stays out in every continuation and none of its calls reaches the backend |
| Provider.ProviderService.constructor | internal/app/services.go:325-348 | a service starts with no call in flight |
| Provider.ProviderService.Validate | internal/control/policy.go:65-79 | the first rule broken of too many tokens, an hour outside the window, and a load above the limit; a failing probe does not refuse |
| Provider.ProviderService.Infer | internal/app/services.go:350-403 | takes exactly the interleaved system's steps for one call, up to where it serves or ends |
| Provider.ProviderService.Cleanup | internal/app/services.go:389-401 | takes exactly the system's steps from the release to the reward |
| Provider.InferEffects | internal/app/services.go:350-403 | every way a call can end, which check decides it, and all it changes in numbers: slot, count, tallies, latency sample, credit and score; only a serving call keeps a slot, and refusals before the limiter never touch it |
| Provider.CleanupEffects | internal/app/services.go:389-401 | a cleanup returns the slot, records one success and the latency, earns one credit and raises the client's score, and no other, by 0.01 up to 1 |
| Provider.WindowIsCyclic | internal/control/policy.go:81-89 | the serving window runs from its start to its end around the clock |
| Provider.DriveIsRun | internal/app/services.go:350-403 | a sequential call is a run of the interleaved system, so its invariants hold of the methods |
| Routing.Router.Score | internal/routing/router.go:34-49 | the weighted sum, infinite or undefined when no memory is free |
| Routing.Router.RankWithPreferences | internal/routing/router.go:55-100 | the scored eligible peers, permuted, ascending whenever all scores are comparable |
| Routing.Router.ScoreEligible | internal/routing/router.go:56-95 | the loop keeps exactly the eligible peers, in order, with bonuses subtracted |
| Routing.Router.FindFavorite | internal/routing/router.go:61-67 | whether some favorite supports the request, blocked or not |
| Routing.Router.SelectBestWithPreferences | internal/routing/router.go:106-112 | none exactly when no peer is eligible, otherwise an eligible peer that no eligible peer beats |
| Routing.RankingIsExact | internal/routing/router.go:61-100 | a ranking holds exactly the peers that may serve, with every rule and requirement written out, each with its score, and ascends when all scores are comparable |
| Routing.SupportsIsFit | internal/model/types.go:80-100 | a peer supports a request exactly when one of its models has the name and meets every requirement that is not empty |
| Routing.ScoreInArithmetic | internal/routing/router.go:34-94 | the score of a peer with free memory as a sum, each weight on its own term, less the bonuses due |
| Routing.ScoresCompare | internal/routing/router.go:96-98 | scores compare as floating-point numbers do |
| Routing.UndefinedScore | internal/routing/router.go:35-47 | a score is undefined exactly for a zero memory weight and no free memory |
| Routing.NoWorseScoresNoHigher | internal/routing/router.go:34-49 | with weights that are not negative, a positive memory weight and equal bonus, a peer no worse in every respect never scores higher |
| Routing.FavoritesFallBack | internal/routing/router.go:61-81 | exactly when preferring favorites ranks nobody |
| Routing.BlockedFavoriteHidesOthers | internal/routing/router.go:61-81 | an input where a blocked favorite hides a usable peer |
| Client.ClientService.constructor | internal/app/services.go:65-81 | the default budget and cost, and empty known and sticky sets |
| Client.ClientService.UpdateRoutingSettings | internal/app/services.go:209-227 | only the settings given are changed; nil lists and negative times leave the old ones |
| Client.ClientService.SelectPeerManual | internal/app/services.go:229-234 | manual policy with this one peer allowed |
| Client.ClientService.OptionsSnapshot | internal/app/services.go:236-244 | the options at this moment |
| Client.ClientService.KnownPeers | internal/app/services.go:246-254 | the peers known at this moment |
| Client.ClientService.MarkKnown | internal/app/services.go:256-260 | this peer joins the known ones |
| Client.ClientService.UpdateSticky | internal/app/services.go:262-270 | the choice for the model, unless sticky routing is off |
| Client.ClientService.ApplyStickyPriority | internal/app/services.go:272-300 | the chosen peer is promoted if the choice is live; a stale choice is dropped |
| Client.PromoteOnlyPromotes | internal/app/services.go:287-299 | promoting permutes the ranking, keeps the order of all other entries, and puts the peer first if it is there |
| Client.ClientService.Infer | internal/app/services.go:83-149 | takes exactly the interleaved system's steps for one call, whichever ranking the router returns |
| Client.ClientService.Prepare | internal/app/services.go:84-108 | paying, discovering and blending, up to the call of the router |
| Client.ClientService.Blend | internal/app/services.go:94-101 | local scores cap the claimed reliabilities, peer by peer |
| Client.BlendingOnlyLowers | internal/app/services.go:94-101 | blending lowers a reliability to the local score if that is lower and changes nothing else |
| Client.ClientService.TryRanked | internal/app/services.go:113-148 | sticky order, proof of work, then failover |
| Client.ClientService.FailOver | internal/app/services.go:123-148 | the failover loop takes the system's steps |
| Client.ClientService.TryOne | internal/app/services.go:125-136 | one attempt, with one penalty if it fails |
| Client.ClientService.Settle | internal/app/services.go:138-142 | reward, known peer and sticky choice after a success |
| Client.FailoverIsFirstSuccess | internal/app/services.go:123-148 | for any gateway: a prefix of the candidates is tried, the first success is returned, failure only if all fail; one penalty for each failure, one reward for the winner, and only the winner becomes known and sticky |
| Client.UntriedScoresStay | internal/app/services.go:128-140 | the score of a peer that was not tried does not move |
| Client.CallIsRankedFailover | internal/app/services.go:83-149 | a whole call pays once without refund and tries the sticky-ordered ranking up to the gateway's first success, with exactly the attempts, penalties, reward, known peer and sticky choice of these replies |
| Client.InterleavedFailover | internal/app/services.go:113-148 | over every interleaving the logged attempts of each call are those of the first candidates of its course up to the first success, a call's outcome is that of its log, its tracker moves are one for each logged reply, and the tracker holds nothing else |
| Client.FreshServiceIsOnCourse | internal/app/services.go:65-81 | the invariant holds at the start |
| Client.ManualKeepsToList | internal/app/services.go:302-311 | exactly when the manual policy ranks only listed peers |
| Client.PinKeepsToPeer | internal/app/services.go:229-234 | exactly when a peer selected by hand is the only one ranked |
| Client.EmptyIdAllowsAll | internal/app/services.go:209-227 | settings that allow only the empty id, and another peer that is ranked |
| Client.FavoritesAreTheNamed | internal/app/services.go:102-109 | if a named favorite fits, only named favorites are ranked under their policy |
| Client.BonusesAreDue | internal/app/services.go:102-109 | the favorite bonus goes exactly to named favorites, the known bonus exactly to peers known when the call looked, under the policy for them |
| Client.UpdateTakesEffect | internal/app/services.go:209-227 | an update takes effect setting by setting and touches nothing else of the options |
| Client.DriveIsRun | internal/app/services.go:83-149 | a sequential call is a run of the interleaved system |
| Client.AdvanceSafe | internal/app/services.go:83-148 | every atomic step keeps sticky peers known and candidates permitted by the call's own options |
| Client.RoutingSafety | internal/app/services.go:83-300 | over every run, with settings changed at any moment, no attempt goes to a peer that the call's own options block, do not allow, or that does not fit the request; every sticky peer is known |
| Client.FreshServiceIsSafe | internal/app/services.go:65-81 | the invariant holds at the start |
| Json.ReadsBack | internal/p2p/libp2p_protocols.go:71 | a rendered document, followed by anything that cannot extend it, reads as what it means |
| Json.ParsesBack | internal/p2p/libp2p_protocols.go:71 | a rendered document parses as what it means |
| JsonWriter.EscapedIsClosed | internal/p2p/libp2p_protocols.go:407-414 | an escaped string reads back to its characters and nothing more |
| Json.LetterEscapes | internal/p2p/libp2p_protocols.go:71 | the letter escapes of section 7 of RFC 8259, and no others |
| JsonWriter.WriteParses | internal/p2p/libp2p_protocols.go:408 | a written value parses back to itself |
| JsonWriter.WriteIsOneLine | internal/p2p/libp2p_protocols.go:412 | a written value has no newline |
| Wire.HeaderRoundTrip | internal/p2p/libp2p_protocols.go:29-33 | every reply header survives encoding, the error left out when empty |
| Wire.RequestRoundTrip | internal/model/types.go:16-30 | every request survives encoding, with nil and empty message lists told apart |
| Wire.ProxyRoundTrip | internal/p2p/libp2p_protocols.go:41-44 | every proxied request survives encoding |
| Wire.HeaderOnTheWire | internal/p2p/libp2p_protocols.go:29-33 | the members of a header by name, in order |
| Wire.RequestOnTheWire | internal/model/types.go:16-30 | the members of a request by name, empty ones left out |
| Wire.ProxyOnTheWire | internal/p2p/libp2p_protocols.go:41-44 | the members of a proxied request by name, in order |
| JsonCodec.ObjectLine | internal/p2p/libp2p_protocols.go:428 | a written object is one line and reads back after trimming |
| JsonCodec.JsonIsFaithful | internal/p2p/libp2p_protocols.go:29-44 | the codec of all three kinds of line loses nothing and never breaks a line |
| Protocol.Stream.ReadLine | internal/p2p/libp2p_protocols.go:65-66 | the text up to the first newline whatever the chunks, the rest left for the body; fails at the end of the stream |
| Protocol.Stream.Drain | internal/p2p/libp2p_protocols.go:96 | everything left, including what the buffered reader already holds |
| Protocol.WriteHeader | internal/p2p/libp2p_protocols.go:407-414 | one header line is written |
| Protocol.ServeInfer | internal/p2p/libp2p_protocols.go:62-98 | the reply as a function of the whole request text |
| Protocol.ServeProxy | internal/p2p/libp2p_protocols.go:100-134 | the reply of a bootstrap peer, with every error it reports itself |
| Protocol.Forward | internal/p2p/libp2p_protocols.go:135-168 | the inner request goes on as its own line |
| Protocol.Relay | internal/p2p/libp2p_protocols.go:150-167 | the header is passed on, and the body unless the status is an error |
| Protocol.InferOverStream | internal/p2p/libp2p_protocols.go:374-398 | what the client makes of the whole reply |
| Protocol.TryDirect | internal/p2p/libp2p_protocols.go:331-344 | the direct attempt |
| Protocol.TryProxy | internal/p2p/libp2p_protocols.go:346-359 | the attempt through a bootstrap peer |
| Protocol.DirectPath | internal/p2p/libp2p_protocols.go:62-98 | the provider gets an equal request and context, and the client its answer |
| Protocol.RelayIsTransparent | internal/p2p/libp2p_protocols.go:150-167 | a relayed reply is read as the reply itself: the same success, or also a failure; equal in every respect exactly when its header is readable |
| Protocol.ProxyIsTransparent | internal/p2p/libp2p_protocols.go:100-168 | the far end gets the very text of the direct path and the client the same outcome |
| Protocol.ProxiedEqualsDirect | internal/p2p/libp2p_protocols.go:62-168 | with this program's provider the two paths are equal, errors included |
| Protocol.ContextSurvives | internal/p2p/libp2p_protocols.go:75-82 | the provider learns exactly the identity and nonce that the client put into the metadata |
| Protocol.ContextInMetadata | internal/p2p/libp2p_protocols.go:283-292 | the names the context travels under; everything else of the request stays |
| Protocol.OtherNonceIsZero | internal/p2p/libp2p_protocols.go:76-82 | a nonce that is missing, no numeral or too large counts as zero |
| Protocol.ProviderReports | internal/p2p/libp2p_protocols.go:83-96 | the status, type and body, or the status 502 and error, of a provider's reply |
| Protocol.ProxyReports | internal/p2p/libp2p_protocols.go:114-134 | which error, with which status, a bootstrap peer answers for a missing, invalid or unreachable target |
| Protocol.ClientIsTold | internal/p2p/libp2p_protocols.go:114-134 | the client is told in the bootstrap peer's own words |
| Protocol.UnreadableInput | internal/p2p/libp2p_protocols.go:66-113 | what both handlers answer to a stream without a line and to a line that is no request |
| JsonCodec.ProxyTransparency | internal/p2p/libp2p_protocols.go:62-168 | the same for the concrete codec, with no assumption left about it |
| RouteCache.GatewayClient.GetRoute | internal/p2p/libp2p_protocols.go:361-366 | the entry of the peer, if any |
| RouteCache.GatewayClient.SetRoute | internal/p2p/libp2p_protocols.go:368-372 | the entry of this peer and no other |
| RouteCache.GatewayClient.Infer | internal/p2p/libp2p_protocols.go:278-329 | result, attempts and cache of a call by gateway URL, over the network that carries the request with the client's context in its metadata |
| RouteCache.GatewayClient.InferPeer | internal/p2p/libp2p_protocols.go:294-329 | the cached route first, then the search |
| RouteCache.GatewayClient.Explore | internal/p2p/libp2p_protocols.go:308-328 | the direct path, then the bootstrap peers |
| RouteCache.GatewayClient.TryProxies | internal/p2p/libp2p_protocols.go:312-328 | eligible bootstrap peers in order up to the first that works, or the last error |
| RouteCache.GatewayNamesPeer | internal/p2p/libp2p_protocols.go:416-426 | a URL that ends with an encoded peer id names that peer |
| RouteCache.GatewayIsTrimmed | internal/p2p/libp2p_protocols.go:416-426 | space around a URL does not matter, and an empty last part names nobody |
| RouteCache.LastPartIsLast | internal/p2p/libp2p_protocols.go:417-421 | the part taken has no slash and is the last |
| RouteCache.SearchIsExact | internal/p2p/libp2p_protocols.go:308-318 | the search tries the direct path first and, as proxies, exactly the bootstrap peers with an id that are neither this node nor the target |
| RouteCache.ProxiesInOrder | internal/p2p/libp2p_protocols.go:313-318 | proxies come in the order of the configuration |
| RouteCache.CacheRefinesSearch | internal/p2p/libp2p_protocols.go:278-329 | with any sound cache a call succeeds exactly when the direct path works or some nonempty bootstrap peer, not this node and not the target, works as a proxy; and so as with no cache |
| RouteCache.FailureIsLastError | internal/p2p/libp2p_protocols.go:312-328 | a call that fails reports the last proxy's error, or that there is no route if there is no proxy |
| RouteCache.CallIsHonest | internal/p2p/libp2p_protocols.go:294-329 | on any network: the answer is that of an attempt made, all earlier ones failed, and there are at most two attempts more than eligible bootstrap peers |
| RouteCache.OneAnswer | internal/p2p/libp2p_protocols.go:294-329 | if all working attempts answer alike, so does the call, and it works if any attempt of its plan does |
| RouteCache.StoreKeepsSound | internal/p2p/libp2p_protocols.go:368-372 | storing a route of the search keeps the cache sound, whenever it happens |
| RouteCache.CallKeepsSound | internal/p2p/libp2p_protocols.go:278-329 | a call keeps the cache sound |
| RouteCache.RepeatIsOneAttempt | internal/p2p/libp2p_protocols.go:294-306 | after a success the same call on an unchanged network makes exactly one attempt and gets the same answer |
| RouteCache.CacheIsEarned | internal/p2p/libp2p_protocols.go:278-372 | in every state reachable by any interleaving of calls, with other calls between reading and storing an entry, each entry is "direct" or "proxy:" with a bootstrap peer other than this node and the target, and that route has worked |
| RouteCache.EmptyCacheIsEarned | internal/p2p/libp2p_protocols.go:274-276 | the invariant holds of a new client |
| RouteCache.CalledIsRun | internal/p2p/libp2p_protocols.go:278-329 | a call with no other between its steps is a run of the interleaved system |
| RouteCache.SuccessIsCached | internal/p2p/libp2p_protocols.go:308-323 | after a success the cache holds the route that worked |
| Gateway.AttemptIsProvider | internal/p2p/libp2p_protocols.go:331-398 | an attempt that gets through returns the provider's answer, any other fails |
| Gateway.AnyRouteSameAnswer | internal/p2p/libp2p_protocols.go:278-398 | whatever the cache holds and whichever attempts get through, a success is the provider's own answer, and there is one exactly when some attempt of the plan gets through to a success |
| EndToEnd.WorkIsAccepted | internal/app/services.go:115-125 | if the client's budget holds a solution, the nonce it sends is accepted, after the trip through the metadata, by every provider that asks for no more difficulty |
| EndToEnd.LeastNonceSolves | internal/control/pow.go:27-37 | the nonce searched for is a solution whenever there is one, and the least |
| EndToEnd.DefaultGatewayNamesPeer | internal/p2p/libp2p_discovery.go:146-148 | the gateway URL given to a probed peer without one leads back to that peer |
| Sse.AdaptLine | internal/backend/ollama_adapter.go:72-84 | what one line of the backend prints and whether it ends the stream |
| Sse.Adapt | internal/backend/ollama_adapter.go:71-85 | the whole printed stream |
| Sse.Show | internal/cli/chat.go:98-142 | what the chat client writes, counts and reports for a stream |
| Sse.GoBodyReads | internal/backend/ollama_adapter.go:78 | Go quoting read as JSON gives the content back exactly when every character survives, and is no JSON otherwise |
| Sse.EventEffect | internal/cli/chat.go:116-135 | the client writes a surviving content and skips any other event |
| Sse.EventFits | internal/cli/chat.go:101 | an event for a line within the adapter's limit fits the client's buffer |
| Sse.ShownEvent | internal/cli/chat.go:102-136 | one event adds its content, or nothing, to what is shown |
| Sse.ShownDone | internal/backend/ollama_adapter.go:82 | the adapter's end mark adds nothing but the end of the stream |
| Sse.AdaptedArrives | internal/backend/ollama_adapter.go:71-85 | the end-to-end argument for any adapter and client that fit together |
| Sse.StreamArrives | internal/cli/chat.go:98-142 | for every backend output the client writes exactly the surviving contents up to and including the first done line (or up to a line over the adapter's limit), then one newline, and counts their bytes |
| Sse.LinesArrive | internal/backend/ollama_adapter.go:72-84 | for any lines of a backend, given by their JSON, the client shows their contents up to and including the first that is done, skipping what is no JSON |
| Sse.DoneIsTheLast | internal/backend/ollama_adapter.go:77-83 | of two messages, the first is shown, and the second unless the first is done |
| Sse.MessageReads | internal/backend/ollama_adapter.go:73-76 | content and mark are read from the members of the line |
| Sse.LongLineEnds | internal/backend/ollama_adapter.go:71-72 | a line of 64 KiB or more ends the stream without a mark |
| Sse.LongLineFails | internal/cli/chat.go:100-139 | a line of 1 MiB or more fails the client's scan, and no bytes are reported |
| Sse.TrueMarkFinishes | internal/cli/chat.go:111-115 | the mark the client looks for would end the stream |
| Sse.LoneContent | internal/cli/chat.go:98-142 | a backend that sends one content has it shown if it survives, and nothing otherwise |
| Sse.BellIsDropped | internal/backend/ollama_adapter.go:78 | a backend line whose content, the bell character, is lost |
| Sse.NothingLost | internal/backend/ollama_adapter.go:77-80 | if every content survives, the text is their concatenation |
| Registry.Node.ConsumeHeartbeat | internal/p2p/libp2p_node.go:423-435 | own and undecodable messages are ignored, the document is stamped if unstamped and stored with its arrival |
| Registry.Node.UpsertRegistryCapability | internal/p2p/libp2p_node.go:271-281 | blank peer ids are ignored, otherwise as for a heartbeat |
| Registry.Node.Heartbeats | internal/p2p/libp2p_node.go:243-247 | lists the pruned heartbeats and prunes only them |
| Registry.Node.RegistryCapabilities | internal/p2p/libp2p_node.go:249-269 | prunes both tables and lists their merge |
| Registry.Node.MergeLocked | internal/p2p/libp2p_node.go:256-263 | a registry entry replaces a heartbeat only if it is strictly newer |
| Registry.Node.PruneLocked | internal/p2p/libp2p_node.go:472-478 | drops exactly the entries older than the time to live |
| Registry.Documents | internal/p2p/libp2p_node.go:264-268 | each document once, in any order |
| Text.BlankIffSpaces | internal/p2p/libp2p_node.go:272-274 | a trimmed text is empty exactly when it is all spaces |
| Registry.MergeIsNewest | internal/p2p/libp2p_node.go:249-269 | the merge holds a peer exactly when the log has a live entry for it, and then its newest, a heartbeat winning a tie |
| Registry.PruningIsInvisible | internal/p2p/libp2p_node.go:243-281 | over every run with a clock that never goes back, a reading of the registry is what the full log answers: one document for each peer with a live entry, its newest |
| Registry.HeartbeatsAnswer | internal/p2p/libp2p_node.go:480-488 | a reading of the heartbeats is each peer's last heartbeat if that is live |
| Registry.ReadsLeaveNoTrace | internal/p2p/libp2p_node.go:472-488 | dropping every read from a run changes no later answer |
| Discovery.Libp2pDiscovery.ShouldQuery | internal/p2p/libp2p_discovery.go:183-190 | refuses exactly before the recorded instant |
| Discovery.Libp2pDiscovery.MarkQueryFailure | internal/p2p/libp2p_discovery.go:192-196 | the peer is backed off for 30 seconds |
| Discovery.Libp2pDiscovery.MarkQuerySuccess | internal/p2p/libp2p_discovery.go:198-202 | the back-off is lifted |
| Discovery.BackOffIsExact | internal/p2p/libp2p_discovery.go:183-202 | over every interleaving of marks a probe is admitted exactly when the last recorded outcome is not a failure of the last 30 seconds |
| Discovery.NoProbeSoonAfterFailure | internal/p2p/libp2p_discovery.go:183-202 | no probe within 30 seconds of any failure unless a success came in between |
| Discovery.RegistryWins | internal/p2p/libp2p_discovery.go:80-123 | a registry's document wins over a heartbeat and the last registry that names a peer wins |
| Discovery.CoveredByLast | internal/p2p/libp2p_discovery.go:80-123 | which document stands for a peer: the last taken from the registries, by bootstrap peer and place in its answer, or else the last heartbeat |
| Discovery.CandidatesAre | internal/p2p/libp2p_discovery.go:40-121 | exactly who may be probed |
| Discovery.Libp2pDiscovery.CollectPeers | internal/p2p/libp2p_discovery.go:40-121 | the peers that may be probed |
| Discovery.Libp2pDiscovery.CollectDocs | internal/p2p/libp2p_discovery.go:61-123 | the documents of heartbeats and registries, skipping empty and own ids |
| Discovery.Libp2pDiscovery.ProbePeer | internal/p2p/libp2p_discovery.go:132-150 | one turn of the probing loop |
| Discovery.Libp2pDiscovery.ListCapabilities | internal/p2p/libp2p_discovery.go:39-181 | the listing and the back-off table after visiting the peers in some order |
| Discovery.ListingAscends | internal/p2p/libp2p_discovery.go:168-172 | the listing has strictly ascending peer ids and holds every document once |
| Text.LeqIsLexicographic | internal/p2p/libp2p_discovery.go:172 | the order of peer ids is the dictionary order by code points |
| Discovery.CallIsExact | internal/p2p/libp2p_discovery.go:80-181 | in any order of visits: covered peers are never probed, exactly the peers neither covered nor backed off are, once each, every document is a covered peer's or a probe's answer, and the back-off is renewed or lifted for exactly the probed peers |

## Left out

- Floating point: `float64` and instants are mathematical reals; only the infinities and the undefined value of a score without free memory are kept.
- Clocks: every reading of the clock is an argument, and runs assume that it never goes back.
- Hashing: SHA-256 is an arbitrary function from strings to hexadecimal digests.
- Characters: streams carry characters, not UTF-8 bytes; byte counts are those of UTF-8, invalid UTF-8 is not modelled.
- JSON field names: matched exactly, while the library also accepts other letter cases; error texts of the JSON library are not modelled, and an error text used as a format string is passed on unchanged.
- Integer widths: counters, balances and queue depths are unbounded; token limits and status codes are 64-bit integers.
- Streams: write failures, resets in the middle of a body, timeouts and deadlines; a stream ends where its text ends.
- Routing.SortByScore: stands for the library sort by its contract only, and no order among equal scores is promised.
- Client.ClientService.ListPeers, GetRoutingSettings, first-token and total latencies of the chat client, logging: straight-line code.
- RouteCache.GatewayClient.Infer: the error texts for an unusable URL are one; the metadata map that the source updates in place, and so the caller's copy of it, is a value here.
- Registry.Node.MergeLocked, Registry.Documents: loops that the source has inline are methods of their own here.
- Discovery.Libp2pDiscovery.ListCapabilities: address book updates and connection attempts are oracles; whether announced addresses can be added is one too.
- The non-streaming answer of the Ollama adapter, the other backends, and the rest of the chat client: pass-through or user interface.
- LAN and combined discovery: a simpler repeat of the registry.
- libp2p, HTTP servers and clients, key files, configuration, the setup wizard, deployment: foreign or straight-line code. Decoding the encoding of a well-formed peer id is taken to give the id back.
- A published queue depth of zero when idle is not claimed: the error path never publishes a depth.
- In a node that is both client and provider the tracker is shared; `Admission.LockoutIsAbsorbing` is about a tracker that only the provider uses.
