# circular: a verified model

`circular` is a Core Lightning plugin that rebalances the channels of a routing node: it searches for
the cheapest circular route, pays itself along it, learns from failures, and does so for many channels
in parallel. This project models that logic in Dafny and proves what it computes.
`dafny verify dfyconfig.toml` checks everything.

| file | models |
|---|---|
| `Base.dfy`, `Channels.dfy`, `Fees.dfy` | identifiers, channels, fee arithmetic (BOLT #7, section "HTLC Fees") |
| `Routes.dfy`, `PaymentRoute.dfy` | routes as channel sequences; the route object with `Prepend`, `Append`, listed fees |
| `Search.dfy`, `Optimality.dfy`, `Completeness.dfy`, `HopLimits.dfy` | the search as a transition system on values; what its final labels prove; when it finds a cheapest route |
| `Closing.dfy`, `Affordability.dfy` | searched routes once they are closed and paid; the retry loop on a fixed graph |
| `PriorityQueue.dfy`, `Pathfinder.dfy` | the binary heap; the search itself in loops over maps and heap |
| `Store.dfy`, `StoredGraphs.dfy`, `Graph.dfy` | channel map and inbound index, as a value and as an object; the graphs a load can produce |
| `Liquidity.dfy`, `Learning.dfy` | liquidity beliefs; from a failure notification to the searches that avoid the channel |
| `Scheduler.dfy`, `Results.dfy`, `Parallel.dfy` | the pull/push scheduler as a transition system, as a function of the results that arrive, and as an object |
| `Depletion.dfy` | what the scheduler leaves on a channel |
| `Candidates.dfy`, `Commands.dfy` | candidates; the two commands from request to report |
| `Rebalance.dfy`, `Payments.dfy` | accepted routes and the retry loop; the life of a payment in the database |

How the pieces hang together:

- `Pathfinder.Dijkstra` is the program's search. Its contract says that its result is one of the answers
  `Optimality.Answers` allows: one explained by final labels in which every followed-up node is relaxed and
  every label has a usable tree edge. Map iteration order and heap ties stay open, so everything proved of
  `Answers` holds for every order. `Completeness.AnswerExists` shows that there always is an answer. Theorems
  "over all graphs" range over all queries and all their answers; the graph on which one fails without its
  condition is `StoredGraphs.Storable`: some file makes the store hold exactly it.
- The methods of `Graphs.Graph` state their whole new state as a function of `Store`; the agreement of index
  and channels, and the pairing of beliefs, are then lemmas over all runs of these functions.
- The methods of `Parallel.ParallelRebalance` take legal steps of the transition system in `Scheduler`, so
  what is proved of all legal runs holds for the object; the order of results is an argument. Their outcome is
  the function `Results.Rounds` of the results that arrive.
  `Commands.Call` puts defaults, checks, candidates and scheduler together.
- `Affordability.OnGraph` ties the retry loop of `Rebalancing.Run` to the answers of the search; every graph and
  every outcome of the payments can be met that way (`Affordability.SomeWorld`).

Integers are unbounded in the main theorems; where 64-bit arithmetic matters it is written out
(`Fees.ComputeFee64`, `Store.Update`, `Scheduler.Shift`, `Commands.Msat`). Node ids are the numbers
their hex strings denote, channel ids are pairs of short channel id and direction, database keys are a constructor per prefix.
Opaque calls become parameters: what an attempt meets (`world`), when a clock is read (`clock`), which
result arrives next (`Arrival`). Hashes are fresh by assumption.

Promises of the documentation or the tests that the code does not keep, each with the exact condition:

- "At least this amount is left" in a depleted channel (the repository's README.md:98-103): over any distinct
  candidates, kept in every run for one of them exactly if no number of splits overshoots that the amount allows
  and the target channel has room for (`Depletion.PromiseKeptIff`), which for a usable candidate and a threshold
  of a split or more means that its balance starts above it by all that such splits move
  (`Depletion.PromiseNeedsWholeAmount`). A candidate queued several times can lose as many splits below the
  threshold (`Scheduler.RunKeepsBalances`, `Depletion.RepeatedFloorIsTight`).
- "If `inlist` is specified, `minoutppm` is ignored" (rebalance/parallel/push.go:50-55 sets it to zero, which the
  defaults then turn into 50): kept exactly if every channel it concerns costs more than 50 ppm
  (`Candidates.ListedPushFindsDocumentedIff`). The documented defaults for `filluptopercent` and
  `filluptoamount` differ from rebalance/parallel/push.go:12-16 as well; the code is followed.
- The search finds a cheapest route within the hop limit (rebalance/rebalance.go:70-84 relies on it): over all
  graphs of `n` nodes exactly for limits of at most one or at least `n - 1`
  (`HopLimits.ReliableIffFewOrEnoughHops`). Raising the limit can even lose a route found before
  (`HopLimits.LadderFoundIff`).
- With hops enough the search finds a cheapest route: over all graphs with HTLC minimums up to `m` exactly if
  `m` is at most the amount (`Completeness.CompleteIffMinimumsAccept`).
- A searched route can be paid: the closing channel's fee is added after the search has checked the inner
  hops; over all graphs exactly closing channels that charge nothing are harmless
  (`Closing.AlwaysPayableIffClosingIsFree`).
- The cheapest route found makes the cheapest circular route: routes are compared without the closing fee they
  all carry; over all graphs exactly closing channels that charge nothing are harmless, for amounts up to
  about 10^12 msat (`Closing.CheapestCycleIffClosingIsFree`).
- A hop's liquidity covers the amount stored in it (graph/pathfinder_test.go:57): over all searched routes exactly
  for channels that charge nothing, or that no search uses because they are inactive, lead back to their own
  node, charge 2^31 msat or more, or exclude the amount by their HTLC limits (`Closing.LiquidityCoversStoredIff`).
- The outcome of a payment is taken at most once: exactly if each of its timeouts is handled while it is
  pending or before any outcome was taken (`Payments.OutcomeOnceIff`).
- Two channels with the same peer make the route code index an empty slice (graph/route.go:44), which
  rebalance/byscid.go does not rule out: `Rebalancing.PanicsIffSamePeer`.
- A peer listed twice in `outlist` or `inlist` puts its channels into the queue twice:
  `Candidates.FoundDistinctIff`.

## Model

| member | source | states |
|---|---|---|
| Pathfinder.Dijkstra | graph/pathfinder.go:20-141 | for every graph whose index agrees, the search terminates with an answer explained by final labels, whatever the map order and heap ties; unknown nodes are reported first |
| Pathfinder.RelaxChannel | graph/pathfinder.go:101-126 | checking and relaxing one channel changes distance, hop and queue as one step of the transition system |
| Pathfinder.ExpandNode | graph/pathfinder.go:79-128 | walking the inbound index of a node relaxes all channels into it, excluded sources apart |
| Pathfinder.Rebuild | graph/pathfinder.go:135-139 | following the hop map ends and yields the label tree's path with the amounts and delays entering each channel |
| PriorityQueues.PriorityQueue.Push | graph/pq.go:38-43 | adds exactly the entry and keeps heap order and element indices |
| PriorityQueues.PriorityQueue.Pop | graph/pq.go:45-53 | removes exactly one entry of least priority and keeps heap order and element indices |
| PriorityQueues.RootIsLeast | graph/pq.go:27-30 | in a heap the first element is no larger than any other |
| PriorityQueues.DownStep | graph/pq.go:32-36 | an exchange with the smaller child restores the order above and leaves it open only below |
| Search.RelaxInv | graph/pathfinder.go:84-127 | relaxing any channel into the expanded node keeps labels, label tree, settled nodes and queue consistent, and leaves that channel with nothing better to offer |
| Search.BetterLabel | graph/pathfinder.go:109-112 | a push strictly lowers its node's label, below everything queued for that node, and never concerns a settled node |
| Search.LiveEntry | graph/pathfinder.go:57-66 | priorities never fall below the last one taken, and an entry with the current label belongs to a node not expanded before |
| Search.SkipInv | graph/pathfinder.go:64-66 | skipping a stale entry loses nothing |
| Search.SearchStaysIn64Bits | graph/pathfinder.go:107-108 | with 32-bit fee fields and room for the largest label no fee, amount or label overflows where the search computes it |
| Optimality.SearchSound | graph/pathfinder.go:79-140 | a returned hop list is a simple connected path of usable, non-excluded channels from source to destination within the hop limit, costing less than 2^31 msat |
| Optimality.StoredHops | graph/pathfinder.go:101-119 | each hop's channel is active and within limits and liquidity for the amount in the next hop, and adds its own fee and delay |
| Closing.LiquidityCoversStoredIff | graph/pathfinder_test.go:57 | over all graphs whose HTLC limits are those of gossip, a channel's liquidity covers its hop's own amount in every answer, as the repository's test expects, exactly if it charges nothing or its record keeps every search off it; otherwise a loadable graph fails |
| Optimality.LowerBound | graph/pathfinder.go:55-129 | final labels are lower bounds on the cost of all usable routes that meet no node dropped for its hop count, although fees depend on downstream amounts |
| Optimality.CheapestOrHidden | graph/pathfinder.go:55-133 | the answer is no dearer than any usable route over channels accepting the amount, unless a no dearer detour from a node on it uses exactly the hops allowed |
| Completeness.AnswerExists | graph/pathfinder.go:55-141 | from every query the steps of the search lead to an answer |
| Completeness.CheapestWithEnoughHops | graph/pathfinder.go:55-133 | with enough hops and no HTLC minimum above the amount the answer is the cheapest route, and "no route" is answered exactly when none costs below 2^31 msat |
| Completeness.CompleteIffMinimumsAccept | graph/pathfinder.go:101-104 | over all graphs with hops enough and HTLC minimums up to m, no usable route is cheaper than the answer exactly if m is at most the amount; otherwise a loadable graph fails |
| HopLimits.ReliableIffFewOrEnoughHops | graph/pathfinder.go:73-76 | over all graphs of n nodes a hop limit never hides the cheapest route within it exactly if it is at most 1 or at least n - 1; otherwise a loadable graph fails |
| HopLimits.LadderMissed | graph/pathfinder.go:73-76 | on a loadable ladder graph of any size the search answers "no route" although a two-hop route is within the limits |
| HopLimits.LadderFoundIff | rebalance/rebalance.go:70-84 | the route of the ladder, a loadable graph, is found at every hop limit from 2 on but one: raising the limit loses a route found before |
| Completeness.MinimumHidesRoute | graph/pathfinder.go:101-104 | for every amount some loadable graph has a usable route that the cheaper label hides by falling below an HTLC minimum, whatever the search chooses |
| Fees.FeeMonotone | graph/channel.go:30-40 | a larger amount never pays a smaller fee |
| Fees.FeeBounds | graph/channel.go:30-40 | the fee is less than 1 msat above base fee plus exact quotient and at most 999 ppm/10^6 below |
| Fees.AtMostOneAbove | graph/channel.go:30-40 | the fee is at most 1 msat above the BOLT #7 fee |
| Fees.UnderpaysIffRateAbove1001 | graph/channel.go:30-40 | over all amounts the fee reaches the BOLT #7 fee exactly for rates up to 1001 ppm, whatever the base fee |
| Fees.WholeSatoshisNeverUnderpay | graph/channel.go:30-40 | on whole satoshis the fee reaches the BOLT #7 fee at any rate and base fee |
| Fees.ChannelPriceIff | graph/channel.go:42-44 | a channel's price in ppm is within a limit exactly if its fee is below one ppm more |
| Fees.FeeDoesNotWrap | graph/channel.go:30-40 | with 32-bit fee fields and below 1000 * 2^32 msat the 64-bit computation is exact |
| Fees.FeeModulo | graph/channel.go:30-40 | as long as the product of satoshis and rate fits 64 bits the fee is the exact one modulo 2^64 |
| Fees.FeeWrapsBeyond | graph/channel.go:30-40 | two satoshis above the bound, at the highest rate, the product wraps and the program charges next to nothing |
| Channels.Channel.ResetLiquidity | graph/channel.go:70-73 | sets the belief to half the capacity and the time, nothing else |
| PaymentRoutes.Route.Prepend | graph/route.go:43-51 | puts a hop in front with the first hop's amount and delay |
| PaymentRoutes.Route.Append | graph/route.go:64-72 | whatever the search stored, every hop ends with the amount and delay leaving its channel, folded back from the payment amount and 144 |
| PaymentRoutes.Route.RecomputeFeeAndDelay | graph/route.go:53-62 | the backward loop computes that fold in place |
| PaymentRoutes.ListRoute | graph/prettyRoute.go:30-59 | lists for each hop its source, amount, delay, the difference to the hop before as fee, and its price |
| PaymentRoutes.ListedFeeIsCharged | graph/prettyRoute.go:46-49 | a listed fee is what the channel charges for the amount it carries |
| PaymentRoutes.FeeIsSum | graph/route.go:35-37 | the route's fee is the sum of the listed fees and the cost of all channels but the first |
| PaymentRoutes.HopsAddUp | graph/route.go:53-72 | the last hop carries amount and final delay, any other what the next one carries, the next channel's fee and its delay |
| PaymentRoutes.SearchIsShifted | graph/pathfinder.go:115-119 | the search stores in a hop the amount the hop before it carries, and its delay but for the final one |
| PaymentRoutes.CarriesValidatedIff | graph/route.go:53-72 | inner hops never carry less than the search checked, and exactly that exactly if the closing channel charges nothing |
| PaymentRoutes.PayableIffUsable | graph/route.go:53-72 | the closed route can be paid exactly if its inner part is usable for the amount plus the closing fee |
| Closing.AlwaysPayableIffClosingIsFree | rebalance/route.go:20-26 | over all graphs every searched inner route stays payable exactly if the closing channel charges nothing, or there is nothing to search between our two channels; otherwise a loadable graph fails |
| Closing.CheapestCycleIffClosingIsFree | rebalance/route.go:20-26 | over all graphs with hops enough the answer makes the cheapest payable cycle if closing is free, and for amounts up to about 10^12 msat only then, a loadable graph failing |
| Store.InsertKeepsIndex | graph/graph.go:76-88 | adding a channel not known before keeps index and channel map in agreement |
| Store.LoadBuildsIndex | node/file.go:28-39 | after a load, in any order, the index agrees with the channels, zero limits filled |
| Store.RefreshKeepsIndex | graph/graph.go:90-109 | a gossip refresh keeps the agreement |
| Store.RefreshIsCurrent | graph/graph.go:97-107 | the store holds the last gossip record and its limits; old beliefs survive, new channels start at half capacity and time 0 |
| Store.RefreshUnmentioned | graph/graph.go:97-107 | channels gossip does not mention stay as they are |
| Store.DeleteKeepsIndex | graph/graph.go:136-153 | deleting with swap-remove keeps the agreement |
| Store.DeleteAllKeepsIndex | graph/graph.go:120-134 | deleting many channels in any order keeps the agreement and removes exactly them |
| Store.WalkIsScan | graph/pathfinder.go:79-98 | walking the index meets exactly the channels a full scan would, each once; the lookup never fails |
| Store.UpdateSets | graph/graph.go:165-181 | an update sets belief and time of one direction, the 64-bit rest and the same time for the other, each whether or not the other is known, and nothing else |
| Store.ResetByAge | graph/graph.go:201-206 | a belief survives a staleness reset unchanged exactly if it is no older than the threshold; otherwise it is half the capacity as of the clock |
| Store.LearnedLastsUntilStale | graph/graph.go:165-209 | what an update learned stands after a later reset exactly if now is at most the threshold after it |
| Store.PrunedByAge | graph/graph.go:120-134 | a prune keeps exactly the channels whose record is at most 1209600 seconds old, as they are |
| Store.KnownIffHeardRecently | graph/graph.go:90-134 | after any rounds of refresh and prune a channel is known exactly if the last word of gossip about it is at most 14 days old, and then by that record |
| Store.RunKeepsIndex | graph/graph.go:76-209 | the agreement holds after every run of refreshes, deletes, prunes, updates and resets |
| Store.RunKeepsLimits | graph/graph.go:76-209 | over every such run the HTLC limits the search checks are those of the gossip record held |
| Store.LoadRestoresIff | graph/graph.go:80-87 | a load, which finds no limits in the file, restores the channels exactly if their limits were those of gossip |
| StoredGraphs.StorableIff | node/file.go:28-39 | a load leaves exactly the graph of a query exactly if its channels conform to the chain, their limits are gossip's and its nodes are those channels lead to |
| StoredGraphs.StorableAgrees | node/file.go:28-39 | in such a graph index and channels agree, so the search runs on it |
| Graphs.Graph.AddChannel | graph/graph.go:67-88 | appends to the index and fills limits left at zero |
| Graphs.Graph.Load | node/file.go:28-39 | indexes all channels of a file once, in any order, fills limits, and leaves index and channels in agreement |
| Graphs.Graph.RefreshChannels | graph/graph.go:90-109 | the new state is the refresh of the old one |
| Graphs.Graph.DeleteChannel | graph/graph.go:136-147 | removes the channel from map and index |
| Graphs.Graph.PruneChannels | graph/graph.go:120-134 | deletes exactly the channels not updated for longer than 14 days |
| Graphs.Graph.UpdateChannel | graph/graph.go:165-181 | sets the belief of one direction and the 64-bit rest of the capacity for the other |
| Graphs.Graph.RefreshLiquidity | graph/graph.go:193-209 | resets exactly the stale beliefs, each at its own clock reading, and counts them |
| Graphs.Graph.GetChannel | graph/graph.go:183-191 | the channel filed under the id, or an error |
| Liquidity.RefreshPairedIff | graph/graph.go:96-108 | one refreshed channel keeps beliefs adding up to capacities exactly if it was known or its opposite is at half |
| Liquidity.UpdatePairedIff | graph/graph.go:165-181 | an update keeps them adding up exactly if its amount is within the capacity |
| Liquidity.ResetKeepsPaired | graph/graph.go:193-209 | the staleness reset keeps them adding up although each reset reads the clock separately |
| Liquidity.RunKeepsPaired | graph/graph.go:90-209 | over every run that prunes pairs together and updates whole pairs within capacity, the two beliefs add up to 1000 * satoshis |
| Liquidity.PoorChannelUnused | graph/pathfinder.go:102 | a channel believed to hold less than the amount is on no returned route |
| Liquidity.FailureIsRemembered | node/payment.go:108-112 | after a failure update for m msat no search for m or more uses the channel until its belief is changed again |
| Learning.TurnLearns | node/payment.go:108-112 | the update a failure queues leaves the failed amount less 1000000 msat, or nothing, as the belief, as of now, and the rest of the capacity for the other direction |
| Learning.FailureReachesSearch | node/liquidity.go:14-29 | the first failure notification of a payment of ours, its update taken in turn after those before it, keeps the failed channel out of every answer for as much or more, through gossip and staleness resets, until the belief is stale or another update or a deletion concerns it |
| Scheduler.RunIsSafe | rebalance/parallel/candidates.go:94-119 | in every reachable state the amounts count the rebalances, never exceed the target, at most `splits` run, and candidates are conserved |
| Scheduler.StepKeepsAmounts | rebalance/parallel/result.go:78-84 | every step keeps the amounts multiples of the split within the target; rests on divisibility |
| Scheduler.EachInOnePlace | rebalance/parallel/candidates.go:67-92 | from distinct candidates each is queued, in flight or dropped, in one place only |
| Scheduler.EndIsComplete | rebalance/parallel/result.go:46-70 | with positive splits the run ends only with the whole amount rebalanced or no candidate left |
| Scheduler.StepLowers | rebalance/parallel/result.go:46-70 | every step lowers (remaining splits, candidates alive, queued) |
| Scheduler.FiredBound | rebalance/parallel/candidates.go:104-118 | at most amount / splitAmount plus the number of candidates rebalances are fired |
| Scheduler.RunKeepsBalances | rebalance/parallel/pull.go:88-105 | over a whole run the balance of a candidate queued m times falls at most to the smaller of its initial value and the threshold less m splits, and never wraps |
| Scheduler.RunBooksTarget | rebalance/params.go:36-45 | over a whole run the target gains, or gives in a push, one split for each success and nothing else, never beyond its capacity; without a target channel nothing succeeds |
| Scheduler.SettleIsTransfer | node/peers.go:101-117 | a success moves one split, in whole satoshis, between candidate and target and touches nothing else |
| Scheduler.ThresholdIff | rebalance/parallel/pull.go:89-94 | a balance reaches the threshold exactly if it reaches the absolute bound or the percentage of the capacity rounded down |
| Scheduler.UsableIff | rebalance/parallel/push.go:96-114 | a channel can be used exactly if it is normal, connected and holds the absolute bound or the percentage |
| Results.FiresAllItCan | rebalance/parallel/candidates.go:94-119 | firing stops only at the parallelism, with the whole amount rebalanced or in flight, or without candidates |
| Results.DeliveredBy | rebalance/parallel/result.go:49-66 | a result takes its rebalance out of flight, counts as success exactly if the payment succeeded over liquid channels, and requeues or drops its candidate |
| Results.SuccessFiresAgain | rebalance/parallel/result.go:53-69 | a candidate that succeeded is the next one fired, if it can be used and more is wanted |
| Results.RoundsCount | rebalance/parallel/result.go:46-70 | the successes of a run are exactly the results that succeeded |
| Results.NoneSucceeded | rebalance/parallel/result.go:46-70 | where no payment succeeds no result counts as success |
| Results.AllSucceedCompletes | rebalance/parallel/result.go:46-70 | if every payment succeeds and one candidate and the target hold what the amount needs, the whole amount is rebalanced, whatever the other candidates and the order |
| Depletion.PromiseKeptIff | README.md:98-103 | over any distinct candidates, every run leaves the threshold on one of them exactly if no split within the amount and the target's room can still be taken from it and then overshoots |
| Depletion.PromiseNeedsWholeAmount | README.md:98-103 | for a usable candidate and a threshold of a split or more that is: exactly if the balance starts above it by what all splits move that the amount allows and the target can take |
| Depletion.RepeatedFloorIsTight | rebalance/parallel/candidates.go:94-119 | for every m a candidate queued m times can end m splits below its threshold |
| Commands.DefaultsAreValidIff | rebalance/parallel/params.go:14-50 | after the defaults price limit, attempts, hops and percentage are positive, and the check passes exactly if the 64-bit amount is a positive number of 64-bit splits |
| Commands.WholeSplitsInSats | rebalance/parallel/params.go:37-49 | without wrap-around that is: exactly if the satoshis asked for are a positive number of splits |
| Commands.RequestIsFollowed | rebalance/parallel/parallel.go:42-57 | every amount, number and percentage given is the one worked with, amounts times 1000 modulo 2^64 |
| Commands.DefaultsInNumbers | rebalance/parallel/params.go:8-32 | every default in numbers |
| Commands.MarketIsRequested | rebalance/parallel/pull.go:48-55 | candidates are judged for the split amount and prices requested, over the listed peers or all |
| Parallel.ParallelRebalance.GetNextCandidate | rebalance/parallel/candidates.go:67-92 | drops exactly the candidates in front that are not normal, not connected or below both bounds, and returns the first other one, or none when the queue is empty |
| Parallel.ParallelRebalance.FireCandidates | rebalance/parallel/candidates.go:94-119 | takes legal steps until nothing more can be fired, ending where `Results.FireAll` does |
| Parallel.ParallelRebalance.TakeResult | rebalance/parallel/result.go:49-66 | a result is a legal step: success counts, requeues in front and moves balances |
| Parallel.ParallelRebalance.Record | rebalance/parallel/result.go:53-60 | a success is added to the report and its candidate queued in front, if it is found again |
| Parallel.ParallelRebalance.UpdateAmounts | rebalance/parallel/result.go:78-93 | moves one split from in flight to rebalanced, or drops it |
| Parallel.ParallelRebalance.WaitForResult | rebalance/parallel/result.go:42-76 | for any order and outcome of results it terminates with the amount rebalanced or no candidate left, in the state the arrivals lead to one by one, having added up their attempts |
| Commands.Call | rebalance/parallel/pull.go:41-74 | a whole pull or push: refused for the first reason there is, or the outcome of exactly the results that arrive: whole splits within the amount, all of it unless candidates ran out, no candidate below its bound, attempts added up; if everything succeeds the amount reported is the amount requested |
| Commands.AcceptedIff | rebalance/parallel/push.go:41-73 | a call is accepted exactly if it names a known channel, asks for a positive number of splits and at most 100 percent, and some asked peer other than the target's offers a good channel |
| Commands.RefusedBecause | rebalance/parallel/params.go:42-50 | which reason a refusal gives, exactly, in terms of what is asked for |
| Candidates.FindCandidates | rebalance/parallel/candidates.go:10-44 | collects the good channels of the listed peers in order, the excluded peer left out, or reports that there are none |
| Candidates.FoundDistinctIff | rebalance/parallel/candidates.go:46-65 | the candidates are distinct exactly if no contributing peer is listed twice |
| Candidates.TargetNotFound | rebalance/parallel/candidates.go:18-21 | the target channel is not among the candidates |
| Candidates.FoundTimes | rebalance/parallel/candidates.go:46-65 | a good channel is found as often as its peer is asked |
| Candidates.AskedTimesKeepsBalances | rebalance/parallel/candidates.go:10-44 | a pull or push keeps every candidate above the bound for as many splits as its peer is asked times |
| Candidates.FoundIffOffered | rebalance/parallel/candidates.go:17-37 | the candidates are exactly the good channels of asked peers other than the excluded one |
| Candidates.FoundInOrder | rebalance/parallel/candidates.go:17-37 | candidates come in the order of the peers asked and of each peer's channels |
| Candidates.GoodIff | rebalance/parallel/push.go:75-94 | a channel is good exactly if its fees for the split amount meet the bounds in whole ppm |
| Candidates.ListedPullFindsDocumentedIff | rebalance/parallel/pull.go:48-55 | with a list a pull finds every known channel of the listed peers, whatever it costs, exactly if none costs 2^63 ppm or more |
| Candidates.ListedPushFindsDocumentedIff | rebalance/parallel/push.go:48-55 | with a list a push finds every channel it is documented to find exactly if all of them cost more than the default of 50 ppm |
| Rebalancing.Rebalance.SetDefaults | rebalance/params.go:79-98 | afterwards amount, price limit, attempts and hops are positive: kept, the amount times 1000 modulo 2^64, or the defaults 200000000, 10, 1 and 8 |
| Rebalancing.Rebalance.GetRoute | rebalance/route.go:11-33 | the outcome is the search answer closed with our own channels and checked for its price; a route returned is a simple cycle over our channels and a path of the graph around our node, of 3 to hopLimit channels, within the price limit |
| Rebalancing.AcceptedIsCheapCycle | rebalance/route.go:12-32 | an accepted route is a simple cycle through our node within the hop limit, with fee * 10^6 < (maxPPM + 1) * amount and 144 blocks at the end |
| Rebalancing.InnerIsCheapest | rebalance/route.go:12-20 | with hops enough and no HTLC minimum above the amount the inner part found is the cheapest path around our own node, and "no route" means that none costs below 2^31 msat |
| Rebalancing.AcceptedIffCheap | rebalance/route.go:28-30 | a searched route is accepted exactly if its fee is below (maxPPM + 1) parts per million |
| Rebalancing.DearClosingNeverAccepted | rebalance/parallel/push.go:75-84 | a closing channel dearer than the limit makes every route too dear, as the push's candidate filter assumes |
| Rebalancing.PanicsIffSamePeer | graph/route.go:43-44 | the index panic happens exactly if both channels lead to the same known peer |
| Rebalancing.Run | rebalance/rebalance.go:47-113 | which attempts are made with how many hops, why the loop stops, how many payments are sent and what number is reported, whatever the attempts meet |
| Rebalancing.RunBounds | rebalance/rebalance.go:53-105 | at most attempts + maxHops - 3 attempts, at most `attempts` payments, none after a success |
| Rebalancing.RunBoundIsTight | rebalance/rebalance.go:53-105 | the bound on attempts is reached |
| Rebalancing.SentErrors | rebalance/route.go:35-72 | a payment is out exactly for success and four of the errors; only the vague one is retried |
| Affordability.PaysIffAffordable | rebalance/rebalance.go:53-84 | on a fixed graph with hops enough, no HTLC minimum above the amount and a free closing channel, the loop sends a payment exactly if some usable path around our node is within the price limit |
| Affordability.SentIsAffordable | rebalance/route.go:11-33 | whatever the closing channel charges, a payment sent means that the graph has a route whose cycle is within the price limit |
| Payments.NeverBoth | node/payment.go:56-70 | a preimage and its timeout marker never coexist |
| Payments.ClosedStaysClosed | node/payment.go:56-93 | after timeout, failure or success no HTLC lookup finds the preimage again |
| Payments.OutcomeOnceIff | node/payment.go:56-124 | over every run with fresh hashes a payment's outcome is taken at most once, whatever is notified, exactly if each of its timeouts is handled while it is pending or before any outcome |
| Payments.OnceIff | node/payment.go:72-93 | at most one outcome is taken under any further failure and success notifications exactly if taken and pending add up to at most one |
| Payments.TimeoutKeepsOnceIff | node/payment.go:56-70 | handling a timeout keeps that exactly if the payment is pending or was never resolved |
| Payments.LateTimeoutTakesTwice | node/payment.go:56-93 | a timeout handled after the payment was resolved lets a repeated notification be taken twice |
| Payments.RecordsMatchNotifications | node/payment.go:95-124 | recorded outcomes stem from notifications of their kind |
| Payments.UpdatesAreFailures | node/payment.go:108-112 | every liquidity update stems from a failure notification |
| Payments.OursIffAwaited | node/payment.go:56-93 | a payment counts as ours exactly from its generation to the first notification, timed out or not |
| Payments.PreimageHeldIff | node/preimage.go:26-33 | an HTLC finds a preimage exactly if it is the one generated for its hash and the payment neither timed out nor was notified nor expired since |
| Payments.FirstNotificationIsTaken | node/payment.go:95-113 | of all failure notifications in a run exactly the first of a payment of ours queues a liquidity update and is recorded; later ones and strangers' change nothing |
| Payments.FirstSuccessIsTaken | node/payment.go:115-124 | of all success notifications exactly the first of a payment of ours is recorded, and teaches nothing |
| Payments.PaymentNode.ManageTimeout | node/payment.go:56-70 | the preimage goes and the marker comes |
| Payments.PaymentNode.DeleteIfOurs | node/payment.go:72-93 | tells whether the payment is ours and removes preimage or, failing that, marker |
| Payments.PaymentNode.OnPaymentFailure | node/payment.go:95-113 | handles a failure notification |
| Payments.PaymentNode.OnPaymentSuccess | node/payment.go:115-124 | handles a success notification |
| Payments.PaymentNode.UpdateLiquidity | node/liquidity.go:14-29 | applies the oldest update to the channel and its opposite direction |
| Payments.PaymentNode.OnHtlcAccepted | cmd/circular/hooks.go:14-22 | an HTLC is resolved exactly while its preimage is stored, and with it (`Payments.PreimageHeldIff` says which) |

## Left out

- JSON-RPC, the websocket server, plugin and cron wiring, logging, file encoding and renaming: input and output only.
- Locks and goroutine scheduling: each critical section is one step; only the order of results is open.
- Badger: the database is a map; expiry of keys is a step that may happen at any time.
- Aliases, statistics, message strings, the per-peer price table of successes (rebalance/parallel/result.go:31-40): easy members.
- `PriorityQueue.update` (graph/pq.go:56-60): nothing calls it.
- Pointers to channels held outside the store: a route hop and a rebalance hold the channel's values at the time of the lookup, so a belief changed later is not seen through them; the route code reads only fee, delay and identity, which never change in place.
- Heap elements are values in a sequence field, not objects: their index field is kept, sharing of an element is not modelled.
- Pathfinder.Dijkstra: the branch for a channel that is in the index but not in the map is not modelled, because the index agreement it requires makes it unreachable (`Store.WalkIsScan`); the early exit is a loop condition.
- Optimality.CheapestOrHidden: goes one way only; a detour hides a route only if the search does label the node by it, which depends on the labels further on and on which of several equally cheap ones the map order picks.
- Closing.CheapestCycleIffClosingIsFree: above about 10^12 msat only that a free closing channel is harmless, because the counterexample's fees would reach the search's infinity.
- Floating point: half a capacity is 500 * satoshis, percentages are fractions rounded down.
- Rebalancing.Run: a call of the payment function counts as sent even if the first peer refuses it at once.
- Commands.Call: the result of each rebalance fired, with its price limit, attempts and hops, is an argument; peers and their graph channels stay as they are during the call.
- Scheduler.RunKeepsBalances: no refresh of the peer list during the run, and no payments but the rebalances. A success needs both channels liquid where it is settled; the program asks at the start of each attempt (rebalance/params.go:36-45), but a channel cannot carry what others took meanwhile.
