# go-apns: verified model of the push pipeline

go-apns pushes notifications to Apple's service over HTTP/2. A client hands requests to a
pool of connections; a governor grows the pool when pushing blocks, replaces connections
that become unusable, and winds everything down when the client stops. This project models
that concurrent core in Dafny and proves what its goroutines keep in every interleaving.

Check everything with `dafny verify dfyconfig.toml`.

## How the model is organised

Two forms are used side by side.

- Objects whose methods change fields in place are classes with the source's fields
  (`EventLoop`, `BackOffTracker`, `TickTockCounter`, `TickTockFolder`, `Cell`,
  `WaitCounter`, `MovingAcc`, `Sampler`, `HTTPClient`, `Client`, `JWTSigner`,
  `RetryForwarder`). Each method is proved equal to a function of the old state, and the
  lemmas are about those functions.
- Goroutines that interleave are step systems: a state, an `Enabled` predicate, a `Next`
  function with one step for each atomic action, and runs that are arbitrary sequences of
  enabled steps. An unbuffered channel is a joint step of its sender and its receiver. The
  functions the classes implement are the ones the step systems take their steps with.

| File | What it holds |
| --- | --- |
| `Words`, `Options` | 32-bit and 64-bit arithmetic with its wrap-around; optional values |
| `BackOff` | the dial back-off tracker |
| `Scaling` | the scale calculators |
| `Governor` | the governor's event loop and its pacing |
| `Growth` | the event loop with a scale calculator plugged in, over repeated scale-ups |
| `Fleet` | governor, launchers, workers, round trips and retry forwarders as one step system |
| `RetryPath` | the way back of a request that is to be retried, shared by `Fleet` and `Retries` |
| `FleetSafety` | its invariant, the capacity bound, and what a soft stop implies |
| `FleetTermination` | the measure of a shutdown, and when a shutdown succeeds |
| `FleetShutdown` | from which states of the fleet a soft stop can still succeed |
| `FleetWitness`, `JamWitness` | concrete runs showing that the conditions are needed |
| `TickTock`, `Counter` | the packed atomic counters |
| `Decision`, `Evaluator` | the statistics the scaling decision is made from, and the decision |
| `Reservation` | the HTTP/2 stream semaphore |
| `Retries` | one request's way through the pipeline, including retries |
| `Lifecycle` | Start, Stop, Kill, Push and the submitter |
| `Pipeline` | `Fleet` and `Lifecycle` joined: what a caller of Stop gets |
| `PipelineShutdown` | from which states of the whole pipeline the governor can still be brought to its end |
| `PipelineDeadlock` | when a running client stands still before anybody stops it |
| `Signer` | provider token minting |

## What the code does not do

Some promises hold only under a condition. The model follows the code, and the members
named here state the condition and give a run that shows it is needed.

- A worker's exit may be received before its launcher's completion. The dead worker then
  stays in the governor's map: the live connections still respect the maximum
  (`FleetSafety.ReachableInv`), but the governor counts too many, exactly then
  (`FleetSafety.KnownAreLiveIff`, `FleetWitness.OvertakenExitOvercounts`), and a soft stop
  never completes (`FleetWitness.OvertakenExitWedges`).
- A worker that is leaving because of one quit signal may have its exit swallowed by
  another (`FleetWitness.SwallowedExitWedges`), and with no worker alive nobody sees the
  closed input unless a later poll scales up (`FleetWitness.NobodyAnnounces`).
- Once the submitter has left, nobody takes retries any more. The retry channel, the two
  forwarders and the buffer between them have room for 602; the next round trip to retry
  blocks and keeps its stream. Its worker waits for it (`JamWitness.RetriesWedge`), or sleeps
  over a request for which no stream is left (`JamWitness.StreamsWedge`). A Stop that meets
  the first case never returns, and Kill comes too late (`Pipeline.HangsForever`,
  `Pipeline.StopHangs`), although `apns2/streamer.go:171` expects no blocking.
  `Retries.RetryBlocksIff` says exactly when a retry can never be sent.
- `FleetTermination.RestStopsIff` shows that these are the only ways in which a soft stop comes
  to rest without completing, and `FleetShutdown.CanStopIff` from which states it can still
  complete at all.
- The same can happen to a running client whose submitter is blocked, before anybody stops it
  (`PipelineDeadlock.RunningClientStandsStill`), exactly in the states that
  `PipelineDeadlock.StandsStillIff` describes.
- A quit does not wait for the round trips on that connection, so a soft stop may complete
  while one of them is unsettled (`FleetWitness.QuitAbandonsRoundTrips`), and its result
  may then meet the closed callback channel (`Pipeline.ResultMeetsClosedCallback`). After a
  soft stop that can happen exactly if some attempt is still to be called back, which is
  one on such a connection. A Kill accepted while a Stop waits does the same to every attempt
  still to be called back (`Pipeline.MeetsClosedCallbackIff`, `Pipeline.KillMeetsCallback`,
  `Pipeline.KillLosesResults`).
- A round trip may send its quit signal on a channel a hard stop has closed, exactly when
  the governor knew the worker at the time (`FleetSafety.SignalsAreSafe`,
  `FleetWitness.HardStopMeetsSignal`).
- `apns2/client.go:218` says that closing `ctl` unblocks a pending Stop. Once a Stop waits
  for the governor the submitter has stored the closed state, and Kill is refused
  (`Lifecycle.KillInTimeIff`).
- `apns2/client.go:285` says that closing the queue makes a soft shutdown. The submitter
  stores the closed state and from then on Stop and Kill are refused while the workers'
  input stays open (`Lifecycle.StrandedForever`, `Lifecycle.QueueCloseStrands`). The governor
  can still be told to end exactly when the client is not stranded so (`Lifecycle.CloseIff`),
  and brought to its end exactly when `PipelineShutdown.ShutDownIff` says.
- A Push past its state check can meet the closed `out` channel (`Lifecycle.PushRacesClose`),
  from a stopping client exactly when a Stop was admitted with such a Push under way
  (`Lifecycle.PushPanicsIff`).
- `apns2/dispatch.go:457` speaks of 100 buffers of 500 requests. The count of the current
  buffer is never raised, so there is one buffer (`RetryPath.RetryForwarder.Forward`).
- A zero stream capacity admits every caller, and the configured limit is passed exactly
  through that (`Reservation.BoundBreaksIff`, `Reservation.ZeroCapacityBreaksBound`).
- The end of a back-off can move back. Without jitter it can exactly when no maximum is
  configured, or the maximum or the initial delay is at least 2^62 nanoseconds; with jitter,
  exactly when the longest delay with the largest jitter reaches past 2^63
  (`BackOff.MovesBackIff`).
- With jitter an update can panic, exactly when the delay can wrap or the shortest delay leaves
  no room for any jitter (`BackOff.PanicsIff`). The predefined configurations are free of both
  (`BackOff.PredefinedAreSound`).
- The 32-bit streak counters wrap, and the decision then differs from the one the samples
  call for, exactly when a count that decides has wrapped below the threshold
  (`Evaluator.VerdictExactIff`).

## Model

| member | source | states |
|---|---|---|
| FleetSafety.ReachableInv | apns2/dispatch.go:254-311 | Capacity: in every interleaving of governor, launchers, workers and round trips, launching or running connections whose end the governor has not received never exceed MaxConns, even when a worker's exit overtakes its launcher's completion |
| FleetSafety.Capacity | apns2/dispatch.go:359-413 | The same bound from any state satisfying the invariant, over any run, so that replacements (which bypass the cap check) never break it |
| FleetSafety.KeepsInv | apns2/streamer.go:78-189 | Every step of every goroutine keeps what the two maps, the closing flag and each worker, launcher, attempt and the retry path say about each other; a quit signal may be dropped at any time |
| FleetSafety.LiveAreKnown | apns2/dispatch.go:256-280 | No live connection is ever missing from both of the governor's maps |
| FleetSafety.KnownAreLiveIff | apns2/dispatch.go:255-280 | The governor's maps hold exactly the live connections, and its count is theirs, if and only if no worker's exit was received before its launcher's completion |
| FleetSafety.UpscaleFits | apns2/dispatch.go:382-413 | A scale-up launches no more than the maximum leaves room for beside any set of live connections covered by the maps |
| FleetSafety.SoftDrain | apns2/streamer.go:120-189 | In a run with no hard stop, no retry and no connection judged unusable, done is signalled only when every request handed to a worker was settled by exactly one callBack |
| FleetSafety.SoftStop | apns2/dispatch.go:296-311 | In any run without a hard stop, done is signalled only with the input closed, no connection live, and every attempt settled once or requeued unless its connection had been judged unusable |
| FleetSafety.StoppedIsWoundDown | apns2/streamer.go:82-91 | The same for any state satisfying the invariant: waiting for the round trips before reporting the closed input is what makes it true |
| FleetSafety.CalledAtMostOnce | apns2/streamer.go:165-189 | callBack is entered at most once for an attempt in every run, including hard stops and quits |
| FleetSafety.SignalsAreSafe | apns2/streamer.go:179-187 | A quit signal meets a closed channel, and no case of its select applies, if and only if there was a hard stop, the launcher's completion had been received, and the worker's exit had not been received after it |
| FleetSafety.BlockedCallTakesSignal | apns2/streamer.go:258-261 | A quit signal received by another blocked call drops that call's result and is spent, and the worker does not quit |
| FleetSafety.StopTellsReceivedWorkers | apns2/dispatch.go:300-307 | Once the governor stopped, a worker that still runs has its control channel closed if and only if its launcher's completion had been received |
| FleetTermination.CountsDown | apns2/dispatch.go:254-299 | Once the input is closed every step of a goroutine, the retry forwarders included, lowers a measure, replacements included, each being paid for by the quit of a used connection |
| FleetTermination.ShutdownIsBounded | apns2/streamer.go:78-118 | So a closing fleet takes at most as many goroutine steps as the measure says, in any order and with any number of poll ticks between them |
| FleetTermination.RestFinishes | apns2/streamer.go:106-113 | When nothing more can happen before the governor stopped, every launcher was received and every worker was received, never started, lost its exit, or is held up by round trips blocked on their retries |
| FleetTermination.ConnMoves | apns2/dispatch.go:424-444 | While the governor listens and the input is closed, any connection that is not finished and not held up by blocked retries can move |
| FleetTermination.AttemptMoves | apns2/streamer.go:158-264 | Without a hard stop an attempt that is not over can move unless its send on the retry channel blocks or it waits for a stream |
| FleetTermination.StarvedByRetries | apns2/streamer.go:156-176 | At rest a request waits for a stream only where every stream, and there is one, is held by a round trip blocked on its retry |
| FleetTermination.BlockedAtFullLoad | apns2/dispatch.go:459-502 | At rest, with the input closed and no Kill, a round trip still to send its retry means that the retry path carries its full load of 602 requests |
| FleetTermination.BlockedForever | apns2/streamer.go:87-175 | A worker that waits for a round trip blocked on a jammed path waits forever, and the governor never stops, as long as there is no Kill |
| FleetTermination.BlockingTakesRetries | apns2/dispatch.go:459-482 | A round trip blocked at rest takes a run with more than 602 retries |
| FleetTermination.HandingBackLightens | apns2/client.go:281-282 | The submitter takes the oldest retry, which makes room for one more |
| FleetTermination.RestStopsIff | apns2/dispatch.go:269-298 | At rest after the input was closed, without a Kill, the governor has stopped if and only if some worker reported the closed input, no worker's exit overtook its launcher's completion, none was swallowed by a second quit signal, and no worker waits for a round trip blocked on the full retry path or for a stream that such round trips hold |
| FleetTermination.OrderlyRest | apns2/dispatch.go:255-280 | In a run from the start with launcher-before-worker order and no quit signal to a leaving worker, a fleet at rest has stopped if and only if some worker reported the closed input and none is held up by blocked retries |
| FleetTermination.FewRetriesStop | apns2/dispatch.go:453-463 | In such a run with at most 602 retries it has stopped if and only if some worker reported the closed input |
| FleetWitness.OvertakenExitOvercounts | apns2/dispatch.go:255-280 | With a maximum of one, a run in which the governor counts two connections |
| FleetWitness.OvertakenExitWedges | apns2/dispatch.go:435-443 | A run with an overtaken exit and an announced close that comes to rest without ever stopping |
| FleetWitness.SwallowedExitWedges | apns2/streamer.go:110-113 | A run in launcher-before-worker order that comes to rest without stopping, because a second quit signal took the place of the exit |
| FleetWitness.NobodyAnnounces | apns2/dispatch.go:271-275 | A run whose only dial fails, so the closed input is never reported and everything rests with the governor running |
| JamWitness.RetriesWedge | apns2/streamer.go:165-176 | A run with 603 requests in flight when the input is closed, all to be retried, that comes to rest with the last round trip blocked and the governor running |
| JamWitness.StreamsWedge | apns2/streamer.go:156-176 | A run of two workers, one of which has reported the closed input while the other sleeps over a request whose only stream a blocked retry holds, that comes to rest with the governor running |
| FleetShutdown.CanStopIff | apns2/dispatch.go:254-311 | With the input closed and no Kill, some continuation stops the governor if and only if no exit was overtaken or swallowed, the retries that workers have to send before they can leave find room on the path, and there is, or a poll can launch, a worker to report the closed input |
| FleetShutdown.DoomedForever | apns2/dispatch.go:255-280 | A worker whose exit was overtaken or swallowed keeps the governor from stopping in every continuation without a Kill |
| FleetShutdown.HelpedStops | apns2/streamer.go:78-118 | From a state that meets that condition with a worker left, the goroutines can be scheduled so that the measure runs out with the governor stopped |
| FleetShutdown.SoftOkNotGained | apns2/dispatch.go:449-502 | No step but a Kill and the hand-overs of requests ever restores that condition once it is lost |
| FleetWitness.QuitAbandonsRoundTrips | apns2/streamer.go:93-103 | A run whose soft stop completes while a round trip is in flight on a connection that was quit |
| FleetWitness.HardStopMeetsSignal | apns2/dispatch.go:305-307 | A run in which a quit signal is sent on a channel closed by a hard stop |
| Governor.ScaleUpPacing | apns2/dispatch.go:359-392 | In every run, a poll that launches does so with no launcher pending, SettlePeriod after every earlier launcher completion, not before the back-off ends, and within the maximum |
| Governor.CompletionsBackOff | apns2/dispatch.go:259-259 | In every run the governor's back-off is what the tracker makes of its launcher completions, failed and successful, and of nothing else |
| Governor.DialsAreSpaced | apns2/dispatch.go:359-392 | In every run a poll launches nothing before the last failed dial of the streak is as long ago as the delay promised for it, the initial one doubled with every failure before, up to the maximum |
| Governor.FailedDialBacksOff | apns2/dispatch.go:256-267 | After a failed dial that counts no scaling is allowed before the back-off delay has passed; a success that counts returns the delay to the initial one and leaves the end alone |
| Governor.PollLaunches | apns2/dispatch.go:281-290 | A poll launches if and only if the governor is not closing, the decision asks for it and a scale-up is allowed, and then exactly as many as are allowed, changing nothing else |
| Governor.AllowedDeltaExact | apns2/dispatch.go:382-413 | Scaling up or down is held back exactly while closing, launching, settling, backing off or at the limit, and otherwise leads to what the scale asks for, raised to MinConns and cut to MaxConns |
| Governor.StartsWithMinConns | apns2/dispatch.go:245-246 | The first scale-up launches at least MinConns and at most MaxConns connections, and exactly what the scale makes of none in between |
| Governor.LastScaleCovers | apns2/dispatch.go:256-267 | When no launcher is pending, the recorded scaling time is that of the last completion, and so at or after every completion so far |
| Governor.EventLoop.Handle | apns2/dispatch.go:254-299 | One turn of the loop changes the maps, the id counter, the times and the flags as the step function that the fleet takes its steps with |
| Governor.EventLoop.AllowedScaleDelta | apns2/dispatch.go:382-413 | The number allowed, zero while closing, launching, settling or backing off, otherwise the clamped request less what is provisioned |
| Governor.EventLoop.TryScaleUp | apns2/dispatch.go:359-368 | Adds exactly the allowed number of launchers, with consecutive fresh ids |
| Governor.EventLoop.OnLauncherDone | apns2/dispatch.go:256-267 | Moves a successful launcher's worker into the streamers, reports success or failure to the back-off tracker, and records the time only when no launcher is left |
| Governor.EventLoop.OnWorkerDone | apns2/dispatch.go:269-280 | Forgets the worker, notes a closed input, and replaces it only if it quit |
| Growth.GovernorGrowsGeometrically | apns2/dispatch.go:393-412 | After k fully successful scale-ups of the event loop, a settle period or more apart, under a whole factor b of 2 or more, n connections have become min(n * b^k, MaxConns), provided each step that is taken fits 32 bits |
| Growth.UnlimitedDoubles | apns2/dispatch.go:109-117 | With the unlimited configuration one connection has become 2^k, as long as that fits 32 bits |
| Growth.RoundGrows | apns2/dispatch.go:359-413 | One poll and the completion of all its launches leave exactly the raised number of connections, idle and ready for the next round |
| Growth.CompletedState | apns2/dispatch.go:256-267 | Completing launchers one by one moves exactly those ids between the maps and leaves the back-off end alone |
| Scaling.GeometricGrowth | scale/scale.go:71-78 | k scale-ups by a whole factor multiply the connections by its k-th power, up to any cap, if no step taken from below the cap overflows |
| Scaling.FinalFits | scale/scale.go:71-78 | That is so whenever the final multiple fits 32 bits |
| Scaling.StrictGrowth | scale/scale.go:45-78 | Below the cap every scale-up adds at least one connection and never passes the cap; at or above it nothing is added |
| Scaling.ApplyExact | scale/scale.go:33-78 | A constant stays, an increment is added, and a factor multiplies, rounded down but to at least one more |
| Scaling.ApplyInverseExact | scale/scale.go:49-90 | A constant stays, an increment is taken off down to none, and a factor divides, rounded down but to at least one less unless there is none |
| Scaling.InverseOfApply | scale/scale.go:83-90 | Scaling down after scaling up gives back n exactly when scaling up did not round down, and n - 1 otherwise |
| BackOff.BackOffTracker.Update | apns2/backoff.go:20-51 | One update is the step the runs are made of; a panic leaves only the defaulted delay behind |
| BackOff.UpdateExact | apns2/backoff.go:20-51 | For any tracker and update that do not wrap: nothing during a blackout, the initial delay after a success, and after a failure a blackout of the delay with the jitter drawn and a doubled delay, both cut to the maximum if there is one |
| BackOff.StreakExact | apns2/backoff.go:22-41 | The back-off is exactly exponential: after any run the next delay is min(initial * 2^k, max) for a streak of k counted failures, and the blackout ends that of k - 1 after the last of them, plus its jitter, but no later than the maximum |
| BackOff.PanicsExact | apns2/backoff.go:29-30 | An update panics exactly when a failure counts, there is jitter, and delay times jitter is below one |
| BackOff.DrawsWholeRange | apns2/backoff.go:29-31 | The jitter drawn is any whole number from zero up to below delay times jitter |
| BackOff.BackOffSpacing | apns2/backoff.go:22-41 | Any n counted failures with no counted success between them span more than the sum, for i below n - 1, of min(initial * 2^i, max) |
| BackOff.FailuresSpaced | apns2/backoff.go:22-41 | Each counted failure comes later than its predecessor by more than the delay promised for its place in the streak |
| BackOff.BlackoutOnlyExtends | apns2/backoff.go:43-50 | An update during a blackout changes nothing, no update moves the end back, and a counted failure sets it between initial and max ahead |
| BackOff.ConfiguredDrawFits | apns2/backoff.go:29-32 | Jitter that fits the configured maximum never wraps the delay |
| BackOff.MovesBackIff | apns2/backoff.go:22-40 | Some run of updates moves the blackout end back if and only if, without jitter, there is no maximum or the maximum or the initial delay is at least half of the signed word, and, with jitter, the first failure can draw some and the longest delay with the largest jitter reaches past the signed word |
| BackOff.PanicsIff | apns2/backoff.go:29-32 | With jitter some run of updates ends in a panic if and only if the delay can wrap or the shortest delay leaves no room for any jitter |
| BackOff.PredefinedAreSound | apns2/comm.go:59-73 | Neither happens with the delays and the jitter of the predefined configurations |
| TickTock.WaitOverlap | syncx/ticktock.go:51-65 | At each load the ticks are the number of waits overlapping the time since the previous load, and the tocks the number that ended in it, with any producer steps between a load and its subtraction |
| TickTock.WordHoldsCounts | syncx/ticktock.go:31-65 | The word always holds both counts less the tocks subtracted from both, with no carry or borrow between the halves |
| TickTock.TocksConserved | syncx/ticktock.go:51-65 | All tocks returned and the low half (less a subtraction still due) add up to all tocks made |
| TickTock.TickTockCounter.Fold | syncx/ticktock.go:51-65 | Undisturbed, returns both halves and leaves the difference of ticks and tocks above an empty low half |
| TickTock.FolderHoldsCounts | syncx/ticktock.go:79-110 | The folder's word holds completed and pending waits although Tock is one addition of 2^32 - 1, which never borrows |
| TickTock.EncodingsAgree | syncx/ticktock.go:31-110 | On the same steps both encodings have equal completed counts, pending equals ticks less tocks, and draws return the same |
| TickTock.BlockedWaitIsSeen | syncx/ticktock.go:51-65 | A wait that has begun and is not over is seen by every later load |
| TickTock.TickTockFolder.Draw | syncx/ticktock.go:99-110 | Undisturbed, returns both counts, leaves no completed wait and every pending one |
| Counter.AddsConserved | syncx/counter.go:29-37 | Outside a draw the value is everything added less everything drawn, and what was added since the previous load, modulo 2^64 |
| Counter.DrawnAtLoad | syncx/counter.go:29-37 | All draws together return what had been added at the last load, modulo 2^64 |
| Counter.ValueTracks | syncx/counter.go:18-37 | In every interleaving of adds with the two steps of a draw, the value is what was added less what was subtracted |
| Decision.SustainedBlockage | apns2/client.go:317-323 | A submit that stays blocked over k consecutive polls leaves the wait counter at k or more, since each fold sees its unmatched tick |
| Decision.CounterAgreesIff | apns2/dispatch.go:213-221 | The threshold test on a 32-bit counter agrees with the streak of samples if and only if the streak's count has not wrapped below the threshold |
| Decision.CountersWrap | apns2/dispatch.go:213-221 | Both counters are the lengths of the current streaks modulo 2^32 |
| Decision.StreakIsSustained | apns2/dispatch.go:213-221 | A streak is at least k long exactly when the last k samples exist and all show waits, or all show none |
| Decision.WaitCounter.Accumulate | apns2/dispatch.go:213-221 | One sample raises one counter, wrapping, and resets the other |
| Decision.MovingAcc.Accumulate | apns2/dispatch.go:517-522 | The ring's running sum is the sum of the last window of values modulo 2^64, despite wrapping subtraction |
| Decision.WindowSlides | apns2/dispatch.go:517-522 | A window of the history loses its oldest value and gains the new one, and its sum changes by the difference |
| Decision.WindowRead | apns2/dispatch.go:510-522 | The window holds the last values, the newest at its end, and zeros for those there were not |
| Decision.PollPeriodsCover | apns2/dispatch.go:124-136 | The adjusted sustain period is the shortest whole number of polls that covers the configured one |
| Decision.PollPeriodsElse | apns2/dispatch.go:124-130 | No sustain period takes no polls, and an invalid sustain or poll period 2^32 - 1 |
| Decision.RateVetoExact | apns2/dispatch.go:138-149 | A count is above the cap if and only if its mean rate over the adjusted sustain period is above the configured rate |
| Evaluator.Sampler.UpdateCountersAndEvalScaling | apns2/dispatch.go:314-352 | The new sample holds the inbound ticks, the streamers' ticks modulo 2^32, the requests and, if capped, the bytes drawn at this poll; for every history the decision is the one the streaks' 32-bit counts give, and the verdict read off the samples if and only if no count that decides has wrapped; it asks for more only on a poll with inbound waits and no outbound ones, and for less only on one without inbound waits |
| Evaluator.VerdictExactIff | apns2/dispatch.go:338-351 | Wrapping counts decide as the samples do if and only if those that decide have not wrapped below the threshold, as they cannot before 2^32 samples |
| Evaluator.VerdictMeans | apns2/dispatch.go:314-351 | For every configuration the verdict is 1 exactly when each of the last samples has inbound ticks and no outbound ones and each mean rate is within its cap, if there is one, and -1 exactly when there is a sustain period and none of its samples has inbound ticks |
| Evaluator.CounterDecides | apns2/dispatch.go:338-348 | The three counter tests are threshold tests on the streaks' 32-bit counts, and exact for histories shorter than 2^32 samples |
| Evaluator.OutboundShowsNone | apns2/dispatch.go:323-331 | The summed outbound sample is zero exactly when every streamer's is, while the sum fits 32 bits |
| Evaluator.Sampler.DrawStreamers | apns2/dispatch.go:317-329 | Visiting the streamers in any order yields the wrapped totals of what they counted, sizes only when a cap is set |
| Evaluator.Sampler.Record | apns2/dispatch.go:330-337 | One sample reaches both streak counters and both windows |
| Reservation.NoWakeupIsLost | apns2/http.go:145-162 | In every run, whoever sleeps still has to wait or has a cancel broadcast to come, and the count equals the reservations outstanding |
| Reservation.Keeps | apns2/http.go:199-235 | Both, and the bound on the capacity, are kept by entering, rechecking, closing, refreshing the capacity up, down or to zero, and each step of a cancellation |
| Reservation.SleeperHasHolder | apns2/http.go:199-208 | A sleeper is never alone: a stream is held, and closing one at full use wakes the sleeper |
| Reservation.GivingUpKeepsCount | apns2/http.go:163-172 | Only taking raises the count and only closing lowers it; a cancelled wait leaves it unchanged |
| Reservation.StreamBound | apns2/http.go:137-173 | While the capacity has never been zero no more than max(1, cfgCap) streams are held, the limit of section 5.1.2 of RFC 7540 |
| Reservation.BoundBreaksIff | apns2/http.go:145-172 | A step from within the configured limit passes it if and only if the limit is used up and a caller that is not cancelled finds the capacity at zero |
| Reservation.ZeroCapacityBreaksBound | apns2/http.go:145-170 | A run with a maximum of one stream that holds two after the capacity became zero |
| Reservation.HTTPClient.RefreshCapLocked | apns2/http.go:216-235 | After a report the effective capacity is the smaller of the reported and the configured one, with a broadcast exactly when it rose or dropped to zero; without a report nothing changes |
| Reservation.AdmittedIff | apns2/http.go:137-172 | A caller that enters takes a stream at once if and only if fewer are held than the server reports and the configuration allows, or one of these is zero; otherwise it sleeps, its cancellation being watched from the first sleep on |
| Reservation.RecheckIff | apns2/http.go:145-172 | A caller that wakes gives up exactly if its cancellation was stored, and otherwise takes a stream exactly if there is one by then |
| Reservation.CancelledGivesUp | apns2/http.go:146-165 | A caller whose context ends while it sleeps is woken and gives up, leaving the count unchanged |
| Reservation.HTTPClient.TryReserve | apns2/http.go:145-172 | Sleeps, gives up or takes a stream, changing the count only in the last case |
| Reservation.HTTPClient.Release | apns2/http.go:199-208 | Lowers a positive count and broadcasts exactly when there is room |
| Retries.SettledOnce | apns2/streamer.go:165-189 | In every run each request that entered is in exactly one place of the pipeline, settled or dropped; it is called back at most once and sent at most MaxRetries + 1 times |
| Retries.AllAttemptsUsed | apns2/streamer.go:168-177 | The bound is reached: for every MaxRetries some run sends a request MaxRetries + 1 times and then settles it with one callBack |
| Retries.UsableIff | apns2/streamer.go:276-304 | A connection stays usable exactly unless there was a transport failure, an idle timeout with status 400, or a bad certificate with status 403 |
| Retries.Keeps | apns2/client.go:279-294 | Each hand-over between submitter, worker, round trip, retry channel, forwarder and buffer moves a request from one place to one place, also while the submitter leaves and the forwarders end |
| Retries.RetryBlocksIff | apns2/dispatch.go:449-502 | A round trip waiting to send its retry can do so in no continuation if and only if the retry channel is full and the forwarder has ended, or holds a request before a full buffer whose reader has ended or holds one for a submitter that has left |
| Retries.WedgedAtFullLoad | apns2/client.go:279-303 | Without a Kill that is so exactly when the submitter has left and the path carries 602 requests |
| RetryPath.JammedIff | apns2/dispatch.go:459-502 | With the control channel open the path refuses a request and cannot move exactly at its full load of 602 requests |
| RetryPath.KeepsOrder | apns2/dispatch.go:465-502 | Retries come back in the order in which they were sent: the forwarders' moves leave it alone, a new one goes to the end, and the submitter takes the first |
| RetryPath.MovedConserves | apns2/dispatch.go:465-502 | The forwarders neither lose nor double a request, except the one held by a buffered forwarder that ends |
| RetryPath.RetryForwarder.Forward | apns2/dispatch.go:461-477 | However many requests are forwarded there is one buffer, and it keeps their order |
| RetryPath.RetryForwarder.Drain | apns2/dispatch.go:485-492 | Takes the oldest request from that buffer, making room in the same one |
| Lifecycle.LifecycleSafe | apns2/client.go:141-222 | In every run after Start, with any number of Stop, Kill and Push calls, the state never decreases, each channel is closed at most once, and the submitter never sends on a closed one |
| Lifecycle.StartBegins | apns2/client.go:141-150 | The first Start of a new client leads to where all these runs begin, and any other changes nothing |
| Lifecycle.Keeps | apns2/client.go:267-303 | Every step keeps what the state, the channels, the submitter and each pending Stop say about each other, and at most one Stop is admitted |
| Lifecycle.StopReturnsAfterDone | apns2/client.go:178-201 | A Stop that returns has closed the callback channel once; unless a Kill was accepted the governor had signalled done before |
| Lifecycle.DoneAfterClose | apns2/dispatch.go:308-311 | Without a Kill, done is signalled only after the workers' input was closed and the submitter had left |
| Lifecycle.KillInTimeIff | apns2/client.go:205-222 | Kill reaches the governor if and only if the submitter has not left; with a Stop waiting for the governor it changes nothing |
| Lifecycle.StrandedForever | apns2/client.go:283-289 | After the queue was closed first, no Stop, Kill or any other step ever shuts the pipeline down |
| Lifecycle.CloseIff | apns2/client.go:178-222 | From any state some continuation closes the governor's control channel or the workers' input if and only if the client is not stranded so |
| Lifecycle.SubmitterCanLeave | apns2/client.go:267-303 | Once its control channel is closed the submitter can leave from any state |
| Lifecycle.QueueCloseStrands | apns2/client.go:283-297 | A run in which closing the queue of a running client strands it |
| Lifecycle.QuietStopIsSafe | apns2/client.go:238-258 | With no Push past its check when the client is stopping, none ever meets a closed channel |
| Lifecycle.PushReleased | apns2/client.go:317-324 | A Push that blocks may return as interrupted once Stop or Kill closed the control channel, and then meets no closed channel |
| Lifecycle.PushRacesClose | apns2/client.go:238-258 | A run without a Kill in which a Push that checked before Stop meets the closed channel |
| Lifecycle.PushPanicsIff | apns2/client.go:178-189 | Some continuation makes a Push meet the closed channel if and only if the client is not stopping yet, or a Stop was admitted while a Push is past its check |
| Pipeline.StopDrains | apns2/client.go:178-201 | In a run of the whole pipeline with no accepted Kill, no retry and no connection judged unusable, a Stop that returns does so only after every request handed to a worker was settled by exactly one callBack |
| Pipeline.CallbackOpen | apns2/client.go:192-198 | In every run a result meets the closed callback channel only on a connection judged unusable or after an accepted Kill |
| Pipeline.MeetsClosedCallbackIff | apns2/client.go:190-198 | With the input closed, and the governor stopped or a Kill accepted, some continuation lets a result meet the closed callback channel if and only if some attempt is still to be called back; without a Kill its connection had been judged unusable |
| Pipeline.KillMeetsCallback | apns2/client.go:217-218 | A Kill accepted while a Stop waits lets every attempt still to be called back meet the channel that Stop closes |
| Pipeline.KillLosesResults | apns2/client.go:190-222 | A run of that kind on a connection never judged unusable |
| Pipeline.ResultMeetsClosedCallback | apns2/streamer.go:247-264 | A run without a Kill in which Stop returns and the result of a round trip that a quit left behind then meets the closed channel |
| Pipeline.HangsForever | apns2/client.go:188-195 | A Stop that waits while a worker's round trip is blocked on a jammed retry path never returns, in any continuation, Kill included |
| Pipeline.StopHangs | apns2/streamer.go:87-176 | A run of the whole pipeline that leads to such a Stop |
| PipelineShutdown.ShutDownIff | apns2/client.go:178-222 | From any state some continuation makes the governor signal done if and only if it has stopped, a Kill was accepted or still would be, or a Stop was admitted and the soft condition holds, counting the Pushes under way that may still make stuck workers quit |
| PipelineShutdown.StoppableNotGained | apns2/client.go:205-222 | Once lost, that is never regained by any step of client, governor, workers, round trips or callers |
| PipelineShutdown.HopelessCases | apns2/client.go:283-297 | A client whose queue was closed first, or whose Stop hangs on a jammed path, can never be shut down |
| PipelineDeadlock.StandsStillIff | apns2/streamer.go:156-189 | A running client with a blocked submitter stands still, until a Stop, a Kill, a cancellation, a capacity change or a poll, if and only if every worker is gone or starved out by blocked retries, every round trip is over or blocked on its retry, and the retry path does not move; with a worker left that path carries 602 requests |
| PipelineDeadlock.DeadlockLasts | apns2/dispatch.go:281-288 | With as many connections as allowed, that state outlasts any number of Pushes and polls |
| PipelineDeadlock.RunningClientStandsStill | apns2/client.go:279-325 | A run with one connection of one stream that leads there, though nobody has stopped the client |
| Pipeline.FleetRunsAreRealized | apns2/client.go:267-303 | Every run of the fleet with no Kill and no retry taken by the submitter is a run of the whole pipeline, so the runs above can happen |
| Pipeline.Keeps | apns2/dispatch.go:308-311 | Every shared and every separate step keeps both invariants and what client and governor agree on: the input's close, the hard stop's channel and the done signal |
| Pipeline.SharedStepsMeet | apns2/client.go:188-195 | An admitted Stop whose turn it is can close the input, and a governor that stopped can signal done: neither side's guard blocks the other |
| Lifecycle.Client.Kill | apns2/client.go:205-222 | Refused once terminating; otherwise closes the three control channels, the submitter's only if Stop has not |
| Lifecycle.Client.BeginStop | apns2/client.go:178-187 | Refused once stopping; otherwise closes the submitter's control channel |
| Signer.ReturnedTokensValid | apns2/auth.go:92-147 | In every run of concurrent calls, every token returned was minted and expires after its caller's captured time |
| Signer.MintedTokensApart | apns2/auth.go:103-146 | Stored tokens never overlap: expiry strictly increases, each is issued no earlier than the one before expired, and tokens i and j are at least j - i life spans apart |
| Signer.Keeps | apns2/auth.go:92-147 | The unlocked check, the locked check and the minting keep this for any interleaving of callers |
| Signer.JWTSigner.GetToken | apns2/auth.go:92-147 | Undisturbed, returns the stored token if it is still valid, otherwise one that lives from the call for the configured life span, or for the default if none is configured, and stores it, unless signing fails |
| Signer.MintedLiveAsConfigured | apns2/auth.go:117-141 | In every run all tokens live exactly as long as configured, or as the default if no positive life span is |
| Signer.LockReturns | apns2/auth.go:103-146 | Under the lock a caller gets the stored token if that is valid, and else one minted for its own time, unless signing fails; only then is anything minted |

## Left out

- TLS, dialing, HTTP round trips and request signing: calls into foreign code, whose outcomes are arbitrary steps or parameters. `http2x`'s reflection is an arbitrary reported capacity.
- `cryptox`, payload, notification, response, logging, unit and configuration files: they would only add easy members.
- Winding down: `tryWindDown` is empty in the source.
- Stop or Kill before Start, which close a channel that does not exist yet, and a retry before the forwarder has made its channel.
- Rounding of 32-bit and 64-bit floats: factors, jitter, rates and bandwidths are exact reals. The value of a float conversion that does not fit a word is a parameter.
- Clocks and timers: time is an integer given with each event, one reading for each event; ticks and the capacity poll are arbitrary steps.
- `streamer.run`, `exec`, `callBack`, `runSubmitter`, `submit` and the wait loop of `ReservedStream` are steps on values and not methods, because other goroutines run between their statements; in-place update is not captured for them.
- Waiting for a callback's receiver or for a response is one step that may come arbitrarily late; progress results take it to be possible in the end. Sends on the retry channel and waits for a stream block as they do in the code: Fleet lets a reservation through exactly when its wait condition is false, which Reservation.NoWakeupIsLost justifies. Scheduling fairness is not modelled.
- The shutdown theorems (`FleetShutdown.CanStopIff`, `PipelineShutdown.ShutDownIff`) ask what is possible: callers may cancel requests that sleep, servers may raise a capacity or answer in any way, and polls may decide anything.
- Retries has no workers: there a request handed over is always taken, and PipelineDeadlock covers the states in which no worker takes one.
- Fleet follows attempts, one for each hand-over to a worker, and Retries follows requests across attempts; the two share the retry path but are not joined in one state.
- A Push that panics on the closed channel ends the model's interest in it: no step continues after it.
- The ticks and tocks of `callBack` and the size counter are not part of Fleet; Decision.SustainedBlockage connects the counter of `submit` to the polls.
- Delivery of a result on a connection judged unusable, or after a hard stop: the code may drop it, and only at-most-once is stated there.
- The number of streamers at a poll, of stream holders and of unfolded waits is taken to be below 2^32, each occupying memory.
- The back-off theorems (`BackOff.MovesBackIff`, `BackOff.PanicsIff`) take the product of delay and jitter as it is; the source's conversion of one beyond 64 bits is up to the platform.
- RetryPath.RetryForwarder.Forward: requires room in the buffer, since a full one blocks the forwarder; Retries.RetryBlocksIff covers that state.
- Reservation.StreamBound: `cfgCap` stays as set before the first reservation, as the source sets it when a streamer starts.
- Decision.RateVetoExact: the product is not bounded by 64 bits; the source's conversion of a larger one is up to the platform.
