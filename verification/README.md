# intact: a verified model of its state machines and transformations

intact is an LLM gateway. This project models the parts of it whose behaviour is
hard to see from one function body, and proves what they are for: protocols that
must be safe in every interleaving, incremental algorithms that must equal their
whole-input versions, and rewritings that must preserve meaning. `dafny verify
dfyconfig.toml` checks all of it.

| module | what it models |
|---|---|
| `ResetTables`, `ResetClaims`, `ResetHistory` | claiming a quota reset, a spend whose outcome may stay unknown |
| `OAuthRefresh` | token refresh under a per-connection lock, with refresh token rotation (section 6 of RFC 6749) and failing writes |
| `QuotaCache` | the sequence-numbered quota cache with single flight |
| `CaptureSlots`, `TraceLifecycle`, `TraceStatuses`, `TraceHalves` | the Contract Lab's slots, its captures and jobs, the statuses of a trace, and what becomes of an uploaded half |
| `Text`, `ShapeReduce`, `ShapePlaces`, `StreamReduce` | reducing a body or an event stream to its shape |
| `ShapeDiff` | matching two shapes in five passes; paths with one renamed segment |
| `Versions`, `Findings` | the order of switcher versions, and when a fixed finding reopens |
| `DriftObserver` | learning the shape of traffic, with a write-behind cache |
| `ServerTools` | tool calls intact runs itself, shown to the client in one form and sent back to the model in another |
| `EventStream`, `ReplyEdits` | editing and scanning a server-sent event stream as it arrives (sections 9.2.5 and 9.2.6 of the WHATWG HTML standard, with LF and CRLF line ends) |
| `Filter` | deleting parts of a JSON body by path and by key |
| `Scheduler`, `Variants` | the order in which accounts are tried, and the variant of a model |

State that the source updates in place is a class, or a local buffer of a method,
here; each such method is proved against a function on values, and the main
results are lemmas about runs of those functions. A concurrent protocol is a state
machine whose steps are the critical sections and single store statements of the
source; a run is any sequence of such steps, and a step that is not enabled
changes nothing. The network, the token and quota endpoints, the model and the
JSON decoder are inputs of a step. The clock only moves forward.

## Where the code does not do what it is for

Each of these is proved: a concrete case, and the exact condition under which the
promise holds.

- **A mixed OAuth provider loses the token.** After a failed write, an answer without
  a new refresh token whose write succeeds clears the override that held the newest
  token; the store keeps the one it had (`internal/store/oauth.go:116-118`). The
  result agrees with the provider exactly when the write does not strand such a
  token, and a provider that always or never rotates never meets that case
  (`WriteAgreesExactlyWhen`, `UniformProviderNeverStrands`, `MixedProviderLosesTheToken`).
- **A claim that was looked up too early overwrites a terminal trace.** The check that
  a trace id is new runs before the manager's lock and a failed insert is ignored, so
  sealing such a capture writes `failed` over whatever the row says. A claim and seal
  that meet no one keep the order of statuses exactly when the trace has no row or one
  that is capturing, queued or failed (`StaleClaimOverwrites`). A step of any state
  breaks the order of a trace exactly when it is one of the writes made without a look
  at the row and the row is not where its writer left it, and a run keeps the order
  exactly when it holds no such write (`ForwardExactlyWhen`, `OrderKeptExactlyWhen`);
  `FailedInsertBreaksTheOrder` is a run that breaks it. A run in which the claims of a
  trace insert its row holds none (`InsertedRunsKeepTheOrder`, `StatusesMoveForward`).
  That a trace is never capturing or open a second time, and its half never processed
  twice, needs no such condition (`EveryRunMovesOn`, `HalvesAreProcessedOnce`).
- **A half accepted by a capture that panicked is lost.** `ReleaseOnPanic` leaves the
  capture's status as it was, so an upload that found the capture before may still be
  held on it and answered as accepted. An accepted half waits exactly when its capture
  has not panicked, and then is lost only by a named step (`AcceptedHalfWaits`,
  `HalfFollows`).
- **A weekly reset may be asked for again although fewer are left.** A retry compares
  with the read before the last unknown outcome alone, and a weekly row without a next
  time is never taken for spent; two of them bring the remembered number down
  (`WeeklyRetryReadsFewer`). For the next request, and of other resets for all of them,
  no fewer are left (`RetryReadsNoFewer`, `RetriesReadNoFewer`).
- **A fixed finding can be reopened by a version it was fixed for.** A handler that
  missed the row goes through the upsert, which reopens a fixed finding whatever the
  version (`internal/store/contract.go:452`); and the conditional update looks at the
  status alone, so a handler that read an older fix reopens a newer one. Exactly these
  two ways exist (`ListedVersionReopensExactlyWhen`, `MissedLookupReopens`,
  `StaleLookupReopens`).
- **A cut stream record can look complete.** A stream that lost leaves shows no cut at
  the root in any record exactly when the cap of 5000 leaves is reached at the very end
  of an event, the record last begun hides the mark, and no leaf kept until then is such
  a cut. The record hides it if it is the place of delta events whose name owns a path,
  where the mark is overwritten, or holds a deeper cut of its own, beside which none is
  written (`ReduceStream`, `DroppedButUnmarked`, `SilentStream`). The other leaves of
  delta events whose name owns no path are not shown either (`DeltaRecord`).
- **A tool call may come back changed.** A call comes back as the model made it exactly
  when its input is a JSON object and the name its server's tool was registered under
  last is the one it was called by; an MCP server that lists a tool twice breaks the
  second (`SaidAgainExactlyWhen`, `NamesAgreeExactlyWhen`, `ListedTwice`).
- **An observer whose load failed is unsafe.** It starts empty and its first flush
  overwrites rows, but keeps their first observation; this is safe exactly when the
  database holds nothing (`EmptyIsSafeExactlyWhen`, `UpsertAgreesExactlyWhen`).
- The comment on `secretFor` says a failed write keeps the new token in memory; it
  holds until the next successful write, as above. The cap of 16 traced captures is
  one for trusted and one for untrusted captures, so 32 may hold a slot
  (`internal/contract/capture.go:170-181`).

## Model

| member | source | states |
|---|---|---|
| ResetTables.KeyInjective | internal/httpapi/quota_resets.go:658-659 | two table keys are equal only for the same connection and the same reset or request |
| ResetTables.ClaimTables.DropExpired | internal/httpapi/quota_resets.go:665-669 | the loop keeps exactly the settled ids of the last 15 minutes |
| ResetTables.ClaimTables.Check | internal/httpapi/quota_resets.go:662-700 | a settled id, another id's pending unknown and one younger than 60 s are refused, in that order, and nothing else changes |
| ResetTables.ClaimTables.CheckHold | internal/httpapi/quota_resets.go:757-773 | the hold ends when the fresh read shows fewer left or 60 s are over, and blocks otherwise |
| ResetTables.ClaimTables.Record | internal/httpapi/quota_resets.go:819-837 | each outcome's effect on the three tables; an unknown one remembers what was left, a failed claim touches none |
| ResetClaims.RunKeepsInv | internal/httpapi/quota_resets.go:650-837 | what every interleaving of claims keeps: held locks, current views, tables that record the history |
| ResetClaims.EveryRunIsSafe | internal/httpapi/quota_resets.go:650-837 | over every run: after an unknown, every send for that reset carries the same id and comes at least 60 s later until it is settled; a settled id is not sent for 15 minutes; a reset just made is not sent again within 60 s unless a fresh read showed fewer left |
| ResetClaims.OneClaimPerConnection | internal/httpapi/quota_resets.go:650-656 | at most one claim of a connection is in flight in every reachable state |
| ResetClaims.LoneClaimSendsExactlyWhen | internal/httpapi/quota_resets.go:650-803 | the converse: a claim that meets no other is sent if and only if none of the stated reasons against it holds |
| ResetHistory.EveryEventIsRight | internal/httpapi/quota_resets.go:650-837 | in every run the tables are what the history says, and every request sent and every outcome recorded has its reason in the events before it |
| ResetHistory.RetryReadsNoFewer | internal/httpapi/quota_resets.go:728-755 | after an unknown outcome whose claim had read L left, the next request for the reset carries the same id, comes 60 s later, and was read with no fewer than L, or as weekly without a next time |
| ResetHistory.RetriesReadNoFewer | internal/httpapi/quota_resets.go:728-755 | of a reset that is not weekly this holds for every later request until it settles |
| ResetHistory.RetrySettlesExactlyWhen | internal/httpapi/quota_resets.go:728-755 | in every run a claim settles its reset as likely spent, sending nothing, if and only if an unknown outcome is pending and fewer are left than its claim had read |
| ResetHistory.WeeklyRetryReadsFewer | internal/httpapi/quota_resets.go:733-741 | a weekly reset: a third request is sent on a read of fewer left than before the first |
| ResetHistory.LoneClaimByHistory | internal/httpapi/quota_resets.go:650-803 | in every reachable state a lone claim is sent if and only if the history and the hold allow it |
| OAuthRefresh.Api.ApplyOverride | internal/httpapi/oauth.go:90-97 | an override with a token replaces the expiry, and the refresh token if it has one |
| OAuthRefresh.Api.SaveGrant | internal/httpapi/oauth.go:141-155 | a write that works clears the override; one that fails changes no row and keeps the whole grant in memory |
| OAuthRefresh.Api.SecretForLocked | internal/httpapi/oauth.go:119-157 | under the lock the creds are read again, and one exchange is made exactly when the token is still due |
| OAuthRefresh.EveryExchangeIsRight | internal/httpapi/oauth.go:110-255 | in every interleaving of secretFor and forceRefresh, with any pattern of failed writes that strands no token, each exchange sends the refresh token issued last and was needed when it was made |
| OAuthRefresh.WriteAgreesExactlyWhen | internal/httpapi/oauth.go:141-155 | after a write, store and override agree with the provider if and only if the write strands no token |
| OAuthRefresh.UniformProviderNeverStrands | internal/store/oauth.go:112-126 | a provider that rotates on every exchange, or never, never meets the stranding write |
| OAuthRefresh.EveryUniformRunIsRight | internal/httpapi/oauth.go:110-255 | so with such a provider every exchange of every run is right, whatever writes fail |
| OAuthRefresh.OneExchangePerToken | internal/httpapi/oauth.go:119-129 | callers of secretFor that wait on one expired token cause one successful exchange: the next comes only when its token is due |
| OAuthRefresh.DecidesExactlyWhen | internal/httpapi/oauth.go:180-193 | in every run a caller that has the lock renews the token if and only if its expiry is known and less than 60 s away, or it is forced to |
| OAuthRefresh.GoesOnExactlyWhen | internal/httpapi/oauth.go:222-231 | under the lock a caller goes on if and only if the row can be read and, for forceRefresh, the secret is still the one it met |
| OAuthRefresh.CallerMovesOn | internal/httpapi/oauth.go:110-255 | a caller only moves on, and makes at most one exchange |
| OAuthRefresh.SecretIsNewest | internal/httpapi/oauth.go:100-105 | between two exchanges callers are given the token issued last |
| OAuthRefresh.LoneSecretForExactlyWhen | internal/httpapi/oauth.go:110-157 | alone, secretFor renews a token if and only if it is due, keeps what it brings, and otherwise changes nothing |
| OAuthRefresh.RoundEffect | internal/httpapi/oauth.go:214-255 | a forceRefresh that meets no other caller: what it sends, stores and keeps in memory |
| OAuthRefresh.MixedProviderLosesTheToken | internal/store/oauth.go:115-118 | a provider that rotates once and then does not: the third exchange sends a replaced token |
| QuotaCache.SharedCache.Ask | internal/httpapi/quota.go:86-136 | a fresh entry is returned, a flight above the mark joined, a new number taken otherwise |
| QuotaCache.SharedCache.Store | internal/httpapi/quota.go:186-191 | a result is stored, and raises the mark, only when its number is above the mark |
| QuotaCache.SharedCache.Land | internal/httpapi/quota.go:195-208 | a flight that ends stores by the same rule and leaves the table only if it is still registered there |
| QuotaCache.SharedCache.Invalidate | internal/httpapi/quota.go:275-285 | the entry goes and the mark rises to a new number |
| QuotaCache.EveryRunKeepsInv | internal/httpapi/quota.go:85-285 | every run keeps the agreement of entries, marks, flights and waiting callers |
| QuotaCache.CachedReadIsAtTheMark | internal/httpapi/quota.go:184-208 | an entry is always the fetch whose number is the mark, and began after the account's last invalidation |
| QuotaCache.OneFlightAboveTheMark | internal/httpapi/quota.go:105-136 | at most one running flight of an account lies above its mark |
| QuotaCache.NoStaleReadIsHanded | internal/httpapi/quota.go:110-128 | no caller gets a read begun before the last invalidation that precedes its call, or older than the flight it joined |
| QuotaCache.ClosedFlightStays | internal/httpapi/quota.go:202-206 | a flight closes once, and every caller waiting on it can wake and returns once |
| QuotaCache.SingleFlight | internal/httpapi/quota.go:106-109 | a call made while such a flight runs starts no second fetch |
| QuotaCache.AskExactlyWhen | internal/httpapi/quota.go:86-136 | a call is answered from the cache if and only if it is no refresh and the entry is less than 60 s old; it joins, or fetches, otherwise |
| QuotaCache.FetchEndsExactly | internal/httpapi/quota.go:182-269 | a call that fetches ends with its own read, stored by the numbering rule; a failed freshQuota ends with nothing |
| QuotaCache.WakeExactly | internal/httpapi/quota.go:110-128 | a call that waits ends, once its flight is closed, with the account's entry, else with what the flight brought |
| QuotaCache.EveryReadWasFetched | internal/httpapi/quota.go:138-208 | in every run each read handed out is one that a fetch of that account brought, unchanged |
| CaptureSlots.CaptureManager.ClaimTraced | internal/contract/capture.go:163-215 | the caps decide; a claim that passes takes one slot in every counter it belongs to |
| CaptureSlots.CaptureManager.ClaimGolden | internal/contract/capture.go:251-306 | the same for golden samples, with the day's and the version's limits |
| CaptureSlots.CaptureManager.Release | internal/contract/capture.go:350-366 | what one release gives back |
| CaptureSlots.CaptureManager.ReleaseQueueSlot | internal/contract/capture.go:614-623 | an untrusted queue place is given back, never below zero |
| CaptureSlots.TracedKeepsSlots | internal/contract/capture.go:163-215 | after a traced claim the counters still equal the captures and no cap is exceeded |
| CaptureSlots.GoldenKeepsSlots | internal/contract/capture.go:251-306 | the same after a golden claim |
| CaptureSlots.ReleaseKeepsSlots | internal/contract/capture.go:350-366 | the same after a release, whichever kind of capture it was |
| CaptureSlots.TracedFitsExactlyWhen | internal/contract/capture.go:163-182 | a traced capture is refused if and only if its trace is being captured, 16 captures of its trust are, or, not trusted, two of its key |
| CaptureSlots.GoldenFitsExactlyWhen | internal/contract/capture.go:251-269 | a golden sample is refused if and only if four are being captured, three of its kind were taken, or five other versions of its tool |
| CaptureSlots.GoldenCounts | internal/contract/capture.go:251-356 | what a golden claim and its release leave of the day's samples and versions |
| CaptureSlots.TracedComesBack | internal/contract/capture.go:184-366 | a traced claim and its release undo each other |
| TraceLifecycle.EveryRunKeepsSlots | internal/contract/capture.go:153-509 | in every reachable state of every run the counters equal the captures in activeCaptures, no cap is exceeded, and each sealed capture that holds a slot has exactly one job that will give it back |
| TraceLifecycle.NextKeepsOwners | internal/contract/capture.go:369-509 | each step keeps it, whichever of Seal and ReleaseOnPanic wins |
| TraceStatuses.EveryRunMovesOn | internal/store/contract.go:277-347 | in every run whatever, a trace past capturing is never capturing again and one past open never open |
| TraceStatuses.HalvesAreProcessedOnce | internal/contract/capture.go:517-597 | in every run whatever, each trace's switcher half is processed at most once |
| TraceHalves.HalfFollows | internal/contract/capture.go:369-597 | a half held for a capture waits on it, or with the job that sealed it, or is admitted in this step, if and only if the step is none of those that lose it: abort, failure, panic, golden sample, trace no longer open, restart |
| TraceHalves.EveryHeldHalfFollows | internal/contract/capture.go:369-597 | in every run a half that waits is still waiting at the end, or one step admitted it or lost it for such a reason |
| TraceHalves.RunKeepsOneSealer | internal/contract/capture.go:369-485 | in every run at most one job seals a capture, and it takes the half with it |
| TraceHalves.AcceptedHalfWaits | internal/contract/capture.go:534-549 | an upload answered as accepted waits on its capture if and only if that has not panicked; any other upload goes on by itself or is refused |
| TraceHalves.LoneSealTakesHalf | internal/contract/capture.go:439-487 | a lone clean seal opens the trace, gives the slot back, and with a half held ends in processing it |
| TraceHalves.LoneTraceFinishes | internal/contract/capture.go:369-597 | a half uploaded during a lone capture is processed once, and its trace ends finished or failed as the consumer says |
| TraceStatuses.NextKeepsLife | internal/store/contract.go:277-347 | each step that inserts the row of a claim of x moves the status of x along an edge of the life cycle, made by the one job that holds it |
| TraceStatuses.TracedClaimIs | internal/contract/capture.go:153-215 | what a traced claim leaves of rows, captures and slots, or that it changes nothing |
| TraceStatuses.GoldenClaimIs | internal/contract/capture.go:251-306 | the same of a golden claim, whose row is trusted |
| TraceStatuses.UploadBeginsExactlyWhen | internal/contract/capture.go:517-525 | an upload is taken up if and only if its key opened the trace |
| TraceStatuses.ExpireIs | internal/contract/capture.go:470-473 | the timer expires a trace that is still open, and no other |
| TraceStatuses.RevokeIs | internal/store/apikey.go:255-271 | revoking a key revokes its open traces, and no other |
| TraceStatuses.RestartIs | internal/store/contract.go:299-303 | startup loses every trace that was on its way to the queue, and no other |
| TraceStatuses.FullChannelDrops | internal/contract/consumer.go:66-77 | a queued trace the full channel does not take is dropped, unless its status changed |
| TraceStatuses.StatusesMoveForward | internal/contract/capture.go:369-597 | in every interleaving in which the claims of x insert its row, whatever becomes of other claims, its status only moves forward and a terminal one is never left |
| TraceStatuses.ForwardExactlyWhen | internal/contract/capture.go:369-597 | a step of any state takes a trace off the edges if and only if it writes a status without a look at a row that is not where the writer left it |
| TraceStatuses.OrderKeptExactlyWhen | internal/contract/capture.go:369-597 | a run, failed inserts included, keeps the order of a trace at every step if and only if it holds no such write |
| TraceStatuses.InsertedRunsKeepTheOrder | internal/contract/capture.go:369-597 | a run in which the claims of a trace insert its row holds no such write |
| TraceStatuses.FailedInsertBreaksTheOrder | internal/contract/capture.go:439-509 | a run that breaks it: the end of a claim whose insert failed is written after a second claim opened the trace |
| TraceStatuses.BootedIsOk | internal/contract/consumer.go:90-117 | after startup recovery every invariant holds, for every trace |
| TraceStatuses.StaleClaimOverwrites | internal/contract/capture.go:153-215 | what a lone claim and seal leave of the row, whether it was there or its insert failed; every status keeps the order if and only if the trace had no row or a capturing, queued or failed one |
| ShapeDiff.RenamedSegment | internal/contract/diff.go:152-164 | the greedy loops answer yes if and only if one segment x became one or two segments M between a shared start and end of the stated lengths, x unlike the ends of M |
| ShapeDiff.OneRenameIsUnique | internal/contract/diff.go:148-164 | that decomposition is unique |
| ShapeDiff.GreedyFinds | internal/contract/diff.go:154-163 | and the greedy loops stop exactly at its ends |
| ShapeDiff.CutAt | internal/contract/diff.go:168-182 | a field is excused if and only if the output was cut at the root, at it or above it, on whole segments |
| ShapeDiff.Pass | internal/contract/diff.go:93-105 | one pass gives each unmatched input, in order, the first free output its rule allows |
| ShapeDiff.Match | internal/contract/diff.go:106-113 | the five passes give a complete matching, one to one |
| ShapeDiff.NothingFitsIsLeft | internal/contract/diff.go:84-113 | no unmatched input and unmatched output satisfy any rule |
| ShapeDiff.StricterRulesFirst | internal/contract/diff.go:35-43 | an input matched by a rule had every output of a stricter rule taken in a pass no later than that rule |
| ShapeDiff.OnlyOneMatching | internal/contract/diff.go:84-113 | these properties leave one matching only |
| ShapeDiff.SameRecordMatchesItself | internal/contract/diff.go:93-106 | a record against itself: every leaf finds itself in the first pass, so nothing is lost |
| ShapeDiff.Diff | internal/contract/diff.go:44-146 | candidates and rename options are the first 200 and 20 of what that matching leaves, in order |
| ShapeDiff.LostExactlyWhen | internal/contract/diff.go:115-120 | a leaf is lost if and only if its input got no output, it is no container and no null, and nothing at it or above it was cut |
| ShapeDiff.SpareExactlyWhen | internal/contract/diff.go:134-144 | a path is a rename option if and only if its output was taken by no input and names something valid |
| ShapeDiff.InputsBoth | internal/contract/diff.go:70-84 | what of the input is compared, leaf by leaf, in order |
| ShapeDiff.OutputsBoth | internal/contract/diff.go:45-55 | what of the output is compared, and what stands for a cut |
| ShapeDiff.CutParentIs | internal/contract/diff.go:49-51 | a cut stands for the path it is below |
| ShapeDiff.LastSegmentIs | internal/contract/diff.go:76-77 | a leaf is named by what is behind the last dot, without brackets |
| ShapeDiff.MapIs | internal/contract/diff.go:58-61 | the last mapping of a path counts |
| ShapeDiff.LostMeans | internal/contract/diff.go:115-132 | a reported leaf was not cut, and every output a rule allows it went to another leaf by that pass |
| ShapeDiff.RootCutLosesNothing | internal/contract/diff.go:168-173 | a record cut at its root reports nothing lost |
| Text.SplitJoin | internal/contract/diff.go:169-176 | joining segments and splitting again gives the segments |
| Versions.CompareVersions | internal/contract/diff.go:186-230 | the sign is the order of the numbers, zero behind the end, then of the timestamps |
| Versions.AgeOrder | internal/contract/diff.go:186-230 | a total preorder: asymmetric, transitive, and versions of one age compare alike with all others |
| Versions.WrittenOrder | internal/contract/diff.go:183-230 | of versions as they are written, the one with the smaller decimal numbers is older, one by one with zeros behind the shorter, then the one with the earlier timestamp |
| Versions.Atoi | internal/contract/diff.go:203-208 | a segment that is no number counts as zero, one out of range is cut to the 64-bit range |
| Versions.AtoiReads | internal/contract/diff.go:203-208 | a decimal number with or without a sign is read as what it is, cut to the 64-bit range |
| Versions.NoNumberIsZero | internal/contract/diff.go:203-208 | a segment with anything else in it is zero |
| Findings.FoldGreatest | internal/contract/findings.go:57-61 | the loop computes the greatest version |
| Findings.GreatestCovers | internal/contract/findings.go:57-61 | no listed version is newer than it, and it is one of them |
| Findings.Row.UpdateStatus | internal/store/contract.go:563-589 | the conditional update: by status alone, keeping the version when the new one is empty |
| Findings.Row.Insert | internal/store/contract.go:437-458 | the upsert inserts an open finding, and reopens a fixed one |
| Findings.Row.HandleLost | internal/contract/findings.go:80-165 | what a lost candidate does to the row, for each status it was read with |
| Findings.Row.ResolveTo | internal/contract/findings.go:38-72 | a resolution writes the greatest listed version, or reports a conflict |
| Findings.LostOutcome | internal/contract/findings.go:82-165 | a handler's write creates a finding it missed, and opens a fixed, wontfix or expired one if and only if the stated conditions hold; the version of the fix stays |
| Findings.ResolveOutcome | internal/contract/findings.go:60-72 | a resolver's write takes effect if and only if the status it read is still there, and keeps the old version when none is listed |
| Findings.RunKeepsInv | internal/contract/findings.go:38-165 | in every run the version of a fix covers all versions listed for it |
| Findings.ReopensExactlyWhen | internal/contract/findings.go:80-125 | a write reopens a fixed finding if and only if the lookup missed it or read an older fix than the trace's version |
| Findings.ListedVersionReopensExactlyWhen | internal/contract/findings.go:75-165 | in every run, a version listed for the fix in force reopens it if and only if the handler had missed the row or had read another, older fix |
| Findings.StaysFixed | internal/contract/findings.go:113-128 | while handlers write before anything else changes the row and nobody resolves, no listed version reopens it |
| Findings.FinalWontfixStays | internal/contract/findings.go:130-139 | a wontfix of the session, the master token or the review is not reopened |
| Findings.MissedLookupReopens | internal/store/contract.go:437-458 | two handlers miss one new finding: the second write, after the fix, reopens it for the version it was fixed in |
| Findings.StaleLookupReopens | internal/contract/findings.go:80-125 | a handler that read an older fix reopens a newer one |
| ShapeReduce.Buffer.Walk | internal/contract/reduce.go:287-391 | the walk into a shared list writes the uncapped walk's leaves, cut at the cap |
| ShapeReduce.ReduceJson | internal/contract/reduce.go:275-285 | for any fixed key order the result is the first 1500 leaves of the uncapped walk, and a mark if there are more |
| ShapePlaces.EveryLeafHasAPlace | internal/contract/reduce.go:287-391 | the uncapped walk writes exactly the leaves that stand at places of the document at most thirteen steps down: each with its path of shown and starred keys, its kind, its length and hash, or its value where values of the format may be shown |
| ShapeReduce.CutExactlyWhenDropped | internal/contract/reduce.go:288-295 | one mark at the root, last, if and only if a leaf was dropped |
| ShapeReduce.NoRootCut | internal/contract/reduce.go:296-302 | a cut for depth never looks like that mark |
| ShapeReduce.PrivateIsHidden | internal/contract/reduce.go:313-325 | below a user's data, or inside JSON in a string, no leaf shows a key or a value, at any depth |
| StreamReduce.ReduceStream | internal/contract/reduce.go:120-224 | the plain leaves shown are the first 5000, each text that came in pieces becomes one leaf of its event, and a stream that lost leaves shows a root cut if and only if it is not a silent one |
| StreamReduce.CutShownExactlyWhen | internal/contract/reduce.go:178-220 | the same said of the records by what the two loops leave: which place keeps the mark, and which loses it |
| StreamReduce.FoldRecords | internal/contract/reduce.go:137-194 | the loop over the events: where it stops, the plain leaves, one place for the delta events of a name, and which place is marked |
| StreamReduce.Deltas.Add | internal/contract/reduce.go:146-175 | pieces are appended to the text of their path in order and counted; other leaves are kept once a path |
| StreamReduce.OwnerIsFirst | internal/contract/reduce.go:146-157 | a path belongs to the event that first brought a piece of text at it |
| StreamReduce.TextsBoth | internal/contract/reduce.go:150-161 | the text of a path is the pieces of the delta events, one after another, counted |
| StreamReduce.DeltaEventIs | internal/contract/reduce.go:143-149 | a delta event is one of no name, or with "delta" in it, that brings a string at a path that speaks of text |
| StreamReduce.OthersAre | internal/contract/reduce.go:168-174 | of the other leaves of the delta events of a name one is kept for each path |
| StreamReduce.SummariesAre | internal/contract/reduce.go:196-209 | one leaf stands for each path a name owns, with the length and the hash of its whole text |
| StreamReduce.Combine | internal/contract/reduce.go:196-220 | the text of the delta events goes to the place of the event that first brought it; a place that owns none stays empty or marked |
| StreamReduce.ShownWhen | internal/contract/reduce.go:178-188 | where the cap is passed decides, alone, what is shown and whether it is marked |
| StreamReduce.DroppedButUnmarked | internal/contract/reduce.go:178-220 | a family of silent streams: plain events of 5000 leaves in all, the first delta event of a name, one leaf more |
| StreamReduce.SilentStream | internal/contract/reduce.go:178-220 | one of them, each event within the 1500 leaves an event may hold |
| DriftObserver.Observer.Observe | internal/drift/observer.go:169-244 | one document's effect on the learned shape, and the changes it reports |
| DriftObserver.ReportedExactlyWhen | internal/drift/observer.go:194-227 | a document reports a path as added, returned or of another type if and only if it was new and known by no old name, was gone, or has a type not in its set |
| DriftObserver.FieldAfter | internal/drift/observer.go:194-227 | what a path in the document holds afterwards: its types and those of its old name, one more sight, this observation as the last |
| DriftObserver.GoneAfter | internal/drift/observer.go:228-238 | a path not in the document is gone if and only if it was, or was seen 20 times, in nine of ten observations of its span, and not in the last 20 |
| DriftObserver.Topmost | internal/drift/observer.go:341-362 | a change stays if and only if no ancestor is added or removed with it |
| DriftObserver.ParentIs | internal/drift/observer.go:364-373 | one level up is an item's list or what is before the last dot, and nothing for a path of one segment |
| DriftObserver.AncestorIs | internal/drift/observer.go:350-356 | the ancestors of a path are the paths some levels up |
| DriftObserver.UncoveredIs | internal/drift/observer.go:341-362 | the changes that stay are those not covered, as often and in the order they came |
| DriftObserver.Observer.Collect | internal/drift/observer.go:259-279 | the batch is exactly what is dirty, and nothing is dirty afterwards |
| DriftObserver.Observer.Restore | internal/drift/observer.go:287-300 | a failed save marks what it had taken again, and nothing else |
| DriftObserver.FailedFlushChangesNothing | internal/drift/observer.go:255-300 | a flush that fails with nothing observed in between leaves everything as it was, marks included |
| DriftObserver.PathsOnlyGrow | internal/drift/observer.go:194-227 | no path is forgotten and its recorded types only grow |
| DriftObserver.ReportsAlternate | internal/drift/observer.go:210-238 | removals and returns of a path strictly alternate, beginning with a removal |
| DriftObserver.SeenIsBounded | internal/drift/observer.go:194-227 | one observation keeps seen within the span, plus one more for a path that took a legacy entry over |
| DriftObserver.EveryRunIsBounded | internal/drift/observer.go:194-227 | from any shape within the bound, after every run seen is at most lastObs - firstObs + 1, or + 2 for a path that took a legacy entry over |
| DriftObserver.LoadedRunIsBounded | internal/drift/observer.go:72-83 | so it is for what was loaded from rows within the bound, legacy rows included |
| DriftObserver.TakeoverCountsTwice | internal/drift/observer.go:194-227 | the second extra count is reached: one document that holds the old and the new name counts twice |
| DriftObserver.NothingIsEverLost | internal/drift/observer.go:255-302 | at every step of every run, failed saves and observations in between included, whatever differs from the database is dirty, in the batch being written, or about to be marked again |
| DriftObserver.CleanReloads | internal/drift/observer.go:70-90 | with nothing dirty and no write under way, loading the database gives what is in memory |
| DriftObserver.FlushThenReload | internal/drift/observer.go:255-302 | a flush that succeeds with no later observation leaves a state a new observer rebuilds |
| DriftObserver.LoadedIsSafe | internal/drift/observer.go:72-83 | an observer that loaded its database starts in agreement with it |
| DriftObserver.EmptyIsSafeExactlyWhen | internal/drift/observer.go:84-86 | one whose load failed is in agreement if and only if the database holds nothing |
| DriftObserver.UpsertAgreesExactlyWhen | internal/store/drift.go:225-254 | a saved row equals the field if and only if the row, if any, had the same first observation |
| ServerTools.Plan.RunFetch | internal/servertools/plan.go:469-505 | the outcome of one fetch, and that a page read is met from then on |
| ServerTools.ReadExactlyWhen | internal/servertools/plan.go:469-493 | a page is read if and only if the tool reads it, the call names a URL met before, and uses are left |
| ServerTools.PagesWithinUses | internal/servertools/plan.go:475-477 | no answer reads more pages than uses are left |
| ServerTools.TrimUrlIs | internal/servertools/plan.go:509 | a URL loses its end marks and nothing else |
| ServerTools.Plan.Run | internal/servertools/plan.go:405-467 | the two blocks shown to the client, the text and flag for the model, the tools loaded, and the outcome: the tool's own, a fetch's as above |
| ServerTools.Plan.Advance | internal/servertools/plan.go:270-324 | the client is shown every piece of the answer, each call with its tool's outcome; the model is called again exactly when it called only tools of intact's and turns are left |
| ServerTools.Serve | internal/servertools/plan.go:270-324 | over a whole request, what the client is shown and what the model's conversation says are the same pieces, those of the last answer aside; no more pages are read than the uses |
| ServerTools.Plan.Normalize | internal/servertools/plan.go:522-576 | the loops that rewrite a history, and what they learn from it |
| ServerTools.AnswerRebuilt | internal/servertools/plan.go:537-573 | rewriting the blocks of an answer gives its calls, results, loaded tools and URLs, in order |
| ServerTools.UserTurnIs | internal/servertools/plan.go:578-628 | a user turn stays one turn, each reference to a tool becomes a text in its place, and exactly the tools referred to are loaded and the URLs mentioned met |
| ServerTools.HistoryLeavesNoEmptyAnswer | internal/servertools/plan.go:537-575 | rewriting leaves no assistant turn empty |
| ServerTools.RoundTrip | internal/servertools/plan.go:270-682 | in any history, an answer sent back is rewritten to what the model said, block by block, with the same results, each in the turn directly behind its call, and no two user turns in a row |
| ServerTools.ServeThenRewrite | internal/servertools/plan.go:270-682 | a request and the next one together: what was shown over the first comes back as what the model said and was given, with the tools it loaded and the pages it saw |
| ServerTools.SaidAgainExactlyWhen | internal/servertools/plan.go:545-561 | it says the same if and only if every call has an object as input and its tool's current name |
| ServerTools.MergeUsers | internal/servertools/plan.go:670-682 | the loop joins user turns that follow each other |
| ServerTools.MergeIsRight | internal/servertools/plan.go:668-682 | afterwards no two are adjacent, and no block is lost, changed or moved |
| ServerTools.MergeKeepsAnswers | internal/servertools/plan.go:670-682 | a result stays in the turn directly behind its call |
| ServerTools.NamesAgreeExactlyWhen | internal/servertools/plan.go:175-196 | every server tool is known by the name it is called by if and only if none was listed twice with its first name still in force |
| ServerTools.AgreedCallsComeBack | internal/servertools/plan.go:553-560 | a call by a name that agrees comes back as it was if and only if its input is an object |
| ServerTools.McpKeyInjective | internal/servertools/plan.go:553-555 | the keys of two servers' tools differ |
| ServerTools.ListedTwice | internal/servertools/plan.go:181-187 | a server that lists a tool twice: a call by its name comes back under another |
| EventStream.MatchIsDelimiter | internal/httpapi/echo.go:29 | a frame's delimiter, said of the bytes: two line ends, each LF or CRLF |
| EventStream.FrameEndIs | internal/httpapi/echo.go:72-79 | the first frame ends behind the first such delimiter |
| EventStream.ReplyEditor.Write | internal/httpapi/echo.go:63-84 | every frame the stream completes is edited and written, and only the unterminated rest is held back |
| EventStream.ReplyEditor.Finish | internal/httpapi/echo.go:91-104 | the rest is edited and written |
| EventStream.FramesExtend | internal/httpapi/echo.go:71-83 | the frames of a longer stream are those of its start, then those from the start's rest |
| EventStream.EditInChunks | internal/httpapi/echo.go:63-104 | however a stream is split into writes, the total output is the edit of each frame of the whole stream in order, then of the rest |
| EventStream.NothingEdited | internal/httpapi/echo.go:44-46 | with nothing to edit the frames and the rest, put together, are the body, so it may pass by the editor |
| ReplyEdits.EditReply | internal/httpapi/echo.go:33-135 | a whole reply, in any chunks: each frame is edited by itself |
| ReplyEdits.ModelIsPut | internal/httpapi/echo.go:117-135 | the first model field of what comes out is the caller's, in the place of the first one that came in, and the bytes around it stay |
| ReplyEdits.ModelEndIs | internal/httpapi/echo.go:28 | the model field, said of the bytes: "model" in quotes, a colon with white space around it, and a string |
| ReplyEdits.StringEndIs | internal/httpapi/echo.go:28 | a string ends at the first quote no backslash stands before, and no line feed is escaped in it |
| ReplyEdits.FrameIs | internal/httpapi/echo.go:107-115 | a frame of usage alone is dropped, a null usage taken out, any other frame only has its names and model replaced |
| ReplyEdits.FrameShowsModel | internal/httpapi/echo.go:107-135 | so no frame shows another model first, one that names none names none, and editing again changes nothing |
| ReplyEdits.ReplaceAllIs | internal/httpapi/echo.go:120-122 | replacing a name puts the other one where the pieces between its occurrences meet, and leaves the pieces |
| EventStream.IsCommentFrame | internal/httpapi/v1.go:1238-1245 | the loop over the lines answers whether all are comments |
| EventStream.CommentFrameByBytes | internal/httpapi/v1.go:1238-1245 | said of the bytes alone: every line is empty, only returns, or begins with a colon |
| EventStream.FirstEventFrame | internal/httpapi/v1.go:1224-1235 | the loop returns the first frame that is not a comment frame |
| EventStream.EventIsStable | internal/httpapi/v1.go:1224-1235 | an event once complete is the first event of every longer stream |
| EventStream.FirstSSEEvent | internal/httpapi/v1.go:1192-1221 | the scan with its two offsets reads exactly what a naive rescan before every read would |
| EventStream.RescanStopsInTime | internal/httpapi/v1.go:1197-1203 | nothing is read once the event is complete |
| EventStream.FirstEventIsFound | internal/httpapi/v1.go:1192-1235 | what is read is a start of the stream; a first event that ends within the limit is found unless the stream or the time ends first, and it is the stream's first event |
| Filter.PruneTwice | internal/filter/filter.go:92-130 | one set of rules after another deletes what both at once delete |
| Filter.PruneCommutes | internal/filter/filter.go:92-130 | so rules commute and are idempotent |
| Filter.PruneKeepsExactly | internal/filter/filter.go:134-243 | exactly the places with a deleted key on the way are gone, and the rest is as it was |
| Filter.FieldHits | internal/filter/filter.go:134-170 | a field rule deletes exactly the places its pattern names |
| Filter.SchemaRuleHits | internal/filter/filter.go:174-243 | a schema rule deletes its key exactly inside a tool's schema, in any of the request shapes, where the key is not the name of a parameter |
| Filter.SchemaRuleCleans | internal/filter/filter.go:185-243 | afterwards the request has the same tool schemas, each cleaned, and the key is at no schema position of any tool |
| Filter.CleanOfKey | internal/filter/filter.go:215-243 | a cleaned schema has the key only as a parameter name, and keeps every place without the key on the way |
| Filter.DropPath | internal/filter/filter.go:134-170 | the recursion deletes what the rule names, and says changed exactly when the tree differs |
| Filter.DropKey | internal/filter/filter.go:218-243 | the same for a key at every depth |
| Filter.DropSchemas | internal/filter/filter.go:174-213 | the same for all schemas of the request and of the one inside an envelope |
| Filter.ApplyTree | internal/filter/filter.go:108-119 | a place of the body is gone if and only if a field rule's pattern names it or what it is under, or a schema rule's key stands there inside a tool's schema and is no parameter's name; all else is as it was, and changed says whether anything was removed |
| Filter.OneTreeIsLeft | internal/filter/filter.go:108-119 | that determines the tree |
| Filter.OrderDoesNotMatter | internal/filter/filter.go:108-119 | any order of the rules, repeated or not, gives the same tree |
| Filter.Apply | internal/filter/filter.go:92-130 | the body keeps its bytes unless the rules remove something and the rest could be encoded; then it is the encoding of the tree that lacks just that |
| Filter.ApplyTwice | internal/filter/filter.go:92-130 | a second Apply changes nothing |
| Scheduler.Rotations.Advance | internal/httpapi/rotation.go:116-128 | one turn: the account it returns and where the cursor is left |
| Scheduler.TurnIs | internal/httpapi/rotation.go:116-128 | the k-th turn of a fresh cursor is account k / sticky modulo n |
| Scheduler.CycleIsFair | internal/httpapi/rotation.go:16-24 | any n * sticky turns in a row, wherever they begin, give every account exactly sticky |
| Scheduler.OrderedIs | internal/httpapi/rotation.go:51-68 | the order is a stable sort by priority: same accounts, accounts of one place as they came |
| Scheduler.NamedFirst | internal/httpapi/rotation.go:57-66 | an account the order names stands before those it names later and those it does not name |
| Scheduler.LineIsRight | internal/httpapi/rotation.go:90-112 | normal accounts in turn, then standby ones: every account once, no standby before a normal one |
| Scheduler.Rotations.WithStandbyLast | internal/httpapi/rotation.go:94-112 | the list tried is that line, and the cursor takes one turn exactly when there is a normal account |
| Scheduler.Rotations.StartFor | internal/httpapi/rotation.go:75-88 | one provider follows its rotation or its fallback order, a pool turns per model; the tries name every account once, standby last, begin with the account whose turn it is, and leave the cursors one turn on |
| Scheduler.NextPickIs | internal/httpapi/rotation.go:70-128 | after any sequence of requests, on any models and providers, the next request of a cursor begins with normal account (requests of that cursor) / sticky modulo n |
| Scheduler.RequestsAreFair | internal/httpapi/rotation.go:16-24 | among any sequence of requests, n * sticky of one cursor give each of its n normal accounts exactly sticky first tries |
| Scheduler.LineFirst | internal/httpapi/rotation.go:70-128 | whatever calls came before: in rotation a call begins with normal account (calls of its provider before it) / sticky, as a fallback always with the first, in a pool with the next one of its model, without a normal account with the first standby |
| Scheduler.StartAll | internal/httpapi/rotation.go:70-128 | so it is over any sequence of calls on fresh cursors |
| Scheduler.ScheduleAll | internal/httpapi/v1.go:239-246 | and over any sequence of requests, where those a session decides begin with its account and take no turn |
| Scheduler.SessionOrder | internal/httpapi/affinity.go:217-246 | the session's account first, the rest by priority with standby last; it declines exactly when the session is unknown, its account is gone, or is a standby while a normal account is there |
| Scheduler.AttemptsFor | internal/httpapi/variants.go:239-260 | every account once from the start, then those that have another variant to try |
| Scheduler.FirstTriesAre | internal/httpapi/variants.go:245-252 | the first try of an account is on the variant picked for it, or on the request's model |
| Scheduler.SecondTriesAre | internal/httpapi/variants.go:253-257 | a second try is made of an account if and only if its default variant is another one |
| Scheduler.SkipSpent | internal/httpapi/affinity.go:277-292 | the attempts that are not spent, or all of them if every one is |
| Scheduler.UnspentKeepsParts | internal/httpapi/affinity.go:274-292 | of first and second tries the spent ones go from each part by themselves, and the first tries left keep the standby accounts last |
| Scheduler.Schedule | internal/httpapi/v1.go:239-246 | whoever decides, session or rotation, the first tries name every account exactly once with no standby before a normal one, then come the second tries, and spent ones are left out of both unless all are (v1.go:770-773); a session that decides comes first and moves no cursor, else the request takes one turn |
| Scheduler.Affinity.Get | internal/httpapi/affinity.go:36-48 | the account that answered within the hour, and an older entry is dropped |
| Scheduler.Affinity.Set | internal/httpapi/affinity.go:50-60 | the entry is set and no other changes; on a full map a new entry comes to what pruning leaves |
| Scheduler.Affinity.Prune | internal/httpapi/affinity.go:62-82 | exactly the entries of the last hour stay if they leave room, else exactly those newer than the middle between the oldest of them and now; there is room afterwards |
| Scheduler.PrunedIs | internal/httpapi/affinity.go:62-82 | that is one result, and no entry stays while a later one goes |
| Variants.SplitJoins | internal/httpapi/variants.go:56-63 | base and level name one id |
| Variants.HasLevelExactlyWhen | internal/httpapi/variants.go:56-63 | an id has a level if and only if one of the five stands behind a dash at its end with something before it |
| Variants.SplitUndoesJoin | internal/httpapi/variants.go:19-21 | base and level come back from the id they name, except "low" behind a base that ends in "-extra" |
| Variants.GroupVariants | internal/httpapi/variants.go:68-102 | every listed id stands in the group of its base and level, nothing else does, each group's default is the stated one, and a base has no group exactly when its only id is the one without a level |
| Variants.OneDefault | internal/httpapi/variants.go:82-94 | the levels of a group determine its default |
| Variants.PickedBelongs | internal/httpapi/variants.go:206-215 | any id of a group is counted to the group's model |
| Variants.VariantBaseIs | internal/httpapi/variants.go:206-215 | any other id is its own model |
| Variants.Pick | internal/httpapi/variants.go:104-140 | the level asked for, else the nearest one whatever order the levels are met in, else the default |
| Variants.OneNearest | internal/httpapi/variants.go:119-140 | there is one nearest level |

## Left out

- Handlers, routing, cookies, the dashboard, MCP tool tables, notifications and logging: no invariant of their own.
- Outbound calls, token and quota endpoints, model judges and MCP servers: their answers are inputs of a step.
- SQL text and migrations: each statement or transaction is one atomic update of a map.
- Cryptography: hashes are uninterpreted, generated ids are inputs.
- `encoding/json`: JSON starts as a datatype; strings are taken to survive encoding and decoding. Regular expressions other than the frame delimiter are functions on text.
- System-prompt rules of the filter: they depend on regular expressions and do not commute.
- Filter.DropPath, Filter.DropKey, Filter.DropSchemas: on values, returning the changed tree; a decoded body is a tree, so the update in place adds no aliasing. The list of schemas is not collected first but cleaned along the walk; Filter.SchemaRuleCleans relates the two.
- ResetClaims.EveryRunIsSafe: the tables live in memory, so a restart forgets them, as in the source.
- OAuthRefresh.EveryUniformRunIsRight: no refresh token is issued or revoked behind intact's back, and tokens of one connection only are followed.
- QuotaCache.NoStaleReadIsHanded: the contents of a quota are one payload; a caller that gives up returns nothing.
- TraceStatuses.StatusesMoveForward: retention pruning deletes rows and is not a step; the order of the consumer's queue is not modelled; a panic inside the consumer is the failing end of a job; the check for a half already stored is left to the compare-and-set behind it; at most one relay seals a capture.
- TraceLifecycle.EveryRunKeepsSlots: for the untrusted queue only the bound holds, since a full consumer queue drops a trace without giving its place back.
- DriftObserver.NothingIsEverLost: flushes do not overlap.
- DriftObserver.ReportsAlternate: type sets are sets of names ("null" is the empty one), and the rule for legacy names is a function.
- ShapeDiff.Diff: flattening the records and the mapping table are functions rather than loops; a candidate carries the leaf only, not the model, format and direction it is copied next to.
- ShapeReduce.Buffer.Walk: the key patterns, the tables of parent names, trimming, the hash and the JSON inside a string are inputs; one order of the keys of an object is fixed.
- StreamReduce.ReduceStream: splitting the stream into events, and bodies that are no JSON, are not modelled; the order of a map of paths is the order they were first seen in.
- Findings.Row.HandleLost: an untrusted trace does nothing and is no step; counts, trace ids and history rows other than the last author are not modelled; the finding and its history are read in one step, as are the finding and the versions of a resolution.
- ServerTools.Plan.Advance: usage counts, the tool definitions sent, tool_choice and the MCP connections are left out; the model answers with plain blocks, as it is given plain tools.
- ServerTools.RoundTrip: the tools of the request that rewrites are those of the request that was shown, as when a client declares the same tools and their servers list the same; a client block between two calls of one answer keeps its place, but its own result comes from the client later and is not followed.
- EventStream.ReplyEditor.Write: the underlying writer does not fail.
- ReplyEdits.EditReply: names are replaced in one fixed order. Whether a frame carries usage alone, and the removal of a null usage, are functions on bytes.
- Scheduler.Schedule: what is spent does not change while one list is made; the failover after it, waiting, retry classes and error answers are not modelled.
- Scheduler.Affinity.Set: one clock reading a call.
- Sliding-window limiters, the provider registry, quota parsing and ranking names: each is a table or a few lines of arithmetic with no state that another part relies on.
- `internal/translate`, `internal/usage`, `internal/upstream` and `internal/websearch` are not part of this model.
