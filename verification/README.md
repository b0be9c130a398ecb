# Ciel backend, verified

A Dafny model of the state machines inside the Ciel social backend, and proofs about every run of
them. Tables are maps, sets and sequences; each SQL statement, Redis command or queue call is one
step; crashes, redeliveries, lost answers and Redis failures are events the environment may choose
at any time. Services that update rows in place are classes whose methods are proved to take exactly
the modelled steps. `dafny verify dfyconfig.toml` checks everything.

| file | what it is about |
|---|---|
| Media, MediaRows, MediaRecovery | the upload pipeline: clients, a redelivering queue, crashing workers, the hourly sweep |
| TokenRotation, TokenRace | refresh-token rotation and reuse detection under the row lock, one statement per step (the scheme of section 4.14.2 of RFC 9700) |
| AuthSessions | login, logout, reuse detection, bans and account deletion with serialised transactions, and a login racing a deletion |
| Pagination | the limit + 1 / pop cursor idiom and exactly which rows a walk returns |
| FeedCache | the cached first page of the home feed, non-atomic fills, and invalidation after a post or a block |
| RateLimiter, RateEdge, RateService, KeyText | fixed-window counters with expiry, late scripts at a window's edge, the windows each action is held to, and the text of the keys |
| Trust | trust points, levels, flags, strikes and bans |
| Invites, InviteTree | invite-only signup, its conservation laws, and the recursive invite tree |
| SearchPattern, Placeholders | two string rewritings that must keep their meaning |
| Social, FollowLock | follows and blocks, the feeds read from them, and both under interleaved transactions |
| Stories | view and reaction rows against what users did, and the counters against the rows |
| Common, Arith, Decimal | shared types, integer lemmas, decimal text |

Properties that do not hold of the code as written, each with a concrete run or input and the exact
condition under which they do:

- *An upload gets one media row, and `failed` is final.* A claim accepts rows already in
  `processing` and the finishing update has no status guard, so two overlapping attempts can both
  finish. `MediaRows.TwoMediaRows` and `MediaRows.FailedIsNotFinal` are the runs;
  `MediaRows.TerminalReopensIffAttemptOpen` says a terminal upload changes again exactly when an
  attempt on it is still open. The comment that calls processing idempotent
  (src/jobs/media_processor.rs:111-114) holds for object keys, not for rows.
- *A message is deleted only once its upload is completed or failed.* The worker ignores what came of
  `mark_failed`. `MediaRows.LostMarkLosesTheMessage` is the run; `MediaRecovery.MarkDecides` and
  `MediaRecovery.MessagesLeaveWhenDone` say it holds exactly when the mark got through, and
  `MediaRecovery.NoLostUpload` that the sweep picks such an upload up.
- *Presenting a rotated token revokes the whole family.* With serialised transactions it does
  (`AuthSessions.FamilyKill`). Interleaved, `TokenRace.KillMayLeaveALiveToken` is a run in which a
  successor committed meanwhile lives on, and `TokenRotation.ReuseDetectionLaw` says the survivors
  are exactly the live tokens committed after the UPDATE looked.
- *Following `next_cursor` returns every row.* The cursor is the popped row and the next query
  compares strictly. `Pagination.MissedAreLookAheads` and `Pagination.CompleteIffOnePage` give the
  exact law, `Pagination.WalkMissesARow` an input, and `Pagination.KeepingReturnsEverything` the law of
  the other cursor.
- *Once `create_post` returned, its followers are served the post.* A fill that read before the post
  may write after the key was deleted. `FeedCache.StraddlingFillHidesThePost` is the run,
  `FeedCache.FreeOfOlderPagesIff` and `FeedCache.InvalidationIsFinalIff` give the condition.
- *Once a block is committed, neither side is served the other's posts.* `block_user` drops the
  blocker's cached page only. `FeedCache.BlockedUserIsStillServed` is the run,
  `FeedCache.BlockServedLaw` gives the condition for each side, and `FeedCache.ServedPageIsRecent`
  bounds how long it lasts.
- *A rate limit bounds what a window admits.* The key is formed before the script runs, and the
  expiry counts from the script. `RateEdge.LateRoundGetsThrough` and
  `RateEdge.LateRoundsBreakInterval` are the runs; `RateLimiter.KthRoundSeesKIff` says a round is
  counted in its place exactly when its script runs before the counter expires, and
  `RateLimiter.RequestsPerWindow`, `RateLimiter.RequestsPerWindowWhenLate` and
  `RateLimiter.RequestsPerInterval` bound what passes.
- *A rewritten SQL template means the same.* Exactly when it holds no `?` of its own:
  `Placeholders.PrepareKeepsMeaningExactly`, with an input in `Placeholders.StrayQuestionBreaksIt`.
- *Blocking and unblocking restores the graph.* Exactly when the two did not follow each other and
  the block was new: `SocialGraph.BlockThenUnblock`, with a run in `SocialGraph.UnblockForgetsFollow`.
- *A code that does not validate is refused at signup.* `validate_invite` and
  `consume_invite_with_tx` disagree exactly at the instant an otherwise usable code expires:
  `Invites.ChecksDisagreeIff`, with the run in `Invites.ExpiringCodeIsAccepted`.

## Model

| member | source | states |
|---|---|---|
| `MediaPipeline.StatusRatchet` | src/jobs/media_processor.rs:115-200 | with any number of workers an upload's status never decreases in pending < uploaded < processing < failed < completed, its owner and key never change, and completed is final |
| `MediaPipeline.CompletedExactlyWithMedia` | src/jobs/media_processor.rs:172-200 | in every reachable state an upload is completed if and only if processed_media_id names a media row with its owner and original key |
| `MediaPipeline.PendingEndsWithItsOwner` | src/app/media.rs:103-141 | in every reachable state an upload leaves pending if and only if its owner completes it; that records the time and sends its job |
| `MediaPipeline.CompletingAgain` | src/app/media.rs:103-141 | completing an uploaded upload again sends its job again; from processing on it changes nothing, and nobody but the owner changes anything |
| `MediaPipeline.UploadedAtNeverMoves` | src/app/media.rs:110-125 | the time an upload was first completed stays through every run |
| `MediaPipeline.CreatedUpload` | src/app/media.rs:49-101 | a JPEG, PNG or WebP type gives a pending upload of the caller, any other type nothing |
| `MediaPipeline.KeysFollowContentType` | src/app/media.rs:575-582 | in every reachable state the keys of an upload and of its media rows carry the owner, the upload and jpg, png or webp as its content type says |
| `MediaRows.RowsChangeOnlyByFinish` | src/jobs/media_processor.rs:172-200 | an upload's set of media rows changes only by a committed finish, by exactly the new row, and that finish leaves the upload completed |
| `MediaRows.TerminalOpensNothing` | src/jobs/media_processor.rs:115-137 | once an upload is failed or completed no run ever opens a new attempt on it |
| `MediaRows.RowsComeFromFinishes` | src/jobs/media_processor.rs:172-200 | each media row present after a run was committed by one identified finish of that run |
| `MediaRows.MediaRowLaw` | src/jobs/media_processor.rs:106-204 | of two finishes on one upload, the later belongs to a different attempt that had already claimed it, and was still open, when the earlier committed |
| `MediaRows.NoOverlapOneRow` | src/jobs/media_processor.rs:106-204 | if attempts on an upload never overlap there is at most one media row, however often it is re-enqueued or redelivered |
| `MediaRows.TerminalReopensIffAttemptOpen` | src/jobs/media_processor.rs:186-200 | a terminal upload's rows or status can still change in some continuation if and only if an attempt on it is open |
| `MediaRows.FailedIsNotFinal` | src/jobs/media_processor.rs:264-275 | a run in which one worker marks the upload failed and an overlapping one completes it |
| `MediaRows.TwoMediaRows` | src/jobs/media_processor.rs:186-200 | a run from the empty state in which two workers on one message both finish and the upload has two media rows |
| `MediaRows.LostMarkLosesTheMessage` | src/jobs/media_processor.rs:76-90 | a run in which mark_failed does not get through and the message is deleted while the upload stays in processing |
| `MediaRecovery.QueuedJobsMatchUploads` | src/app/media.rs:103-141 | in every reachable state a queued job names an existing upload with its owner, at least uploaded |
| `MediaRecovery.StaleMessageIsSettled` | src/jobs/media_processor.rs:126-137 | the branch that consumes a message without claiming fires only when the upload is already terminal |
| `MediaRecovery.CleanEndIsTerminal` | src/jobs/media_processor.rs:172-200 | in any interleaving an attempt that finishes, or successfully marks the failure, leaves its upload terminal in every continuation |
| `MediaRecovery.MessagesLeaveWhenDone` | src/jobs/media_processor.rs:65-94 | in every run a message not lost by the queue is deleted only by a worker that received it and, while no mark_failed is lost, only once the upload it worked on is terminal |
| `MediaRecovery.MarkDecides` | src/jobs/media_processor.rs:76-90 | after a permanent failure the message is deleted either way, and the upload is terminal if and only if mark_failed got through or another worker had settled it |
| `MediaRecovery.StaleMeans` | src/jobs/cleanup.rs:95-101 | in every reachable state an upload is stale if and only if it is neither pending nor terminal and was completed more than 900 seconds ago |
| `MediaRecovery.SweepBatchMeans` | src/jobs/cleanup.rs:95-101 | a batch holds at most 100 uploads, none pending, terminal or twice, oldest first, and every stale one when it is not full |
| `MediaRecovery.SweepReaches` | src/jobs/cleanup.rs:94-133 | any answer of the sweep's query contains every stale upload with fewer than 100 older stale ones |
| `MediaRecovery.SweepBatchExists` | src/jobs/cleanup.rs:94-133 | the query always has an answer: oldest first, stale only, at most 100 |
| `MediaRecovery.DeliveryMakesTerminal` | src/jobs/media_processor.rs:65-94 | with any events between a delivery's steps, once the attempt that claimed the message ends without a fault its upload is terminal for good |
| `MediaRecovery.NoLostUpload` | src/jobs/cleanup.rs:94-133 | from every reachable state, whatever failed before and whatever interleaves, a sweep sends the job of each upload neither pending nor terminal that was completed over 900 seconds ago and has fewer than 100 older such ones, the send can be enqueued while it lasts, a delivery takes the upload up or finds it terminal, and a clean end makes it terminal for good |
| `MediaRecovery.ClaimTakesUpOrIsTerminal` | src/jobs/media_processor.rs:115-137 | claiming a queued message starts work on its upload, or the upload is terminal in every continuation |
| `MediaRecovery.Backend.RequeueStaleUploads` | src/jobs/cleanup.rs:94-133 | the sweep's loop enqueues one matching job per selected row; a refused send skips only its own row and nothing already queued is lost |
| `MediaRecovery.Backend.ProcessJob` | src/jobs/media_processor.rs:106-204 | a job that cannot be claimed changes nothing; a claimed one ends processing, or completed with its media row, as the outcome says |
| `MediaRecovery.Backend.HandleMessage` | src/jobs/media_processor.rs:65-94 | one round of the worker loop has exactly the effect of the delivery's steps in the interleaved model |
| `TokenRotation.RevocationIsFinal` | src/app/auth.rs:252-271 | over every run no token disappears or changes owner or login, and a revoked one stays revoked and keeps its successor |
| `TokenRotation.MarkAlwaysApplies` | src/app/auth.rs:236-250 | when a refresh reaches its last UPDATE the old row is still unrevoked, so no token is minted without a link to it |
| `TokenRotation.SuccessorsAreUnique` | src/app/auth.rs:236-250 | replaced_by is injective and implies revoked |
| `TokenRotation.LineageIsAcyclic` | src/app/auth.rs:236-250 | following replaced_by any positive number of steps never returns to the start |
| `TokenRotation.DescendsFromLogin` | src/app/auth.rs:380-415 | every token is reached by replacements from the token its login minted |
| `TokenRotation.AtMostOneLivePerLogin` | src/app/auth.rs:176-250 | a login's lineage has at most one unrevoked token, and it is the tip |
| `TokenRotation.RotatesAtMostOnce` | src/app/auth.rs:176-250 | after a rotation commits, no other refresh of the same token can insert a successor, whatever interleaves |
| `TokenRotation.RotationAlone` | src/app/auth.rs:176-250 | a refresh of a live token with nothing in between revokes it, links it to one new live token of the same user and login, and changes no other row |
| `TokenRotation.RevocationAlone` | src/app/auth.rs:252-271 | a logout with nothing in between revokes the token and no other |
| `TokenRotation.ReuseDetectionLaw` | src/app/auth.rs:205-223 | from the moment a reuse detection's UPDATE looks to its commit, whatever interleaves, a token of the user is live afterwards if and only if it was not committed when the UPDATE looked and is live at the commit; nobody else's changes |
| `TokenRotation.KilledStayDead` | src/app/auth.rs:205-223 | whatever interleaves, every token of the user committed before the UPDATE looked is revoked after the commit, in every continuation |
| `TokenRace.KillMayLeaveALiveToken` | src/app/auth.rs:205-250 | a run from the empty state in which a reuse detection of a user's token commits and a successor of the same user, rotated meanwhile, stays live |
| `AuthSessions.RefreshYieldsExactly` | src/app/auth.rs:169-250 | a refresh returns a pair if and only if id, owner and hash match, the token is unexpired and unrevoked, and the user exists, is not deleted and has no ban ending later; then exactly the old row is linked and one row added |
| `AuthSessions.RunPersists` | src/app/auth.rs:169-271 | in every run a revoked token stays revoked since the same moment, tokens keep their owner, and a deleted user stays deleted |
| `AuthSessions.OldTokensStayDead` | src/app/auth.rs:205-223 | once a user has no live token, no token that existed then yields a pair in any continuation |
| `AuthSessions.FamilyKill` | src/app/auth.rs:205-223 | presenting a revoked, unexpired token yields nothing, revokes all the user's tokens and nobody else's, and none of them ever yields a pair again |
| `AuthSessions.ReplayKillsSuccessor` | src/app/auth.rs:205-223 | replaying a rotated token before it expires revokes the successor it was rotated to |
| `AuthSessions.DeletionIsFinal` | src/app/users.rs:112-151 | after a deletion commits no login begun later, access check or refresh of that user succeeds in any continuation, even for tokens issued by a racing login; it reports whether the user was active, and nobody else's rows change |
| `AuthSessions.BanHoldsUntilItEnds` | src/app/auth.rs:229-235 | after a ban is set, in every continuation without another one, no login, refresh or access check of the user succeeds before it ends, a good token being answered as banned and kept; from its end on it refuses nothing |
| `AuthSessions.NoBanNoRefusal` | src/app/auth.rs:273-304 | a user who signed up and is never banned has access, and can log in with the password, in every run until a deletion |
| `AuthSessions.TokensHaveAnOrigin` | src/app/auth.rs:128-167 | in every run each token was issued to the user it names by a login that read an active, unbanned user with the right password, or by a refresh that yields a pair |
| `AuthSessions.LoginThenRefresh` | src/app/auth.rs:128-167 | a permitted login adds one token, which can be refreshed exactly until it expires |
| `AuthSessions.LogoutIsFinal` | src/app/auth.rs:252-271 | a revoked token yields no pair in any continuation; the answer says whether it was live, and nothing else changes |
| `AuthSessions.ForeignTokensDoNothing` | src/app/auth.rs:176-204 | presenting an id whose owner or hash does not match changes nothing |
| `AuthSessions.RacingLoginIssuesUselessToken` | src/app/auth.rs:128-167 | the race is possible: a login that read before the deletion issues an unrevoked row, which then yields nothing |
| `AuthSessions.AuthService.RefreshTokens` | src/app/auth.rs:169-250 | refines the refresh step, reuse branch included |
| `AuthSessions.AuthService.RevokeRefreshToken` | src/app/auth.rs:252-271 | refines the revoke step and reports whether a row changed |
| `AuthSessions.AuthService.DeleteAccount` | src/app/users.rs:112-151 | refines the deletion step: soft delete and revocation of every token, or nothing |
| `AuthSessions.AuthService.AuthenticateAccessToken` | src/app/auth.rs:273-304 | accepts exactly users that exist and are neither deleted nor banned, in the sense of BanHoldsUntilItEnds |
| `Pagination.ListPage` | src/http/handlers.rs:579-588 | the loop and pop return the specified page and cursor for every table, cursor and limit |
| `Pagination.AfterMembers` | src/app/posts.rs:316-318 | the strict cursor comparison keeps the order and exactly the rows behind the cursor |
| `Pagination.AfterAgain` | src/app/feed.rs:89-109 | querying behind a row of what was left sees exactly the rows after it |
| `Pagination.ExactPages` | src/http/handlers.rs:579-588 | a walk has \|L\|/(n+1)+1 pages, page k is L[k(n+1) .. k(n+1)+n] clipped to L, and its cursor is the row at k(n+1)+n |
| `Pagination.MissedAreLookAheads` | src/app/feed.rs:169-173 | the rows a walk never returns are exactly those at indices i with i mod (n+1) = n |
| `Pagination.CompleteIffOnePage` | src/app/feed.rs:169-173 | a walk returns every row if and only if the list fits in one page |
| `Pagination.WalkMissesARow` | src/app/feed.rs:169-173 | a list and limit for which a walk misses a row |
| `Pagination.NothingRepeats` | src/app/posts.rs:316-318 | a row appears at one place of one page |
| `Pagination.NewerRowsChangeNothing` | src/app/posts.rs:316-318 | rows that arrive or leave at or above the cursor do not change the remaining pages |
| `Pagination.WalkKeeping` | src/http/handlers.rs:579-588 | a walk whose cursor is the last kept row returns all that is left behind its start |
| `Pagination.KeepingReturnsEverything` | src/http/handlers.rs:579-588 | such a walk from the start returns the whole list in order |
| `FeedCache.RunKeepsReads` | src/app/feed.rs:68-87 | in every interleaving each cached or open page is the query's page on a version that was current when it was read |
| `FeedCache.ServedPageIsAQuery` | src/app/feed.rs:68-87 | in every run, whatever fails, a served first page is the query's page, for the limit it was filled with, on a version current when it was read; without a live entry it is the current one for the limit asked |
| `FeedCache.ServedPageIsRecent` | src/app/feed.rs:175-184 | if every stored fill is written within d seconds of its query, a served page was read less than 30 + d seconds ago; with atomic fills, less than 30 |
| `FeedCache.StoredPageIsServedFor30` | src/app/feed.rs:175-184 | a stored page is served for exactly 30 seconds, whatever limit is asked and whatever the database does, unless its key is written or deleted; then the query answers |
| `FeedCache.LimitShowsIff` | src/app/feed.rs:69 | the key omits the limit: pages for two limits are equal if and only if the limits are or the whole feed fits both |
| `FeedCache.NothingOlderIsFinal` | src/app/feed.rs:175-184 | once no older page is served and no older fill is open, no run brings one back |
| `FeedCache.FreeOfOlderPagesIff` | src/app/feed.rs:175-184 | every continuation is free of served pages older than a version if and only if none is served now and no older fill is open |
| `FeedCache.InvalidationIsFinalIff` | src/http/handlers.rs:652-661 | deleting a user's key rids every continuation of older pages if and only if no older fill of theirs is open |
| `FeedCache.DeletionServesCurrent` | src/app/feed.rs:190-196 | after a successful DEL its user is served the current page; a failed one, and everybody else, see what they saw |
| `FeedCache.ClearedUsersReadWithThePost` | src/http/handlers.rs:664-695 | in every interleaving, once create_post deleted a user's key while no older fill was open, every page that user is ever served is the query's on the version holding the post or a later one, and shows the post while it is the newest of their feed |
| `FeedCache.ReturnedPostReachesAll` | src/http/handlers.rs:954-956 | with atomic fills and no Redis errors that holds of every listed follower and the author once create_post returned |
| `FeedCache.FollowersAreReached` | src/http/handlers.rs:664-695 | so it holds of everybody who follows the author in every version from the post until the call returned |
| `FeedCache.ReturnedIsFinal` | src/http/handlers.rs:664-695 | a call that cannot list the followers clears nobody, and a returned call clears nothing more in any continuation |
| `FeedCache.StraddlingFillHidesThePost` | src/app/feed.rs:175-184 | without atomic fills it fails: a run, without errors, in which the call has returned and a listed follower is served a page read before the post, for the limit asked, lacking the post the query would show |
| `FeedCache.BlockServedLaw` | src/http/handlers.rs:729-749 | after block_user, whatever interleaved, the blocker is never again served a page older than the block if and only if no older fill of theirs is open, the blocked user if and only if none is served now and no older fill is open |
| `FeedCache.PagesAfterBlockHide` | src/app/feed.rs:119-135 | while the block stands, a served page that is not older than it shows none of the other side's posts |
| `FeedCache.BlockedUserIsStillServed` | src/http/handlers.rs:744-746 | after an atomic fill, the block and the blocker's successful DEL the blocked user is served the blocker's post that their query no longer shows |
| `FeedCache.ServiceReads` | src/app/feed.rs:68-87 | the service's lookup hits exactly when the interleaved model has a live entry, and returns its page |
| `FeedCache.ServiceWrites` | src/app/feed.rs:175-196 | the service's store after a miss is the model's after an atomic fill, and after a refresh the model's after an invalidation |
| `FeedCache.CachedPageRoundTrip` | src/app/feed.rs:33-51 | into_page inverts from_page, and accepts exactly the records from_page can make |
| `FeedCache.FeedService.GetHomeFeed` | src/app/feed.rs:59-187 | a first page comes from a readable unexpired entry, else from the query, which is then stored for the TTL; later pages bypass the cache; Redis failures fall through |
| `FeedCache.FeedService.InvalidateFollowersFeeds` | src/http/handlers.rs:664-695 | the loop deletes exactly the listed followers' keys and the author's, except those whose deletion fails; when listing fails it deletes nothing |
| `RateLimiter.NoLiveAlias` | src/app/rate_limiter.rs:84-93 | minute, hour and day keys share a format, but a live counter under a round's key always belongs to the window the round checks |
| `RateLimiter.Advance` | src/app/rate_limiter.rs:17-43 | time passing alone never breaks the invariant: a count that ran out is forgotten by its counter |
| `RateLimiter.RunKeepsInv` | src/app/rate_limiter.rs:17-43 | in every run of rounds that read the clock and run their script later, each counter holds the running count of its quota and expires one window length after that count started |
| `RateLimiter.KthRoundSeesKIff` | src/app/rate_limiter.rs:84-93 | the k-th round charged to a window sees the count k if and only if its script runs before the counter created by the window's first round expires |
| `RateLimiter.RoundSeesPlace` | src/app/rate_limiter.rs:84-93 | in every run a round sees its place in the count of its quota running when its script runs, a count that starts over one window length after it began |
| `RateLimiter.InsideIsInTime` | src/config/rate_limits.rs:177-186 | a script that runs in the window its key names runs before that counter expires |
| `RateEdge.LateRoundGetsThrough` | src/app/rate_limiter.rs:84-93 | a run in which two requests pass one hourly limit of one, the second reading the clock in the window and running its script as the counter expires |
| `RateLimiter.LetThroughIff` | src/app/rate_limiter.rs:79-118 | in every interleaving, a request is let through if and only if all its checks were made and each is within its limit by its place in the running count, refused rounds included |
| `RateLimiter.RequestsPerWindow` | src/app/rate_limiter.rs:79-118 | however requests interleave and whatever their other windows do, at most the largest limit in force of requests is let through per subject, action and window, while its rounds run before its counter expires |
| `RateLimiter.RequestsPerWindowWhenLate` | src/app/rate_limiter.rs:84-93 | at most twice that limit while the rounds run less than one window length after their window |
| `RateLimiter.RequestsPerInterval` | src/config/rate_limits.rs:166-186 | when scripts run in the windows their keys name, any interval of one window length lets at most twice the limit of requests through |
| `RateEdge.LateRoundsBreakInterval` | src/app/rate_limiter.rs:84-93 | a run in which five requests pass within one hour under an hourly limit of two, because some scripts run after the window of their key |
| `RateLimiter.CallReportsItsRounds` | src/app/rate_limiter.rs:79-118 | what a call reports as refused is what its rounds see in the run they extend |
| `RateService.FoldMeaning` | src/app/rate_limiter.rs:79-118 | limited holds if and only if some check is exceeded, limited implies nothing remains, and limit and remaining are those of the tightest check |
| `RateService.LimitedIffOver` | src/app/rate_limiter.rs:57-118 | action by action, in the fields of the limits and the counters: a call is limited if and only if a counter is full, for posts and follows that of the hour or the day, for unfollows the day, for every other known action the hour |
| `RateService.KeysAreApart` | src/app/rate_limiter.rs:84-91 | from the first day after the epoch on, the hour and the day of one call never share a key |
| `RateService.WindowsInMillis` | src/config/rate_limits.rs:166-186 | windows are numbered in steps of 60, 3600 and 86400 seconds, and a new counter lives that long |
| `RateService.UnknownActions` | src/app/rate_limiter.rs:57-77 | an action outside the table is never limited and charges nothing |
| `RateService.RemainingIsOfTheHour` | src/app/rate_limiter.rs:122-152 | get_remaining looks at the hour window the same call charges, for exactly six actions |
| `RateService.Limiter.IncrWithTtl` | src/app/rate_limiter.rs:17-43 | increments or starts the counter of the key read earlier, sets the expiry from the script's own time on the first increment only, returns the new count |
| `RateService.Limiter.CheckAndIncrement` | src/app/rate_limiter.rs:48-119 | charges every window of the action, each with its own clock reading and script time, reports the tightest one, and is limited if and only if the live counter of a window the action is held to already holds that window's limit; an unknown action is not limited |
| `RateService.Limiter.CheckAndIncrementIp` | src/app/rate_limiter.rs:156-180 | charges the address's one window and rejects exactly when its limit does not admit the round |
| `RateService.Limiter.GetRemaining` | src/app/rate_limiter.rs:122-152 | the result is exactly how many more hourly checks would pass now, and zero for actions it does not list; nothing is consumed |
| `KeyText.UserKeysAreDistinct` | src/app/rate_limiter.rs:86-91 | the text of user keys is injective in user, action and window index |
| `KeyText.IpKeysAreDistinct` | src/app/rate_limiter.rs:163-166 | so is that of address keys, even for IPv6 text with colons |
| `KeyText.UserAndIpKeysAreDistinct` | src/app/rate_limiter.rs:163-166 | no user key is an address key |
| `KeyText.KeysAreDistinct` | src/app/rate_limiter.rs:84-91 | two counters have the same key text if and only if they have the same subject, action and window index |
| `Trust.StoredNeverExceedsEarned` | src/app/trust.rs:109-147 | over every run the handlers can issue, the stored level is at most the one the current metrics justify |
| `Trust.LostFollowerWouldOverstate` | src/app/trust.rs:109-147 | an activity no handler issues would break that law |
| `Trust.LevelLaw` | src/app/trust.rs:243-284 | after any run on a fresh row, a flag, post or removal leaves it Trusted if and only if it is 90 days old with 50 posts, 200 points and at most 2 flags, Basic if and only if it is not that but 7 days old with 5 posts, 20 points and at most 4 flags, and never Verified; no other event moves the level |
| `Trust.FlagsHoldLevelDown` | src/app/trust.rs:263-284 | in every run the handlers can issue, five flags leave a fresh row at New and three keep it from Trusted |
| `Trust.RunCounts` | src/app/trust.rs:109-147 | over every run each counter grows by the number of its activities |
| `Trust.PointsLedger` | src/app/trust.rs:109-147 | the points of a row that can pay for a run change by 5 a post, 2 a comment, 1 a like, 3 a follower and 10 a used invite, less 1, 10 and 25 for the losses, 10 a flag and 50 a strike; a loss it cannot pay leaves zero |
| `Trust.AgeIsTheLargest` | migrations/006_rate_limiting_and_trust.sql:72-79 | over every run the account age is the largest the hourly job recorded, so it never drops |
| `Trust.StrikesInClosedForm` | src/app/trust.rs:289-313 | after n ≥ 1 flags on a fresh row, interleaved with anything, strikes = (n−1)/9, flags = n + strikes, and a ban exists if and only if n ≥ 28 |
| `Trust.BanInClosedForm` | src/app/trust.rs:187-241 | from the 28th flag on banned_until is the time of flag 28, 37, 46 or the last ninth one after, plus 7, 30 or 365 days |
| `Trust.TwentyEightFlagsMeanNew` | src/app/trust.rs:263-271 | a fresh row flagged 28 times is at level New whatever else its user does |
| `Trust.BanNeverMovesEarlier` | src/app/trust.rs:187-241 | with a monotone clock banned_until never moves earlier |
| `Trust.ThreeStrikesStayNew` | src/app/trust.rs:263-271 | from the third strike on every operation leaves and recalculates the level New |
| `Trust.TrustRow.Recalculate` | src/app/trust.rs:243-284 | stores the level the metrics justify, as LevelLaw spells out, and nothing else |
| `Trust.TrustRow.RecordActivity` | src/app/trust.rs:109-147 | refines the activity step |
| `Trust.TrustRow.AddStrike` | src/app/trust.rs:187-241 | refines the strike step |
| `Trust.TrustRow.RecordFlag` | src/app/trust.rs:289-313 | refines the flag step, every tenth flag adding a strike |
| `Invites.RunKeepsInv` | src/app/invites.rs:208-293 | every run of signup, create and revoke keeps the conservation laws and the forest |
| `Invites.InviteConservation` | src/app/auth.rs:82-125 | the uses of all codes equal the users created by signup; each inviter's successful_invites equals their relationship rows and the uses of their codes; no code is overused; relationships form a forest |
| `Invites.CodeLaw` | src/app/invites.rs:208-293 | whatever happens after a code is made, it lets in at most max_uses users; the next one is answered revoked once these are used or its creator withdrew it, expired after its time, and else joins with its creator as inviter; validating agrees but for the last instant |
| `Invites.CreatedCodeLaw` | src/app/invites.rs:52-137 | a user gets a code if and only if fewer than 3, 10, 50 or 200 were sent at their level; in every continuation it admits a user if and only if it has admitted none, its creator did not revoke it and it has not expired |
| `Invites.AdminCodeLaw` | src/app/invites.rs:139-170 | an administrator's code admits one user at most until it expires, whoever tries to revoke it, and leaves no relationship |
| `Invites.SentCountsCodes` | src/app/invites.rs:52-137 | over every run invites_sent of a user grows by the codes they made |
| `Invites.NewcomerSentCodes` | src/app/auth.rs:70-126 | for a user who joins in the run it is the number of their codes |
| `Invites.InvalidStaysInvalid` | src/app/invites.rs:385-397 | a code that does not validate never validates again, and a revoked one stays revoked |
| `Invites.ChecksDisagreeIff` | src/app/invites.rs:362-382 | validating and consuming disagree if and only if the code is usable and expires at that very instant |
| `Invites.ExpiringCodeIsAccepted` | src/app/invites.rs:238-240 | a run after which a code no longer validates and yet admits a user who had not joined |
| `Invites.InviteService.ConsumeInvite` | src/app/invites.rs:208-293 | each refusal reason changes nothing; an accepted code is counted, invalidated when full, recorded and rewarded |
| `Invites.InviteService.SignUpUser` | src/app/auth.rs:70-126 | user, trust row and code use commit together or not at all |
| `Invites.InviteService.RevokeInvite` | src/app/invites.rs:385-397 | only the creator's valid code is revoked; reports whether anything changed |
| `Invites.InviteService.CreateInvite` | src/app/invites.rs:52-137 | creates a single-use code and counts it, unless the trust row is missing or the level's quota is used up |
| `InviteTree.Push` | src/app/invites.rs:408-443 | the recursive walk appends the specified rows, in order, to the vector it is given, for every depth |
| `InviteTree.WalkReturnsTree` | src/app/invites.rs:401-443 | on any relationship table the depth-d walk returns a row if and only if its inviter is within d−1 invitations of the root |
| `InviteTree.WalkReturnsOnce` | src/app/invites.rs:401-443 | on a forest it returns each row once |
| `InviteTree.TreeWalkIsExact` | src/app/invites.rs:401-443 | over every run of the invite system the walk returns exactly the tree's rows, each once |
| `SearchPattern.EscapeLikePattern` | src/app/search.rs:153-165 | the loop computes the escape function |
| `SearchPattern.EscapedMatchesItself` | src/app/search.rs:153-165 | under LIKE with a backslash escape, escaped text matches its own characters and nothing else |
| `SearchPattern.PatternMeansSubstring` | src/app/search.rs:26 | for every notion of character equality, the pattern matches exactly the texts in which the query occurs (section 9.7.1 of the PostgreSQL manual) |
| `SearchPattern.PatternMeansPlainSubstring` | src/app/search.rs:26 | for plain LIKE it matches exactly when the query is a substring |
| `SearchPattern.PortsAgree` | spring/src/main/java/com/ciel/app/ExtendedApiService.java:313 | the ports' three sequential replaces equal the single pass on every string |
| `Placeholders.ScanReadsPlaceholder` | spring/src/main/java/com/ciel/app/ApiData.java:22 | a written $n is read back as n up to the first non-digit |
| `Placeholders.Prepare` | spring/src/main/java/com/ciel/app/ApiData.java:31-45 | the matcher loop succeeds if and only if every number is in range, writes ? for each placeholder and collects the arguments in order of appearance |
| `Placeholders.RewritingKeepsMeaning` | spring/src/main/java/com/ciel/app/ApiData.java:31-45 | binding the collected arguments to the ? text instantiates to the same statement as substituting the n-th argument for $n |
| `Placeholders.PrepareKeepsMeaningExactly` | spring/src/main/java/com/ciel/app/ApiData.java:31-45 | for every template and in-range arguments the two agree if and only if the template holds no ? |
| `Placeholders.StrayQuestionBreaksIt` | spring/src/main/java/com/ciel/app/ApiData.java:31-45 | a template with its own ? whose rewritten form means something else |
| `SocialGraph.BlockThenUnblock` | src/app/social.rs:116-155 | blocking then unblocking forgets the follows between the two and nothing else; it is the identity if and only if there were none and no block |
| `SocialGraph.UnblockForgetsFollow` | src/app/social.rs:116-155 | a run with a follow that is gone after a block and its removal |
| `SocialGraph.HomeFeedIsViewable` | src/app/feed.rs:119-135 | over every run a post is in the home feed if and only if can_view_post holds and it is one's own or a followee's |
| `SocialGraph.StoriesFeedIsReadable` | src/app/stories.rs:642-661 | over every run a story is in the feed if and only if get_story would return it and its owner is followed; never one's own |
| `SocialGraph.WhoSeesWhat` | src/app/posts.rs:120-143 | over every run a followers-only post shows to its owner and followers, a public one to everybody without a block either way, a story for friends to its owner and mutual followers until it expires, a public one to everybody unblocked, and nothing of a deleted account |
| `SocialGraph.FollowOpens` | src/app/social.rs:56-102 | over every run a follow opens the followee's followers-only posts to the follower, if and only if the followee is live, unblocked both ways, somebody else and below 5000 followers, and changes nobody else's view |
| `SocialGraph.FollowAnswers` | src/app/social.rs:56-102 | the answer is not found, limit reached or inserted exactly in those cases |
| `SocialGraph.UnfollowCloses` | src/app/social.rs:104-114 | an unfollow closes those posts to the follower and changes nobody else's view |
| `SocialGraph.BlockCloses` | src/app/social.rs:116-155 | a block closes both sides' public posts to each other, an unblock opens them unless the other side blocks too, and nobody else's view changes |
| `SocialGraph.DeletionCloses` | src/app/users.rs:112-151 | a deletion closes the account's posts to everybody, changes no view among the others, and leaves no follow or block of it |
| `SocialGraph.BlockHidesUntilUndone` | src/app/social.rs:116-143 | after a block, in every continuation that neither lifts it nor deletes one of the two accounts, no uncached query returns the other side's posts or stories to either, and neither follows the other |
| `SocialGraph.HomeFeedRows` | src/app/feed.rs:119-135 | the query keeps the order and returns exactly the posts of the feed |
| `SocialGraph.SocialService.FollowUser` | src/app/social.rs:56-102 | refines the follow step: not found, limit reached, inserted or not |
| `SocialGraph.SocialService.UnfollowUser` | src/app/social.rs:104-114 | removes exactly that edge and reports whether it was there |
| `SocialGraph.SocialService.BlockUser` | src/app/social.rs:116-143 | inserts the block unless it is a self-block, deletes both follows, reports whether the block is new |
| `SocialGraph.SocialService.UnblockUser` | src/app/social.rs:145-155 | removes exactly that block and reports whether it was there |
| `FollowLock.FollowerLimitHolds` | src/app/social.rs:59-99 | in every interleaving of follows, deletions, unfollows and blocks no user has more than 5000 followers and nobody follows a deleted account |
| `FollowLock.BlockExcludesFollows` | src/app/social.rs:56-143 | however follows, blocks, unblocks and deletions of a pair overlap, a committed block excludes follows both ways, and nobody follows or blocks themselves |
| `FollowLock.FeedsStaySound` | src/app/feed.rs:119-135 | in every interleaving the uncached feeds are exactly the viewable posts and readable stories of followed accounts and one's own posts; followers-only posts are viewable exactly where the feed shows them, public ones exactly without a block either way |
| `FollowLock.FollowAlone` | src/app/social.rs:56-102 | the statements of follow with nothing else open take exactly the serialised step |
| `FollowLock.BlockAlone` | src/app/social.rs:116-143 | so do those of block, which change nothing when one of the two does not exist |
| `FollowLock.DeleteAlone` | src/app/users.rs:112-151 | so do those of delete_account |
| `Stories.RunKeepsInv` | src/app/stories.rs:211-305 | every run keeps both counters equal to their tables and leaves no orphan rows |
| `Stories.CountersAgree` | src/app/stories.rs:223-305 | over every run view_count and reaction_count equal the number of view and reaction rows |
| `Stories.RowsRecordTheRun` | src/app/stories.rs:223-305 | until its owner deletes it, a story's viewers are exactly those who saw it, and a user's reaction is the last one they made unless they took it back |
| `Stories.AnswersTellOfChange` | src/app/stories.rs:223-305 | over every run mark_seen answers true exactly for the first view, and remove_reaction exactly when a reaction was there |
| `Stories.DeletionTakesItsRows` | src/app/stories.rs:211-218 | the owner's deletion takes the story with its views and reactions and nothing else; anybody else's changes nothing |
| `Stories.DeletedStaysEmpty` | src/app/stories.rs:211-218 | an absent story has no view or reaction in any continuation that does not create it |
| `Stories.ClampNeverFires` | src/app/stories.rs:288-305 | GREATEST never clamps, and removing a fresh reaction restores the state exactly |
| `Stories.MetricsAddUp` | src/app/stories.rs:421-467 | over every run the per-emoji counts sum to the reactions at the time they are read, so to the counter read before if and only if the number of reactions is the same |
| `Stories.StoryService.MarkSeen` | src/app/stories.rs:223-241 | refines the view step: a row and an increment the first time, nothing afterwards |
| `Stories.StoryService.AddReaction` | src/app/stories.rs:245-283 | refines the upsert: one reaction per user, only a new row counts; succeeds exactly for an existing story and an active user, though the row is written either way |
| `Stories.StoryService.RemoveReaction` | src/app/stories.rs:288-305 | refines the removal and reports whether a row was there |

## Left out

- Token formats, password and token hashing, signing: tokens are records and hashes are values.
- Object storage, image decoding, the queue and Redis clients: their answers are event parameters.
- Cursor text (RFC 3339 timestamps and UUIDs joined by a slash) and JSON of cached pages.
- delete_media and other deletions of media rows: runs contain none, because the foreign key would clear processed_media_id.
- Deletion of invite codes and the expiry cleanup functions in SQL.
- Uniqueness of handles and e-mail addresses, input validation, device risk scoring, notification jobs.
- The table of limits per trust level: limits are parameters of a check.
- HTTP routing, extractors, error mapping, configuration, metrics, documentation site, scripts.
- The .NET and Spring services beyond the cited lines: copies of the Rust logic.
- RateService.Limiter.CheckAndIncrement: counts beyond 32 bits are not modelled.
- RateService.LimitedIffOver: for posts and follows, calls whose hour and day have different numbers; KeysAreApart says when they do.
- RateLimiter.KthRoundSeesKIff: clock readings from one day after the epoch on, and scripts at most 21 window lengths late for every window since the epoch (a thousand years by now); beyond that counters of different windows are not kept apart.
- SocialGraph.BlockHidesUntilUndone: uncached queries only; what the cache still serves is FeedCache.BlockServedLaw.
- FollowLock.BlockExcludesFollows: the share lock a follow takes on its own follower and the wait of a duplicate block are not modelled, which only admits more interleavings.
- Stories.MetricsAddUp: the list of 200 viewers is not modelled.
- Media dimensions and object-key text: keys are records of owner, upload and extension.
- Placeholders.PrepareKeepsMeaningExactly: a ? inside an SQL literal or comment counts as a ? like any other.
- The stories-feed cache and the named highlights.
