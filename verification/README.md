# Storage framework: a verified model

The storage framework has two halves that talk over D-Bus. A provider serves requests on a user's
files: it authenticates, checks who is asking, runs the request, and keeps the uploads and downloads
in progress. A client library turns the replies into job objects. This project models the parts of
both where order, timing and failure matter, and proves what the code keeps in every run.

| file | what it models |
|---|---|
| `Peers.dfy` | the clients' bus names |
| `PeerCache.dfy` | the two-generation cache of peer credentials, against an LRU of 50 entries |
| `OrderedMap.dfy`, `PendingJobs.dfy` | the two ordered job tables and the reference-counted watch per client |
| `JobProtocol.dfy` | who may call what on a job: requests, retries, disconnects, reports, shutdown |
| `Requests.dfy` | request handlers that share one authentication session |
| `FileTree.dfy`, `FileSystem.dfy` | file trees as values; a mutable tree and the recursive copy that walks it |
| `ItemIds.dfy` | item ids, names, and the string tests made on them |
| `LocalProvider.dfy` | list, create, delete, move and copy; containment below the root |
| `Uploads.dfy`, `Downloads.dfy` | the local provider's byte pumps and the ETag-guarded commit |
| `Service.dfy` | all requests and uploads of the local provider in any sequence |
| `Transfers.dfy` | the client's uploader and downloader |
| `EndToEnd.dfy` | an upload from the client's owner to the provider's disk |
| `PagedListing.dfy` | the client's paged listing |
| `Marshal.dfy` | the item encoder and decoder |
| `Activity.dfy` | the inactivity timer and its RAII notifiers |

`dafny verify dfyconfig.toml` checks everything.

## How to read it

Objects that the source updates in place are classes with the same fields; each method is proved equal
to a function on values, and the functions are composed into runs: any sequence of events, each enabled
by the state before it. Completion signals, replies and reports are events of their own and never happen
inside the call that causes them. The main results are statements about all runs.

The environment enters as events or parameters: replies of the bus and of the account service, bytes that
arrive, reads and writes that fail (`Io`, `Medium`, `writeOk`), room on the medium (`credit`, in nodes and
bytes), the random part of a temporary name (`suffix`, a name not in use), the order of directory entries
(any). Modification times come from a clock that gives every write its own; every other program or request may do anything to the
tree that keeps times unique and brings no old one back (`Honest`). Each request of the local provider is
one step; the source runs them on threads of their own (LocalProvider.cpp:142-168).

## What the model shows about the code

- **A `finish` that does not return** (`Uploads.FinishReturnsIff`). If the drain in `finish` fails, it reports
  the error while the runtime still holds the completion lock (LocalUploadJob.cpp:172 and 322-326,
  UploadJobImpl.cpp:117-138). It fails if and only if the socket holds bytes and they are more than are still
  expected, or writing them to the file fails. `Uploads.SurplusOrFaultBlocks` has a run for each.
- **A failing link loses the old file** (`Uploads.FileIsLostIff`, `Uploads.FailingLinkLosesFile`): the old file
  is unlinked first (LocalUploadJob.cpp:234-235). A failing flush comes before that, and loses nothing.
- **A file copy that does not fit** leaves its beginning at the target, where clients see it: `copy` writes to the
  target itself (LocalProvider.cpp:458), and only folders are filled under a temporary name. `FailedCopyShowsIff`
  in `LocalProvider.dfy` says exactly when.
- **A negative size** is accepted and publishes an empty file, whatever was sent
  (`Uploads.NegativeSizePublishesNothing`).
- **The version of an upload** is the time when its bytes last reached the file, in a write or in the flush,
  and not that of the link; the guard is sound because times are unique, not because they are in commit order.
- **A root of "/"** admits no item but itself, because the test looks for "//" (`ItemIds.StringTestIsPathTest`).
- **A cancelled transfer can still become a failed one**, by a late failure of the opening call
  (`Transfers.CancelledBecomesErrorIff`, `Transfers.LateErrorAfterCancel`).
- **`close` ignores a failed flush** (`Transfers.CloseSendsAllIff`, `Transfers.CloseLosesBytes`): bytes the owner
  was told were written may not be sent.
- **Asking to invalidate without interaction** would weaken a live session (`Requests.InvalidateAloneWeakens`);
  handlers never do.
- **Assigning to an `ActivityNotifier` that already holds** loses a count, and the service then never becomes
  idle (`Activity.BecomesIdleIff`, `Activity.TwoActivitiesNeverIdle`); the jobs are given their activity once.
- **The fallback without `O_TMPFILE`** cannot work: `mkstemp` needs a template ending in six X
  (LocalUploadJob.cpp:127-128). Only the branch that links an anonymous file is modelled.
- **Promotion in the peer cache** reads credentials after they were moved and erased (DBusPeerCache.cpp:94-97);
  the model uses the value that is meant.

## Model

| member | source | states |
|---|---|---|
| `PeerCache.RetainsRecentlyUsed` | `src/provider/internal/DBusPeerCache.cpp:71-190` | in every run a used peer is in one of the two generations as long as fewer than 50 distinct other peers were used since its own last use: the cache keeps at least what an LRU of 50 keeps |
| `PeerCache.HoldsARecencySuffix` | `src/provider/internal/DBusPeerCache.cpp:92-100` | the retained peers are exactly those of a suffix of the use history; the suffix is the whole history or names at least 50 peers |
| `PeerCache.RotationKeepsSuffixes` | `src/provider/internal/DBusPeerCache.cpp:176-180` | making the full generation the old one keeps both generations suffixes of the use history |
| `PeerCache.UseKeepsSuffixes` | `src/provider/internal/DBusPeerCache.cpp:92-100` | promoting a peer from the old generation, or inserting one, keeps both generations suffixes of the use history |
| `PeerCache.OneQueryPerPeer` | `src/provider/internal/DBusPeerCache.cpp:103-131` | at most one daemon query per peer is outstanding, exactly for the pending peers, and no peer is in two of the three maps |
| `PeerCache.PromisesKept` | `src/provider/internal/DBusPeerCache.cpp:103-190` | each promise is resolved at most once, with a reply the daemon gave for the peer asked for; with no query outstanding all are resolved |
| `PeerCache.AskKeepsPromises` | `src/provider/internal/DBusPeerCache.cpp:71-132` | asking keeps every promise known, waiting or resolved once, and bound to its peer |
| `PeerCache.ReplyKeepsPromises` | `src/provider/internal/DBusPeerCache.cpp:183-190` | a reply resolves exactly the promises that wait for its peer, none of them twice |
| `PeerCache.ReplyForgetsNone` | `src/provider/internal/DBusPeerCache.cpp:183-190` | no promise gets lost when a reply resolves those of one peer |
| `PeerCache.AskForgetsNone` | `src/provider/internal/DBusPeerCache.cpp:71-132` | a new promise is resolved at once or waits |
| `PeerCache.RunKeepsInv` | `src/provider/internal/DBusPeerCache.cpp:71-190` | the cache invariant (disjoint maps, one query per pending peer, recency suffixes, promises kept, values truthful) holds after any run |
| `PeerCache.DBusPeerCache.GetCredentials` | `src/provider/internal/DBusPeerCache.cpp:71-132` | a hit resolves at once, a hit in the old generation is promoted, a miss joins the query in progress or starts one; nothing else changes |
| `PeerCache.DBusPeerCache.ReceivedCredentials` | `src/provider/internal/DBusPeerCache.cpp:134-190` | rotates a full generation, inserts the reply, resolves the waiting promises in order, and ends the query |
| `PeerCache.DBusPeerCache.SetValues` | `src/provider/internal/DBusPeerCache.cpp:183-190` | the loop resolves every waiting promise once, in the order they were asked |
| `PendingJobs.WatchCountsAgree` | `src/provider/internal/PendingJobs.cpp:63-176` | in every reachable state a client is watched, and counted, exactly while it has jobs, and its count is the number of its entries in both tables |
| `PendingJobs.FoundIsWatched` | `src/provider/internal/PendingJobs.cpp:137-143` | a job that is found has a counted client, so the not-found branch of `unwatch_peer` is not reached by a removal |
| `PendingJobs.DisconnectRemovesExactly` | `src/provider/internal/PendingJobs.cpp:152-176` | a disconnect removes all and only that client's entries; everyone else's entries, counts and watches stay |
| `PendingJobs.DisconnectCancelsExactly` | `src/provider/internal/PendingJobs.cpp:152-176` | a disconnect cancels exactly that client's jobs, as many times as there are entries |
| `PendingJobs.RemoveUndoesAdd` | `src/provider/internal/PendingJobs.cpp:63-150` | removing a job that was just added restores the table, the counts and the watches |
| `PendingJobs.AddKeepsValid` | `src/provider/internal/PendingJobs.cpp:63-75` | adding a job under a fresh id keeps the tables sorted and the counts right |
| `PendingJobs.RemoveKeepsValid` | `src/provider/internal/PendingJobs.cpp:77-91` | removing a job, present or not, keeps the tables sorted and the counts right |
| `PendingJobs.DisconnectKeepsValid` | `src/provider/internal/PendingJobs.cpp:152-176` | a disconnect keeps the tables sorted and the counts right, and leaves nothing of that client |
| `PendingJobs.RunKeepsValid` | `src/provider/internal/PendingJobs.cpp:63-176` | sorted tables and right counts hold after any run |
| `PendingJobs.ScanStarts` | `src/provider/internal/PendingJobs.cpp:159-160` | no entry before the lower bound of (client, "") belongs to the client |
| `PendingJobs.ScanGoesOn` | `src/provider/internal/PendingJobs.cpp:160-166` | erasing the entry under the iterator keeps the scan at the first entry not yet seen |
| `PendingJobs.NoneLeft` | `src/provider/internal/PendingJobs.cpp:160-166` | once the scan meets an entry of somebody else, nothing of the client is left in the table |
| `PendingJobs.PendingJobs.CancelAndErase` | `src/provider/internal/PendingJobs.cpp:159-175` | the erase-while-iterating loop returns the table without the client and cancels the client's jobs in key order |
| `PendingJobs.PendingJobs.ServiceDisconnected` | `src/provider/internal/PendingJobs.cpp:152-176` | both tables lose the client, its count and watch go, its jobs are cancelled once each |
| `PendingJobs.PendingJobs.WatchPeer` | `src/provider/internal/PendingJobs.cpp:123-135` | the first job of a client starts the watch, later ones add to the count |
| `PendingJobs.PendingJobs.UnwatchPeer` | `src/provider/internal/PendingJobs.cpp:137-150` | the last job of a client ends the watch, others lower the count, an unknown client changes nothing |
| `PendingJobs.PendingJobs.AddDownload` | `src/provider/internal/PendingJobs.cpp:63-75` | the entry is placed in key order and its client watched |
| `PendingJobs.PendingJobs.RemoveDownload` | `src/provider/internal/PendingJobs.cpp:77-91` | succeeds if and only if the key is present, with the job stored under it; the client is unwatched |
| `PendingJobs.PendingJobs.AddUpload` | `src/provider/internal/PendingJobs.cpp:93-105` | as AddDownload, for the other table |
| `PendingJobs.PendingJobs.RemoveUpload` | `src/provider/internal/PendingJobs.cpp:107-121` | as RemoveDownload, for the other table |
| `PendingJobs.PendingJobs.Destroy` | `src/provider/internal/PendingJobs.cpp:51-61` | the destructor cancels every job that is left, in key order, downloads first |
| `OrderedMap.AfterLowerBound` | `src/provider/internal/PendingJobs.cpp:159-160` | from the lower bound on no key is smaller, and the key itself can only be at it |
| `OrderedMap.FindFinds` | `src/provider/internal/PendingJobs.cpp:81-86` | in a sorted table a key is found if and only if it is there |
| `OrderedMap.EmplaceKeepsSorted` | `src/provider/internal/PendingJobs.cpp:67-72` | inserting at the lower bound keeps the key order |
| `OrderedMap.PartitionByPeer` | `src/provider/internal/PendingJobs.cpp:152-176` | a table splits into one client's jobs and everyone else's entries, nothing lost and nothing twice |
| `JobProtocol.AtMostOneEnd` | `include/unity/storage/provider/UploadJob.h:116-144` | over every interleaving of requests, retries, disconnects, reports and shutdown, a job's own `finish` and `cancel` run at most once in total, never after it reported, and its promise's future is taken at most once |
| `JobProtocol.NoJobIsForgotten` | `src/provider/internal/ProviderInterface.cpp:184-331` | the complement: in every run a started job is in the table of a living account, untouched, or it reported, was finished, or was cancelled |
| `JobProtocol.JobsAreTold` | `src/provider/internal/ProviderInterface.cpp:251-331` | in every run each job is told exactly what it should be: a finish request finishes the job it names, a cancel request, the client's end and the account's end cancel the jobs concerned, a report is recorded, a job that reported is not called, and no other job notices |
| `JobProtocol.TableFollows` | `src/provider/internal/ProviderInterface.cpp:184-331` | in every run the table loses exactly the entries that an event is about and gains exactly those of new jobs |
| `JobProtocol.RetryIsHarmless` | `src/provider/internal/ProviderInterface.cpp:251-286` | finishing or cancelling an id that is not in the table touches no job, after any events that do not start a job under that id |
| `JobProtocol.RetryAfterRequest` | `src/provider/internal/Handler.cpp:151-165` | a request that already finished or cancelled a job can be run again, by the retry after Unauthorized or by the client, at any later time without effect |
| `JobProtocol.RunKeepsInv` | `src/provider/internal/ProviderInterface.cpp:184-331` | after any run each held job is untouched and in one place, and each job saw at most one end |
| `JobProtocol.EndKeepsInv` | `src/provider/internal/ProviderInterface.cpp:251-286` | taking a job out of the table before ending it keeps every other job untouched |
| `JobProtocol.GoneKeepsInv` | `src/provider/internal/PendingJobs.cpp:152-207` | cancelling the jobs of a client that went away keeps the invariant |
| `JobProtocol.CancelAllEach` | `src/provider/internal/PendingJobs.cpp:51-61` | cancelling a list of distinct jobs cancels each of them once and no other |
| `JobProtocol.SurvivorNotCancelled` | `src/provider/internal/PendingJobs.cpp:152-176` | a job that stays in the table after a disconnect is not one of those cancelled |
| `JobProtocol.NoNewOwner` | `src/provider/internal/ProviderInterface.cpp:184-331` | only a start brings a job into the table |
| `JobProtocol.JobImpl.FinishJob` | `src/provider/internal/UploadJobImpl.cpp:130-138` | a job that reported answers from its promise, any other runs its own `finish` |
| `JobProtocol.JobImpl.CancelJob` | `src/provider/internal/DownloadJobImpl.cpp:149-158` | a job that reported is not cancelled, any other runs its own `cancel` |
| `JobProtocol.JobImpl.ReportError` | `src/provider/internal/UploadJobImpl.cpp:117-128` | the job is complete and the report recorded |
| `JobProtocol.JobImpl.ReportComplete` | `src/provider/internal/DownloadJobImpl.cpp:114-125` | the job is complete and the report recorded |
| `Requests.RepliesAndCallbacks` | `src/provider/internal/Handler.cpp:57-171` | in every run a request has at most one reply and at most two provider calls, the second only after a future of the first failed with Unauthorized; those failures, and nothing else, make it retry |
| `Requests.ReplyTells` | `src/provider/internal/Handler.cpp:74-171` | in every run the reply carries the provider's result if and only if the callback's future ended with it, and each other error if and only if that happened to the request; Unauthorized only after a second refusal |
| `Requests.EventsMoveHandlers` | `src/provider/internal/Handler.cpp:57-171` | what each event does to its request, in any run, and that no other request moves but those an answer of the account service wakes |
| `Requests.NewRequestStarts` | `src/provider/internal/Handler.cpp:57-72` | a new request is registered, and goes on at once if and only if the account has credentials |
| `Requests.CallbacksAreVouchedFor` | `src/provider/internal/Handler.cpp:74-149` | the provider is called for a request exactly once for each time the bus vouched for the client, and never otherwise |
| `Requests.CredentialsAreCurrent` | `src/provider/internal/OnlineAccountData.cpp:48-193` | in every run the account has credentials if and only if no session is live and its latest news is a good answer |
| `Requests.RetryReauthenticates` | `src/provider/internal/Handler.cpp:151-165` | a handler that retries waits for an interactive session that invalidates, with the refused credentials gone |
| `Requests.ReplyFindsRequest` | `src/provider/internal/ProviderInterface.cpp:63-91` | a handler that is about to reply is in the table of requests, and leaves it with its reply |
| `Requests.StepsAreBounded` | `src/provider/internal/Handler.cpp:57-171` | without new requests only a bounded number of asynchronous steps can follow, by a measure over phases and retry flags |
| `Requests.QuietMeansAnswered` | `src/provider/internal/Handler.cpp:57-171` | once no asynchronous step is left, every request has exactly one reply |
| `Requests.AuthenticateServes` | `src/provider/internal/OnlineAccountData.cpp:48-94` | asking for a session, from whatever sound session there is, gives the caller what it needs and takes nothing from a waiting handler |
| `Requests.AuthenticateMeetsWishes` | `src/provider/internal/OnlineAccountData.cpp:48-94` | after the call the session invalidates if asked to; it is interactive if asked to be if and only if the call did not find a live non-interactive session that already invalidates |
| `Requests.ReplacementStrengthens` | `src/provider/internal/OnlineAccountData.cpp:48-94` | a call keeps what a live session offers if and only if it does not ask an interactive session that does not invalidate for one that invalidates without interaction; other callers replace a session by a stronger one only |
| `Requests.InvalidateAloneWeakens` | `src/provider/internal/OnlineAccountData.cpp:54-58` | the call that takes interaction away |
| `Requests.SessionReplacedAtMostTwice` | `src/provider/internal/OnlineAccountData.cpp:43-94` | between two answers of the account service it is asked for another session at most twice, however many requests arrive, and every waiting handler has a session as strong as it needs |
| `Requests.RunKeepsInv` | `src/provider/internal/Handler.cpp:57-171` | after any run live sessions are sound, waiting handlers served, and counters agree with phases |
| `Requests.HandlerComesCloser` | `src/provider/internal/Handler.cpp:57-171` | each step of a handler shortens its distance to its reply |
| `Requests.OnlineAccountData.constructor` | `src/provider/internal/OnlineAccountData.cpp:32-44` | a new account starts a plain session at once |
| `Requests.OnlineAccountData.DoAuthenticate` | `src/provider/internal/OnlineAccountData.cpp:48-94` | a live session that is good enough is kept, any other is replaced and blanks the credentials |
| `Requests.OnlineAccountData.OnAuthenticated` | `src/provider/internal/OnlineAccountData.cpp:107-181` | the answer ends the session; there are credentials if it was good |
| `Requests.OnlineAccountData.OnChanged` | `src/provider/internal/OnlineAccountData.cpp:183-193` | a change blanks the credentials unless a session is live |
| `Requests.Handler.DoBegin` | `src/provider/internal/Handler.cpp:57-72` | goes on with the credentials at hand, or asks for a session: invalidating when retrying |
| `Requests.Handler.DoHandleUnauthorized` | `src/provider/internal/Handler.cpp:151-165` | the first Unauthorized retries, the second replies |
| `Requests.Handler.DoCredentialsReceived` | `src/provider/internal/Handler.cpp:114-149` | calls the provider, and queues the reply if the call itself throws |
| `FileSystem.FileSystem.CopyRecursively` | `src/local-provider/LocalProvider.cpp:92-121` | walking a tree that changes under it, adds at the target exactly a copy of what the source had when the walk began, reserved names and special nodes pruned at every depth; fails only on a full medium |
| `FileSystem.FileSystem.CopyEntries` | `src/local-provider/LocalProvider.cpp:109-115` | the loop over directory entries terminates and copies each entry once, although the folder written to may lie inside the one read |
| `FileSystem.FileSystem.CopyInto` | `src/local-provider/LocalProvider.cpp:436-453` | a new temporary folder is filled with the copy; nothing outside it changes |
| `FileTree.RenameCompletes` | `src/local-provider/LocalProvider.cpp:454-454` | renaming the filled temporary folder gives the snapshot, and leaves no temporary folder |
| `FileTree.CleanStaysOutside` | `src/local-provider/LocalProvider.cpp:96-99` | a walk that skips reserved names never enters the temporary folder, wherever that lies |
| `FileTree.TmpIsNotKept` | `src/local-provider/LocalProvider.cpp:439-444` | the temporary folder adds nothing to what is copied |
| `FileTree.WalkedFolderIsStable` | `src/local-provider/LocalProvider.cpp:433-438` | a folder outside the temporary folder shows the same entries during the whole walk |
| `FileTree.VisitClean` | `src/local-provider/LocalProvider.cpp:109-115` | copying one more entry adds exactly that entry and what is kept below it |
| `FileTree.GraftThen` | `src/local-provider/LocalProvider.cpp:109-115` | a copy of some entries followed by a copy of one more is a copy of both |
| `FileTree.RelocateKeepsTree` | `src/local-provider/LocalProvider.cpp:395-395` | a move keeps every node in a folder |
| `FileTree.RelocateMoves` | `src/local-provider/LocalProvider.cpp:395-395` | after a move the target has exactly what the source had |
| `FileTree.RelocateVacates` | `src/local-provider/LocalProvider.cpp:395-395` | after a move nothing is left at the source |
| `FileTree.RelocateIsClocked` | `src/local-provider/LocalProvider.cpp:395-395` | a move keeps modification times unique and brings no old one back |
| `LocalProvider.CopyListsLikeSource` | `src/local-provider/LocalProvider.cpp:185-228` | listing the copy, at any depth, shows exactly what listing the source showed before |
| `LocalProvider.CopyReadsLikeSource` | `src/local-provider/LocalProvider.cpp:92-121` | reading a file of the copy, at any depth, gives what reading it in the source gave before |
| `LocalProvider.MovesExactly` | `src/local-provider/LocalProvider.cpp:395-395` | a move takes the item and all below it to the target, leaves nothing, and changes nothing else |
| `LocalProvider.RemovesExactly` | `src/local-provider/LocalProvider.cpp:340-359` | a delete takes away the item and all below it, and changes nothing else |
| `LocalProvider.FinishCopy` | `src/local-provider/LocalProvider.cpp:433-454` | the rename at the end of a copy succeeds and yields the snapshot of the old source |
| `LocalProvider.LocalProvider.Copy` | `src/local-provider/LocalProvider.cpp:405-466` | a folder becomes a snapshot at the target and a file a new file; an existing target is refused; each error with its cause and exact effect: nothing, a reserved folder, or, for a file that does not fit, its beginning at the target |
| `LocalProvider.FailedCopyShowsIff` | `src/local-provider/LocalProvider.cpp:425-459` | a failed copy shows clients something new if and only if a file did not fit on a medium that still took its name; they see exactly the bytes that fitted |
| `LocalProvider.LocalProvider.CopyOneFile` | `src/local-provider/LocalProvider.cpp:458-458` | exactly when a file is copied whole, is cut short, or nothing happens, by the room on the medium |
| `LocalProvider.LitterIsHidden` | `src/local-provider/LocalProvider.cpp:200-220` | a reserved folder changes no listing |
| `LocalProvider.LocalProvider.CopyFolder` | `src/local-provider/LocalProvider.cpp:425-455` | fill a temporary folder, then rename it: success is a snapshot, failure at most a reserved folder |
| `LocalProvider.LocalProvider.CopyItem` | `src/local-provider/LocalProvider.cpp:425-459` | the outcome of a copy by kind of item, with every error |
| `LocalProvider.LocalProvider.Move` | `src/local-provider/LocalProvider.cpp:361-403` | relocates the item to a free target below the root and leaves nothing behind; each refusal and its cause |
| `LocalProvider.LocalProvider.DeleteItem` | `src/local-provider/LocalProvider.cpp:340-359` | removes the item and all below it; the root is refused |
| `LocalProvider.LocalProvider.CreateFolder` | `src/local-provider/LocalProvider.cpp:274-302` | adds one folder below the root, and nothing on error; each refusal and its cause |
| `LocalProvider.LocalProvider.List` | `src/local-provider/LocalProvider.cpp:185-228` | every file and folder that is not reserved, each once, and nothing else |
| `Service.Service.Serve` | `src/local-provider/LocalProvider.cpp:185-495` | any sequence of requests and upload events, served by the methods themselves: each one does exactly what it should, nothing changes but strictly below the root, which stays a folder in a tree, and all guarded updates that committed had different ETags |
| `Service.AnswerRequest` | `src/local-provider/LocalProvider.cpp:185-466` | each request has its exact effect on the tree, stays below the root and keeps modification times honest |
| `Service.StartUpload` | `src/local-provider/LocalProvider.cpp:304-328` | an upload starts exactly if its checks pass, is new and below the root, and leaves the tree as it was |
| `Service.FinishStep` | `src/local-provider/LocalUploadJob.cpp:170-284` | each `finish` stays below the root and keeps the invariant of all uploads |
| `LocalProvider.ChangeIsContained` | `src/local-provider/LocalProvider.cpp:274-466` | each single request changes nothing but strictly below the root |
| `LocalProvider.ChangeKeepsTree` | `src/local-provider/LocalProvider.cpp:274-466` | each single request leaves a tree |
| `LocalProvider.SnapshotIsTree` | `src/local-provider/LocalProvider.cpp:425-455` | a tree with a snapshot added is a tree |
| `LocalProvider.MoveKeepsSane` | `src/local-provider/LocalProvider.cpp:361-403` | a move keeps the root a folder and the clock right |
| `LocalProvider.LocalProvider.TargetIsBelowRoot` | `src/local-provider/LocalProvider.cpp:283-289` | a place for a new item is found if and only if the parent is valid and the name is one proper component without the reserved prefix; it is the parent with that very name, strictly below the root |
| `ItemIds.Sanitize` | `src/local-provider/utils.cpp:61-85` | accepts a name if and only if it is one proper component without the reserved prefix |
| `ItemIds.StringTestIsPathTest` | `src/local-provider/LocalProvider.cpp:490-494` | on canonical names the string test is the component-wise prefix test, for every root but "/", which admits only itself |
| `ItemIds.ValidIdsAreBelowRoot` | `src/local-provider/LocalProvider.cpp:470-495` | an id is accepted if and only if it is the canonical name of an existing item at or below the root |
| `ItemIds.RenderInjective` | `src/local-provider/LocalProvider.cpp:484-488` | canonical names name different items differently |
| `ItemIds.CanonicalOfRendered` | `src/local-provider/LocalProvider.cpp:477-488` | the canonical name of an existing item resolves to that item |
| `Uploads.OneCommitPerEtag` | `src/local-provider/LocalUploadJob.cpp:198-218` | of all updates started with the same ETag, in any interleaving with other uploads and other changes, at most one commits |
| `Uploads.SwapReplacesNamedVersion` | `src/local-provider/LocalUploadJob.cpp:198-235` | a guarded commit finds the version its ETag names in place, replaces it, and that version never comes back |
| `Uploads.PublishedContent` | `src/local-provider/LocalUploadJob.cpp:170-327` | in every run, whatever the medium does, a commit publishes exactly the announced number of bytes, from the start of the stream in order, and changes nothing else; a negative size publishes an empty file |
| `Uploads.NegativeSizePublishesNothing` | `src/local-provider/LocalUploadJob.cpp:286-291` | a run for every negative size and all bytes sent: the commit publishes an empty file |
| `Uploads.CommitIsExact` | `src/local-provider/LocalUploadJob.cpp:170-262` | for one job: what a commit publishes is the announced prefix of what was sent |
| `Uploads.BytesReadyPumps` | `src/local-provider/LocalUploadJob.cpp:286-327` | received, expected and waiting bytes add up after every readable event |
| `Uploads.CommitIsOneFile` | `src/local-provider/LocalUploadJob.cpp:185-242` | a commit puts one file, replaces no folder, nothing at all for a create that may not overwrite, and the named version for a guarded update |
| `Uploads.RefusalLeavesTree` | `src/local-provider/LocalUploadJob.cpp:172-218` | a `finish` that comes too early or is refused by the repeated checks leaves the tree unchanged |
| `Uploads.FileIsLostIff` | `src/local-provider/LocalUploadJob.cpp:170-242` | the old file is gone without a new one if and only if the bytes arrived, the repeated checks passed, the flush succeeded, and the link failed |
| `Uploads.FailingLinkLosesFile` | `src/local-provider/LocalUploadJob.cpp:231-242` | a run in which that happens, for every file |
| `Uploads.FailureLosesAtMostTheFile` | `src/local-provider/LocalUploadJob.cpp:220-242` | a failing check or flush changes nothing; a failing link may lose the old file, and nothing else |
| `Uploads.FinishReturnsIff` | `src/provider/internal/UploadJobImpl.cpp:117-138` | `finish` fails to return if and only if its drain fails, because there are more bytes than expected or the medium does not take them: the error is then reported under the lock that `finish` was called with; and exactly when it is too early |
| `Uploads.FinishCommitsIff` | `src/local-provider/LocalUploadJob.cpp:170-242` | when `finish` commits and when it refuses: if and only if the bytes arrived, the item may be replaced as was agreed at the start, a file can be linked there, and nothing fails; ExistsAlready and EtagMismatch exactly where that agreement is broken |
| `Uploads.FinishEndsJob` | `src/local-provider/LocalUploadJob.cpp:174-183` | the job is over unless `finish` was too early; all that was waiting is taken; and the version of a committed file is the time of the last write that reached it |
| `Uploads.EndIsFinal` | `src/local-provider/LocalUploadJob.cpp:161-183` | an upload that was cancelled, or whose `finish` was not too early, is never finished again, in any later run |
| `Uploads.CancelStops` | `src/local-provider/LocalUploadJob.cpp:161-168` | cancelling drops what was not read of an upload in progress and touches nothing else |
| `Uploads.CreateStartsIff` | `src/local-provider/LocalUploadJob.cpp:44-69` | a new file is accepted if and only if it has a folder and does not overwrite unasked; each refusal; and the job is what was asked for |
| `Uploads.UpdateStartsIff` | `src/local-provider/LocalUploadJob.cpp:71-108` | an update is accepted if and only if its item is a file of the named version; each refusal; and the job is what was asked for |
| `Uploads.SurplusOrFaultBlocks` | `src/local-provider/LocalUploadJob.cpp:286-327` | runs in which `finish` does not return: one byte too many, or one byte that the medium does not take |
| `Uploads.CommitIsChange` | `src/local-provider/LocalUploadJob.cpp:233-242` | a commit is one more change strictly below the root |
| `Uploads.FailureIsChange` | `src/local-provider/LocalUploadJob.cpp:233-242` | so is a failed one |
| `Uploads.ReportsAtMostOnce` | `src/local-provider/LocalUploadJob.cpp:286-327` | in every run an upload reports an error at most once, and one in progress has not: what the job protocol demands of it |
| `Uploads.RunKeepsInv` | `src/local-provider/LocalUploadJob.cpp:44-348` | unique versions, final swaps and adding-up bytes hold after any run |
| `EndToEnd.PublishesWhatWasWritten` | `src/local-provider/LocalUploadJob.cpp:170-262` | from the client's owner to the disk: whatever happens at either end, a commit publishes the announced number of bytes from the start of the owner's successful writes, all of them if that is their number |
| `EndToEnd.LostBytesAreNoticedIff` | `src/qt/internal/UploaderImpl.cpp:258-263` | where the announced size is what the owner wrote, the provider refuses `finish` as too early if and only if `close` left bytes behind, and then changes nothing |
| `Uploads.ToStringInjective` | `src/local-provider/LocalUploadJob.cpp:99-103` | ETags of different modification times differ |
| `Uploads.LocalUploadJob.StartCreateFile` | `src/local-provider/LocalUploadJob.cpp:44-69` | the constructor's checks for a new file, in order |
| `Uploads.LocalUploadJob.StartUpdateFile` | `src/local-provider/LocalUploadJob.cpp:71-108` | the constructor's checks for an update, in order |
| `Uploads.LocalUploadJob.OnBytesReady` | `src/local-provider/LocalUploadJob.cpp:286-327` | takes what is in the socket; too many bytes, or a failing or short write, abort the upload and report |
| `Uploads.LocalUploadJob.CheckAgain` | `src/local-provider/LocalUploadJob.cpp:187-218` | the repeated checks, in order |
| `Uploads.LocalUploadJob.FinishUpload` | `src/local-provider/LocalUploadJob.cpp:170-284` | drains, checks again, flushes, unlinks and links, with every outcome |
| `Uploads.LocalUploadJob.Cancel` | `src/local-provider/LocalUploadJob.cpp:161-168` | aborts an upload in progress, and no other |
| `Downloads.CompletesWhenQuiet` | `src/local-provider/LocalDownloadJob.cpp:121-179` | a job left alone has completed exactly if nothing is queued or unconfirmed, and then the whole file went out in order |
| `Downloads.StartsIff` | `src/local-provider/LocalDownloadJob.cpp:33-76` | a download starts if and only if its item is a file of the named version, and then sends that file |
| `Downloads.StoppedSendsNoMore` | `src/local-provider/LocalDownloadJob.cpp:96-119` | a job that was cancelled or refused its `finish` delivers and reports nothing more, in any later run |
| `Downloads.DownloadIsBounded` | `src/local-provider/LocalDownloadJob.cpp:121-137` | and it takes at most one step per byte, and one |
| `Downloads.ReportsAtMostOnce` | `src/local-provider/LocalDownloadJob.cpp:96-179` | in every run, with reads and writes that fail and whether or not it is stopped, a job reports at most once: a failure exactly if a chunk failed, completion only after the whole file; what was delivered is always the beginning of the file |
| `Downloads.FaultStops` | `src/local-provider/LocalDownloadJob.cpp:143-178` | a failing chunk closes the job, with one report |
| `Downloads.FinishIsAlwaysTooEarly` | `src/local-provider/LocalDownloadJob.cpp:104-119` | in every run a client's `finish` that reaches the job is refused: the branch for a job without bytes left cannot be reached |
| `Downloads.ReadsOnlyOpenFiles` | `src/local-provider/LocalDownloadJob.cpp:128-142` | in every run a chunk is read only while the file is open |
| `Downloads.ConfirmPumps` | `src/local-provider/LocalDownloadJob.cpp:121-170` | each confirmation keeps bytes under way while some are left |
| `Downloads.RunKeepsInv` | `src/local-provider/LocalDownloadJob.cpp:96-179` | after any run a job is at work or was stopped, and its failure reports are the chunks that failed |
| `Downloads.LocalDownloadJob.StartDownload` | `src/local-provider/LocalDownloadJob.cpp:33-92` | the constructor's checks, in order, and what will be sent |
| `Downloads.LocalDownloadJob.DoReadAndWriteChunk` | `src/local-provider/LocalDownloadJob.cpp:128-179` | the next chunk goes to the socket, or the job completes, or the read or write fails and the job closes |
| `Downloads.LocalDownloadJob.DoFinish` | `src/local-provider/LocalDownloadJob.cpp:104-119` | an unfinished download is cancelled and refused |
| `Transfers.StatusIsMonotone` | `src/qt/internal/DownloaderImpl.cpp:49-264` | over all orders of events finished stays finished, {cancelled, error} is never left, error stays error, loading never returns |
| `Transfers.ClosedIsAnswered` | `src/qt/internal/DownloaderImpl.cpp:189-264` | in every run a closed transfer without an answer outstanding is finished, cancelled or failed |
| `Transfers.EventsDecide` | `src/qt/internal/DownloaderImpl.cpp:49-264` | what each event does to a transfer in any run: from ready, the answer to a close leads to finished if and only if it is good, and otherwise to failed |
| `Transfers.UploadEventsDecide` | `src/qt/internal/UploaderImpl.cpp:58-315` | the same for an uploader: the runtime, the descriptor and the metadata must all be good, and writes mean nothing |
| `Transfers.FinishesOnlyAfterClose` | `src/qt/internal/DownloaderImpl.cpp:189-264` | finished is reached only from ready, after `close`, by its reply |
| `Transfers.CancelledBecomesErrorIff` | `src/qt/internal/DownloaderImpl.cpp:100-108` | cancelled becomes error exactly when the opening call fails late |
| `Transfers.LateErrorAfterCancel` | `src/qt/internal/DownloaderImpl.cpp:100-108` | a run in which it does |
| `Transfers.WriteOrderIsKept` | `src/qt/internal/UploaderImpl.cpp:337-439` | in every run the bytes handed to the socket followed by the buffer are the bytes of the successful writes, in order |
| `Transfers.WriteSucceedsIff` | `src/qt/internal/UploaderImpl.cpp:366-396` | in every run a write succeeds if and only if the uploader is loading, or ready, not closed, and the socket takes it |
| `Transfers.ProviderIsToldIff` | `src/qt/internal/UploaderImpl.cpp:180-223` | in every run a cancellation is sent to the provider if and only if the uploader was ready |
| `Transfers.CancelledSendsNoMore` | `src/qt/internal/UploaderImpl.cpp:180-263` | once an upload is cancelled or closed no more bytes are handed over |
| `Transfers.CloseSendsAllIff` | `src/qt/internal/UploaderImpl.cpp:258-263` | `close` sends its request with every accepted byte in the socket if and only if the buffer was empty or the socket took it |
| `Transfers.CloseLosesBytes` | `src/qt/internal/UploaderImpl.cpp:258-263` | a run in which accepted bytes are not sent, for any bytes |
| `Transfers.UploadRefinesStatus` | `src/qt/internal/UploaderImpl.cpp:58-315` | an uploader's status runs through the plain status machine; writes do not matter to it |
| `Transfers.RunMovesForward` | `src/qt/internal/DownloaderImpl.cpp:49-264` | the status only moves forward, from any state |
| `Transfers.RunKeepsInv` | `src/qt/internal/DownloaderImpl.cpp:49-264` | loading lasts until the first reply, finishing calls belong to closed transfers |
| `Transfers.DownloaderImpl.DoClose` | `src/qt/internal/DownloaderImpl.cpp:189-264` | sends the finishing call from ready, fails in the wrong state, ignores repeats |
| `Transfers.DownloaderImpl.DoCancel` | `src/qt/internal/DownloaderImpl.cpp:160-187` | cancels unless in a final state |
| `Transfers.UploaderImpl.ProcessReply` | `src/qt/internal/UploaderImpl.cpp:58-108` | a late reply is ignored, a good one connects and flushes |
| `Transfers.UploaderImpl.WriteData` | `src/qt/internal/UploaderImpl.cpp:366-396` | buffers while loading, flushes and writes while ready, refuses otherwise |
| `Transfers.UploaderImpl.FlushBuffer` | `src/qt/internal/UploaderImpl.cpp:425-439` | hands over the whole buffer or nothing |
| `Transfers.UploaderImpl.DoClose` | `src/qt/internal/UploaderImpl.cpp:225-315` | flushes, disconnects and sends the finishing call; the failure of the flush is not looked at |
| `Transfers.UploaderImpl.WaitForBytesWritten` | `src/qt/internal/UploaderImpl.cpp:337-351` | processes the opening reply first if it is still to come, then flushes |
| `PagedListing.FinishedIsFullListing` | `src/qt/internal/MultiItemListJobImpl.cpp:50-99` | a finished job followed the folder's page tokens to the end and handed over exactly that listing's items, in order |
| `PagedListing.FinishesIff` | `src/qt/internal/MultiItemListJobImpl.cpp:50-99` | an undisturbed listing with nothing outstanding has finished if and only if every item is acceptable |
| `PagedListing.AnswersDecide` | `src/qt/internal/MultiItemListJobImpl.cpp:50-109` | what each answer does in any run: which error ends the job, what a page of good items hands over, and what is asked next |
| `PagedListing.ListingIsBounded` | `src/qt/internal/MultiItemListJobImpl.cpp:84-99` | a folder of n pages takes at most n replies, which are a prefix of its listing |
| `PagedListing.RequestsAreInOrder` | `src/qt/internal/MultiItemListJobImpl.cpp:84-111` | at most one page request is outstanding, exactly while loading, so the assertion in the error closure never fails; each request carries the token of the page before |
| `PagedListing.EndIsAnnouncedOnce` | `src/qt/internal/MultiItemListJobImpl.cpp:50-109` | a terminal status is announced once, as the last signal |
| `PagedListing.EmitsAllPages` | `src/qt/internal/MultiItemListJobImpl.cpp:65-99` | whatever the pages, the batches add up to the items of all pages received, or of those before the failure |
| `PagedListing.RunKeepsInv` | `src/qt/internal/MultiItemListJobImpl.cpp:50-111` | tokens, batches and status agree with the pages received, after any run |
| `PagedListing.MultiItemListJob.HandleReply` | `src/qt/internal/MultiItemListJobImpl.cpp:50-99` | the loop over a page stops at the first bad item; a good page is handed over, and ends the job or asks for the next |
| `PagedListing.MultiItemListJob.HandleError` | `src/qt/internal/MultiItemListJobImpl.cpp:101-109` | the failure is announced |
| `PagedListing.FirstBad` | `src/qt/internal/MultiItemListJobImpl.cpp:67-83` | the first item of a page that the checks reject |
| `Marshal.ListRoundTrip` | `src/provider/internal/dbusmarshal.cpp:87-96` | decoding the encoding of any list of items whose kinds exist gives the same items and leaves any suffix untouched; with a kind that does not exist it gives none |
| `Marshal.ListArrives` | `src/provider/internal/dbusmarshal.cpp:52-96` | what the client has after the round trip, field by field, kinds and properties included |
| `Marshal.ItemOnWire` | `src/provider/internal/dbusmarshal.cpp:52-79` | the order of the elements of an item on the wire |
| `Marshal.ItemRoundTrip` | `src/provider/internal/dbusmarshal.cpp:52-79` | the same for one item, and where reading stops at an unknown kind |
| `Marshal.PropertiesRoundTrip` | `src/internal/dbusmarshal.cpp:70-81` | the map loop reads back all properties and stops at their end |
| `Marshal.StringsRoundTrip` | `src/internal/dbusmarshal.cpp:59-59` | the same for the parent ids |
| `Marshal.DescribedHasProperties` | `src/internal/dbusmarshal.cpp:70-81` | the client's map has exactly the provider's keys and values |
| `Marshal.Writer.PutItem` | `src/provider/internal/dbusmarshal.cpp:52-79` | appends the item's elements to the stream |
| `Marshal.Writer.PutStrings` | `src/provider/internal/dbusmarshal.cpp:56-63` | the loop appends the parent ids |
| `Marshal.Writer.PutProperties` | `src/provider/internal/dbusmarshal.cpp:67-76` | the loop appends one map entry per property |
| `Marshal.Writer.PutList` | `src/provider/internal/dbusmarshal.cpp:87-96` | the loop appends the items between the ends of an array |
| `Marshal.Reader.GetItem` | `src/internal/dbusmarshal.cpp:55-84` | the cursor reads what the decoding function says, and stops early at an unknown kind |
| `Marshal.Reader.GetList` | `src/internal/dbusmarshal.cpp:97-109` | the loop reads all items and consumes exactly the array, or stops at the first unknown kind |
| `Marshal.SendAndReceive` | `src/internal/dbusmarshal.cpp:97-109` | writer and reader together return the items sent, if their kinds exist |
| `Activity.IdleMeansNobodyHolds` | `src/internal/InactivityTimer.cpp:41-59` | in every run the count is that of the notifiers that hold the timer plus the overwritten ones, so the timer never runs while one holds |
| `Activity.TimerFollows` | `src/internal/InactivityTimer.cpp:41-59` | in every run the timer starts exactly when the last holder goes and none was lost, and stops when a notifier is created or when it has fired |
| `Activity.BecomesIdleIff` | `include/unity/storage/internal/ActivityNotifier.h:53-57` | when the last holder goes the timer starts if and only if no holding notifier was ever overwritten |
| `Activity.TwoActivitiesNeverIdle` | `include/unity/storage/internal/ActivityNotifier.h:53-57` | a run in which one is: all notifiers are gone and the timer does not run |
| `Activity.SetActivityTwiceLoses` | `src/provider/internal/UploadJobImpl.cpp:112-115` | giving a job its activity loses a count exactly if the job already had one |
| `Activity.StepKeepsInv` | `src/internal/InactivityTimer.cpp:41-59` | each operation keeps the count, and the timer's assertion that the count is positive holds |
| `Activity.LostIff` | `include/unity/storage/internal/ActivityNotifier.h:53-57` | counts get lost in a run if and only if it overwrites a holding notifier |
| `Activity.InactivityTimer.RequestStarted` | `src/internal/InactivityTimer.cpp:41-49` | counts, and stops the timer when it was idle |
| `Activity.InactivityTimer.RequestFinished` | `src/internal/InactivityTimer.cpp:51-59` | counts down, and starts the timer at zero |
| `Activity.ActivityNotifier.Start` | `include/unity/storage/internal/ActivityNotifier.h:40-46` | a new notifier holds and is counted |
| `Activity.ActivityNotifier.Assign` | `include/unity/storage/internal/ActivityNotifier.h:53-57` | moves the hold without telling any timer |
| `Activity.ActivityNotifier.Destroy` | `include/unity/storage/internal/ActivityNotifier.h:62-68` | a holding notifier is counted off |
| `Activity.SetActivity` | `src/provider/internal/DownloadJobImpl.cpp:109-112` | the job holds the timer, which counted one more |

## Left out

- PeerCache.HoldsARecencySuffix: gives no upper bound on the size, because promotion does not check it and there is none.
- PeerCache.DBusPeerCache.ReceivedCredentials: the credentials arrive parsed; how uid, pid and label are read from the reply is not modelled.
- PeerCache.DBusPeerCache.GetCredentials: a promoted peer is given the credentials that were cached, which the source reads after moving and erasing them.
- Uploads.LocalUploadJob.FinishUpload: the branch without an anonymous file, which renames, is not modelled.
- EndToEnd.PublishesWhatWasWritten: the socket is reliable and in order; the job's `sent` is what it has delivered so far.
- Uploads.OneCommitPerEtag: assumes unique modification times, and steps that are atomic: nothing happens between the check and the link in one `finish`.
- LocalProvider.LocalProvider.Copy: nothing else changes the tree while one request runs; the temporary name is not in use; no read or write fails but for want of room; a copied item that is neither file nor folder fails at once, where opening a FIFO would wait for a writer.
- Service.Service.Serve: requests are served one after the other.
- LocalProvider.LocalProvider.Move: a target that is created between the check and the rename is not modelled.
- Downloads.CompletesWhenQuiet: the file does not change while it is sent.
- Marshal.Reader.GetList: reading stops at the first unknown kind; the source appends the half-read item and goes on inside it, and what the bus library makes of the rest of such a stream is not modelled, nor are streams of another type, which it rejects before decoding. Strings are Unicode already.
- Marshal.ListRoundTrip: only what it says of lists whose kinds all exist is about the source's list loop, for the same reason.
- Marshal.SendAndReceive: likewise.
- Transfers.WriteOrderIsKept: the socket takes a write wholly or not at all.
- Requests.ReplyTells: the D-Bus error name and arguments of each exception are not modelled, only which exception it is.
- JobProtocol.AtMostOneEnd: a job reports at most once, and an id is not reused while its job is in the table; both are demanded of provider authors, and the local provider's jobs do report once at most (`Uploads.ReportsAtMostOnce`, `Downloads.ReportsAtMostOnce`).
- Names made only of slashes or starting with "//", which the source leaves to boost's path rules: `Sanitize` takes any name with a slash as invalid.
- Symlinks, hard links, permissions, the free-space figures shown to clients, MIME types, dates and the mapping of errno.
- `FixedAccountData`, the registry, the QML plugin, the version 1 client, and the job classes for single items, roots and accounts.
- Overflow of sizes and counters, which are unbounded here.
- The metadata that `make_item` computes, `lookup` and `metadata` of the local provider, and key filters.
- Threads: each event, and each request of the local provider, is atomic; a lock appears only where `finish` is called under one.
