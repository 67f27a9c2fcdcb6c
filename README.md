# SpawnDev.WebFS, modelled in Dafny

SpawnDev.WebFS exposes a browser's sandboxed storage as a Windows drive. A
Windows host runs a Dokan file-system driver and a WebSocket server. Browser
pages connect to that server as peers, and the host mounts each trusted
peer's storage as a folder on the drive. File-system calls are routed by the first path
segment (the peer's host name) to that peer's oldest connected connection.
On the peer they run against the browser's storage.

This project models the logic under the driver and transport plumbing. Each
source file becomes one module:

- `routing.dfy` (`Routing`) models the host's router `WebFSServer`. It covers
  the trust records per host, the Enabled / Undecided / Disabled
  classification, path resolution, the synthesised drive root and host
  folders, and which operations are forwarded and which get a fixed answer.
  The remote call is an oracle parameter.
- `storage.dfy` (`BrowserStorage`) is the browser storage: a map from path to
  `File(bytes)` or `Directory`.
- `provider.dfy` (`PeerProvider`) models the peer's file system
  `WebFSProvider`. It covers the open-file context table, the CreateFile
  decision table, the delete-on-close protocol, reads, writes, resizing,
  enumeration and moves.
- `fileinfo.dfy` (`FileInfo`) models `AsyncDokanFileInfo`.
- `syncadapter.dfy` (`SyncAdapter`) models the synchronous Dokan callbacks
  over the asynchronous operations. Among them is `ReadFile`, which fills
  the caller's buffer in place.
- `endpoint.dfy` (`Endpoints`) and `client.dfy` (`Client`) model the peer's
  reconnecting client. It builds an endpoint list, chooses the next endpoint
  and applies a 1 s / 5 s backoff. The clock and the outcome of each
  connect attempt are inputs.
- `elementlists.dfy` (`ElementLists`) models the lazy MessagePack and JSON
  element lists: slicing, `Shift` and `GetItem`.
- `sockets.dfy` (`Sockets`) models the WebSocket state and the frames a
  socket has sent.
- `framing.dfy` (`Framing`) models `WebSocketConnection`: origin validation,
  the `Listen` guards, receive-side reassembly and dispatch, the send guards
  and `Disconnect`.
- `writablestream.dfy` (`WritableStreams`) models `WritableWebSocketStream`.
  It sends non-final data frames, then one empty final frame, following the
  fragmentation rules of section 5.4 of RFC 6455.
- `socketserver.dfy` (`SocketServer`) models the host's `WebSocketServer`:
  listen addresses, the connection table and its events.
- `mount.dfy` (`Mount`) models the drive-letter choice of `WebFSHost`. The
  used and disconnected letters are inputs.
- `schema.dfy` (`Schema`) models the SQLite schema derivation of
  `SQLiteConnectionExt`. It covers table names, type mapping, primary keys
  and the CREATE and ALTER statements. Properties are given as descriptors
  instead of by reflection.
- `wrappers.dfy`, `text.dfy`, `dokantypes.dfy` and `origins.dfy` hold the
  shared values: `Option` and `Result`, decimal text, splitting and joining,
  the Dokan result types and status codes, and origin parsing.

The following are parameters of the model:

- socket receives;
- the serializer's output;
- remote calls;
- clocks and fresh identifiers;
- the operating system's drive queries;
- SQLite's answers.

## Model

| member | source | states |
|---|---|---|
| Endpoints.Url | SpawnDev.WebFS/WebFSEndpoint.cs:23 | the Url starts with "ws://127.0.0.1:", continues with the port in decimal and "/", and ends with the path |
| Endpoints.UrlIgnoresStatus | SpawnDev.WebFS/WebFSEndpoint.cs:23 | the Url does not depend on Result, LastChecked or LastVerified |
| Endpoints.UrlDeterminesAddress | SpawnDev.WebFS/WebFSEndpoint.cs:15-23 | two endpoints with the same Url have the same port and the same path |
| Endpoints.DefaultEndpointUrl | SpawnDev.WebFS/WebFSEndpoint.cs:19-31 | a fresh endpoint's Url ends in "/" after the port, and both its timestamps are DateTime.MinValue |
| Client.BuildEndpoints | SpawnDev.WebFS/WebFSClient.cs:53-63 | one endpoint per port BasePort + i, i below MaxPortSpread, stopping before a port reaching 65535; the i-th is checked i seconds after MinValue; ports and LastChecked strictly increase |
| Client.DefaultEndpointRange | SpawnDev.WebFS/WebFSClient.cs:18-63 | the default client has four endpoints, ports 6565 to 6568 |
| Client.LatestIndex | SpawnDev.WebFS/WebFSClient.cs:68 | the chosen endpoint has the latest LastChecked, and it is the first one that does |
| Client.EarliestIndex | SpawnDev.WebFS/WebFSClient.cs:73 | the chosen endpoint has the earliest LastChecked, and it is the first one that does |
| Client.ConnectIndex | SpawnDev.WebFS/WebFSClient.cs:66-75 | the most recently checked endpoint when it is Verified, otherwise the first endpoint whose LastChecked is the earliest, which the stable `OrderBy(...).First()` picks on ties |
| Client.AttemptMarks | SpawnDev.WebFS/WebFSClient.cs:146-196 | an attempt marks the endpoint Invalid exactly when the socket did not open and Verified exactly when it did, even when the peer never became ready; port and path are kept |
| Client.TriedCountsFailures | SpawnDev.WebFS/WebFSClient.cs:194-200 | within a round, the tried counter equals the number of failures so far |
| Client.RoundWraps | SpawnDev.WebFS/WebFSClient.cs:197-200 | once every endpoint has failed, the counter is back at 0 |
| Client.BackoffRound | SpawnDev.WebFS/WebFSClient.cs:194-208 | across failures within a round, each pause is 1000 ms except the one that completes the round, which is 5000 ms |
| Client.FailedEndpointNotPickedNext | SpawnDev.WebFS/WebFSClient.cs:66-75 | after a failed attempt, a different endpoint is chosen next when there is more than one |
| Client.VerifiedEndpointPickedNext | SpawnDev.WebFS/WebFSClient.cs:66-75 | after an attempt whose socket opened, the same endpoint is chosen next |
| Client.WebFSClient.constructor | SpawnDev.WebFS/WebFSClient.cs:49-65 | the endpoints are those of BuildEndpoints, Endpoint is the first, and the client is disabled and not connected |
| Client.WebFSClient.Connect | SpawnDev.WebFS/WebFSClient.cs:123-136 | no change when already enabled; otherwise enables and starts a loop with a fresh token and a tried counter of 0 |
| Client.WebFSClient.Disconnect | SpawnDev.WebFS/WebFSClient.cs:101-107 | no change when not enabled; otherwise disables and cancels the loop token |
| Client.WebFSClient.SetEnabled | SpawnDev.WebFS/WebFSClient.cs:81-96 | nothing changes when the value is the current one; otherwise true starts a new loop with the tried counter at 0 (Connect) and false cancels the loop (Disconnect); the endpoints, the current endpoint and the connection flag are kept either way |
| Client.WebFSClient.Step | SpawnDev.WebFS/WebFSClient.cs:142-214 | one loop pass: stop at once when cancelled; otherwise mark the chosen endpoint per Attempted, make it current, advance the tried counter only on failure, raise OnConnected only for a ready peer, and pause per RetryDelay unless cancelled during the attempt |
| FileInfo.AsyncDokanFileInfo.constructor | SpawnDev.WebFS/AsyncDokanFileInfo.cs:12-27 | a new record holds the given OpId and the three flags |
| FileInfo.AsyncDokanFileInfo.Snapshot | SpawnDev.WebFS/AsyncDokanFileInfo.cs:24-27 | the value the asynchronous operations see carries this record's OpId and flags |
| FileInfo.AsyncDokanFileInfo.From | SpawnDev.WebFS/AsyncDokanFileInfo.cs:7-23 | an already attached record is returned unchanged; otherwise a new one with a fresh OpId and the kernel's three flags is attached to info.Context; the kernel's flags are never changed |
| SyncAdapter.SyncDokanOperations.constructor | SpawnDev.WebFS/DokanAsync/AsyncDokanOperations.cs:9-13 | the adapter keeps the asynchronous operations it wraps |
| SyncAdapter.SyncDokanOperations.Attach | SpawnDev.WebFS/AsyncDokanFileInfo.cs:7-23 | the step each callback starts with: the attached record when there is one (unchanged), else a new one with the fresh OpId and the kernel's flags |
| SyncAdapter.SyncDokanOperations.Cleanup | SpawnDev.WebFS/DokanAsync/AsyncDokanOperations.cs:14-17 | the operation receives the handle's attached record |
| SyncAdapter.SyncDokanOperations.CloseFile | SpawnDev.WebFS/DokanAsync/AsyncDokanOperations.cs:19-22 | the operation receives the handle's attached record |
| SyncAdapter.SyncDokanOperations.CreateFile | SpawnDev.WebFS/DokanAsync/AsyncDokanOperations.cs:24-29 | the status is the result's, unchanged, and the result's IsDirectory is written back to the kernel's info; the other flags are untouched |
| SyncAdapter.SyncDokanOperations.DeleteDirectory | SpawnDev.WebFS/DokanAsync/AsyncDokanOperations.cs:31-35 | the status is the asynchronous result's, unchanged |
| SyncAdapter.SyncDokanOperations.DeleteFile | SpawnDev.WebFS/DokanAsync/AsyncDokanOperations.cs:37-41 | the status is the asynchronous result's, unchanged |
| SyncAdapter.SyncDokanOperations.FindFiles | SpawnDev.WebFS/DokanAsync/AsyncDokanOperations.cs:43-48 | status and file list are copied from the result |
| SyncAdapter.SyncDokanOperations.FindFilesWithPattern | SpawnDev.WebFS/DokanAsync/AsyncDokanOperations.cs:50-55 | status and file list are copied from the result |
| SyncAdapter.SyncDokanOperations.FindStreams | SpawnDev.WebFS/DokanAsync/AsyncDokanOperations.cs:57-62 | status and stream list are copied from the result |
| SyncAdapter.SyncDokanOperations.FlushFileBuffers | SpawnDev.WebFS/DokanAsync/AsyncDokanOperations.cs:64-68 | the status is the asynchronous result's, unchanged |
| SyncAdapter.SyncDokanOperations.GetDiskFreeSpace | SpawnDev.WebFS/DokanAsync/AsyncDokanOperations.cs:70-77 | the status and each of the three sizes are copied from the result |
| SyncAdapter.SyncDokanOperations.GetFileInformation | SpawnDev.WebFS/DokanAsync/AsyncDokanOperations.cs:79-84 | status and file information are copied from the result |
| SyncAdapter.SyncDokanOperations.GetFileSecurity | SpawnDev.WebFS/DokanAsync/AsyncDokanOperations.cs:86-91 | status and security descriptor are copied from the result |
| SyncAdapter.SyncDokanOperations.GetVolumeInformation | SpawnDev.WebFS/DokanAsync/AsyncDokanOperations.cs:93-101 | the status and each of the four volume fields are copied from the result |
| SyncAdapter.SyncDokanOperations.LockFile | SpawnDev.WebFS/DokanAsync/AsyncDokanOperations.cs:103-107 | the status is the asynchronous result's, unchanged |
| SyncAdapter.SyncDokanOperations.Mounted | SpawnDev.WebFS/DokanAsync/AsyncDokanOperations.cs:109-113 | the status is the asynchronous result's, unchanged |
| SyncAdapter.SyncDokanOperations.MoveFile | SpawnDev.WebFS/DokanAsync/AsyncDokanOperations.cs:115-119 | the status is the asynchronous result's, unchanged |
| SyncAdapter.SyncDokanOperations.ReadFile | SpawnDev.WebFS/DokanAsync/AsyncDokanOperations.cs:121-130 | asks for buffer.Length bytes; bytesRead is the data's length, 0 for no data; the data fills buffer[0..bytesRead) and the rest of the buffer is unchanged; data longer than the buffer fails the copy and leaves the buffer unchanged |
| SyncAdapter.SyncDokanOperations.SetAllocationSize | SpawnDev.WebFS/DokanAsync/AsyncDokanOperations.cs:132-136 | the status is the asynchronous result's, unchanged |
| SyncAdapter.SyncDokanOperations.SetEndOfFile | SpawnDev.WebFS/DokanAsync/AsyncDokanOperations.cs:138-142 | the status is the asynchronous result's, unchanged |
| SyncAdapter.SyncDokanOperations.SetFileAttributes | SpawnDev.WebFS/DokanAsync/AsyncDokanOperations.cs:144-148 | the status is the asynchronous result's, unchanged |
| SyncAdapter.SyncDokanOperations.SetFileSecurity | SpawnDev.WebFS/DokanAsync/AsyncDokanOperations.cs:150-154 | the status is the asynchronous result's, unchanged |
| SyncAdapter.SyncDokanOperations.SetFileTime | SpawnDev.WebFS/DokanAsync/AsyncDokanOperations.cs:156-160 | the status is the asynchronous result's, unchanged |
| SyncAdapter.SyncDokanOperations.UnlockFile | SpawnDev.WebFS/DokanAsync/AsyncDokanOperations.cs:162-166 | the status is the asynchronous result's, unchanged |
| SyncAdapter.SyncDokanOperations.Unmounted | SpawnDev.WebFS/DokanAsync/AsyncDokanOperations.cs:168-172 | the status is the asynchronous result's, unchanged |
| SyncAdapter.SyncDokanOperations.WriteFile | SpawnDev.WebFS/DokanAsync/AsyncDokanOperations.cs:174-179 | status and bytesWritten are copied from the result |
| SyncAdapter.SyncDokanOperations.SameHandleTwice | SpawnDev.WebFS/AsyncDokanFileInfo.cs:9-22 | two callbacks on one handle see the same OpId and the flags first seen, even when the kernel's flags change in between |
| DokanTypes.UnixMillisToTicks | SpawnDev.WebFS/WebFSProvider.cs:513-514 | a Unix millisecond time as DateTime ticks: 0 is the Unix epoch, and positive times are after it |
| DokanTypes.UnixMillisMonotone | SpawnDev.WebFS/WebFSProvider.cs:513-514 | a later Unix time gives a later tick count, and the two differ by 10 000 ticks per millisecond |
| Text.NatToString | SpawnDev.WebFS/WebFSEndpoint.cs:23 | the decimal text of a number: digits only, and no leading zero |
| Text.ParseNatToString | SpawnDev.WebFS/WebFSEndpoint.cs:23 | reading the decimal text back gives the number |
| Text.NatToStringInjective | SpawnDev.WebFS/WebFSEndpoint.cs:23 | different numbers have different decimal texts |
| Text.Split | SpawnDev.WebFS.Host/WebFSServer.cs:249 | splitting with empty entries removed gives non-empty parts free of the separator |
| Text.SplitJoin | SpawnDev.WebFS.Host/WebFSServer.cs:249-260 | splitting the join of non-empty, separator-free parts gives the parts back |
| Text.ToLowerAscii | SpawnDev.WebFS.Host/WebFSHost.cs:52-56 | an upper-case ASCII letter becomes its own lower-case letter (as far from 'a' as it is from 'A'), a lower-case letter stays in 'a' to 'z', and any other character stays as it is |
| Origins.Authority | SpawnDev.WebFS.Host/WebFSServer.cs:86-108 | the authority part of an origin is its scheme, then "://", then its host, then ":" and the port in decimal when the port is not the default, and nothing more when it is |
| Origins.RequestOrigin | SpawnDev.WebFS/WebSocketConnection.cs:38-50 | a missing or empty origin header gives no origin; any other header gives what the URI parser makes of it |
| Routing.ConnectionsOf | SpawnDev.WebFS.Host/WebFSServer.cs:27-50 | the filtered list keeps exactly the connections whose host is in the given set, and is no longer than the input |
| Routing.ConnectionsOfKeepsOrder | SpawnDev.WebFS.Host/WebFSServer.cs:27-50 | filtering a concatenation is the concatenation of the filtered parts, and a single connection is kept exactly when its host is in the set, so the result is the input with the others dropped, in order |
| Routing.ClassificationOfRecords | SpawnDev.WebFS.Host/WebFSServer.cs:27-47 | a record is undecided iff its decision is null, disabled iff it is not true, enabled iff it is true; enabled and disabled are complementary and undecided records count as disabled |
| Routing.ConnectionClassification | SpawnDev.WebFS.Host/WebFSServer.cs:23-52 | a connection of a known host is enabled exactly when it is not disabled, and every undecided connection is also disabled |
| Routing.CountsAreHostCounts | SpawnDev.WebFS.Host/WebFSServer.cs:16-20 | the undecided count never exceeds the disabled count, and the enabled count never exceeds the number of connections |
| Routing.Matching | SpawnDev.WebFS.Host/WebFSServer.cs:268 | keeps exactly the connected connections whose host equals the name ignoring case |
| Routing.MatchingKeepsOrder | SpawnDev.WebFS.Host/WebFSServer.cs:268 | matching a concatenation is the concatenation of the matched parts, and a single connection is kept exactly when it is connected and its host equals the name ignoring case, so the input order is kept |
| Routing.EarliestIndex | SpawnDev.WebFS.Host/WebFSServer.cs:268 | picks the element a stable OrderBy(WhenConnected) puts first: no element connected earlier, and every element before it connected strictly later |
| Routing.PrimaryIsOldestEnabled | SpawnDev.WebFS.Host/WebFSServer.cs:266-269 | a primary connection exists iff some connected connection of an enabled host matches the name ignoring case, and it is the one with the smallest connection time among them |
| Routing.OnlyEnabledHostsAreRouted | SpawnDev.WebFS.Host/WebFSServer.cs:266-269 | the host of a primary connection has a record whose decision is true |
| Routing.PrimaryConnection | SpawnDev.WebFS.Host/WebFSServer.cs:266-269 | GetEnabledHostPrimaryConnection; stated by PrimaryIsOldestEnabled and OnlyEnabledHostsAreRouted: present iff a connected connection of an enabled host matches ignoring case, and then the earliest connected of them, first on ties |
| Routing.ResolveSegments | SpawnDev.WebFS.Host/WebFSServer.cs:247-265 | no segment gives no route; otherwise the host is the first segment, the connection is that host's primary, the forwarded path is empty iff there was one segment, and splitting it on '/' gives back the remaining segments |
| Routing.Resolve | SpawnDev.WebFS.Host/WebFSServer.cs:247-265 | GetProvider; stated by ResolveSegments: the host is the first segment, the connection its primary one, and the forwarded path is empty iff there was one segment and otherwise splits on '/' into the remaining segments |
| Routing.Distinct | SpawnDev.WebFS.Host/WebFSServer.cs:275 | the same elements as the input, each once |
| Routing.HostEntries | SpawnDev.WebFS.Host/WebFSServer.cs:276-289 | one directory entry per listed host that has a primary connection, dated by that connection, none for the others, and no name twice when the hosts are distinct |
| Routing.RootListing | SpawnDev.WebFS.Host/WebFSServer.cs:270-291 | listing the drive root asks no peer and answers Success with exactly one directory entry per enabled connected host that has a primary connection, each dated by its primary connection |
| Routing.FindFilesRouting | SpawnDev.WebFS.Host/WebFSServer.cs:292-310 | below the drive root the listing is sent exactly when the host resolves, with the stripped path; the peer's answer is returned, and a throw, a null answer or no route is Error |
| Routing.FindFiles | SpawnDev.WebFS.Host/WebFSServer.cs:270-311 | stated by RootListing for the drive root and by FindFilesRouting for every other path |
| Routing.FileInformationRules | SpawnDev.WebFS.Host/WebFSServer.cs:317-364 | the drive root and each host root are answered locally as directories with the startup or connection time; deeper paths send one call with the stripped path and return the peer's record renamed to the full drive path; a throw, a null answer or no route give Error |
| Routing.GetFileInformation | SpawnDev.WebFS.Host/WebFSServer.cs:317-364 | stated by FileInformationRules: the drive root and host roots answered locally, deeper paths forwarded with the stripped path |
| Routing.FixedAnswers | SpawnDev.WebFS.Host/WebFSServer.cs:243-607 | FlushFileBuffers, FindFilesWithPattern, GetFileSecurity, SetFileSecurity and FindStreams answer NotImplemented; Mounted and Unmounted answer Success; the volume is "WebFS" with no features and 256-character names; the disk reports 512 MiB free of 1 GiB |
| Routing.ForwardIfPathRules | SpawnDev.WebFS.Host/WebFSServer.cs:365-540 | the data operations answer Error and send nothing without a route or below no host root; otherwise they send one call with the stripped path, map a throw or null to Error and return any other answer unchanged |
| Routing.ReadFileRouting | SpawnDev.WebFS.Host/WebFSServer.cs:409-430 | ReadFile sends exactly when the route is found with a non-empty path, the call carries the stripped path, offset and count, the peer's answer is returned, and a throw, a null answer or no route is Error |
| Routing.ReadFile | SpawnDev.WebFS.Host/WebFSServer.cs:409-430 | stated by ReadFileRouting and UnroutedPathsAreLocal |
| Routing.WriteFileRouting | SpawnDev.WebFS.Host/WebFSServer.cs:431-452 | WriteFile sends exactly when the route is found with a non-empty path, the call carries the stripped path, buffer and offset, the peer's answer is returned, and a throw, a null answer or no route is Error |
| Routing.WriteFile | SpawnDev.WebFS.Host/WebFSServer.cs:431-452 | stated by WriteFileRouting and UnroutedPathsAreLocal |
| Routing.UnroutedPathsAreLocal | SpawnDev.WebFS.Host/WebFSServer.cs:144-573 | a path whose host has no connected enabled connection asks no peer, in every operation, and its answer does not depend on what the peers would say |
| Routing.CreateFileLocal | SpawnDev.WebFS.Host/WebFSServer.cs:176-204 | the drive root opens with Success only in Open mode; an unrouted path is FileNotFound; a routed one maps a throw to Error, a null answer to FileNotFound and returns any other answer |
| Routing.CreateFile | SpawnDev.WebFS.Host/WebFSServer.cs:176-204 | stated by CreateFileLocal and UnroutedPathsAreLocal |
| Routing.MoveFileRouting | SpawnDev.WebFS.Host/WebFSServer.cs:542-574 | one call carrying both stripped paths is sent iff both names resolve to the same connection and the source is below a host root; the peer's answer is returned, and a throw, a null answer or no call is Error |
| Routing.MoveFile | SpawnDev.WebFS.Host/WebFSServer.cs:542-574 | stated by MoveFileRouting and UnroutedPathsAreLocal |
| Routing.ConnectKeepsDecisions | SpawnDev.WebFS.Host/WebFSServer.cs:77-111 | an unseen host gets an undecided record first and last seen now with the origin's authority as URL; a known host only has LastSeen and Url refreshed; other records and the set of enabled hosts are unchanged |
| Routing.AllowChangesOneDecision | SpawnDev.WebFS.Host/WebFSServer.cs:116-123 | only a present host's decision changes; the enabled set gains or loses exactly that host |
| Routing.ConnectRequestRule | SpawnDev.WebFS.Host/WebFSServer.cs:124-140 | a connection request is admitted exactly when the origin header is present, non-empty and parses |
| Routing.WebFSServer.constructor | SpawnDev.WebFS.Host/WebFSServer.cs:59-71 | the record table is the loaded records, keyed by host |
| Routing.WebFSServer.GetDomainAllowed | SpawnDev.WebFS.Host/WebFSServer.cs:112-115 | the record for the host when there is one, otherwise null |
| Routing.WebFSServer.SetDomainAllowed | SpawnDev.WebFS.Host/WebFSServer.cs:116-123 | the new table is the old one with the present host's decision set |
| Routing.WebFSServer.SaveNewPerm | SpawnDev.WebFS.Host/WebFSServer.cs:77-90 | the new record has the connection's host, no decision, first and last seen now, and the origin's authority as URL |
| Routing.WebFSServer.OnConnected | SpawnDev.WebFS.Host/WebFSServer.cs:96-111 | the new table is the old one with the connection's record created or refreshed, keeping the table keyed by host |
| Routing.WebFSServer.GetProvider | SpawnDev.WebFS.Host/WebFSServer.cs:247-265 | reports the route Resolve gives, and true exactly when a connection was found |
| BrowserStorage.Lookup | SpawnDev.WebFS/WebFSProvider.cs:161-169 | the root is always a directory; any other path is found only when it is stored and every ancestor is a directory |
| BrowserStorage.VisibleParent | SpawnDev.WebFS/WebFSProvider.cs:161-169 | the parent of a visible entry is a visible directory |
| BrowserStorage.ChildLookup | SpawnDev.WebFS/WebFSProvider.cs:437-465 | a stored child of a visible directory is itself visible |
| BrowserStorage.ExtensionKeepsLookups | SpawnDev.WebFS/WebFSProvider.cs:224 | a storage that keeps every entry keeps every visible entry as it was |
| BrowserStorage.WriteFile | SpawnDev.WebFS/WebFSProvider.cs:263-281 | a write succeeds iff the parent is a visible directory and the path is not a directory; the path then holds exactly the written bytes and every other path looks as before |
| BrowserStorage.WriteKeepsOthers | SpawnDev.WebFS/WebFSProvider.cs:263-281 | after a write the written path holds the new file and every other path looks as before |
| BrowserStorage.MakeDirectories | SpawnDev.WebFS/WebFSProvider.cs:224 | on success the path is a visible directory, every old entry is kept, and every new entry is a directory on the way to the path |
| BrowserStorage.MakeDirectoriesKeeps | SpawnDev.WebFS/WebFSProvider.cs:224 | creating directories replaces nothing visible |
| BrowserStorage.RemovePath | SpawnDev.WebFS/WebFSProvider.cs:107-119 | removal succeeds iff the path is not the root, is visible, and is a file, an empty directory or removed recursively; it removes exactly the path and everything below it, keeping the rest unchanged |
| BrowserStorage.RemoveKeepsOthers | SpawnDev.WebFS/WebFSProvider.cs:107-119 | a removal leaves every path not at or below the removed one as it looked |
| BrowserStorage.RemoveClearsBelow | SpawnDev.WebFS/WebFSProvider.cs:107-119 | nothing at or below a removed path stays visible |
| PeerProvider.DecideCreate | SpawnDev.WebFS/WebFSProvider.cs:217-321 | CreateNew on a missing path creates a directory or an empty file as requested and reports its kind; every other case follows the source's switch |
| PeerProvider.DecideCreateAsWritten | SpawnDev.WebFS/WebFSProvider.cs:217-284 | the switch as the source has it; DecideCreate's ensures and AsWrittenDiffersOnlyOnCreateNew make it the corrected switch everywhere else, so the rules lemmas describe it there, and CreateNewFileNotCreated and CreateNewDirectoryReportedAsFile give its two CreateNew answers |
| PeerProvider.AsWrittenDiffersOnlyOnCreateNew | SpawnDev.WebFS/WebFSProvider.cs:217-284 | the as-written and the corrected switch differ exactly on CreateNew of a missing path |
| PeerProvider.CreateNewFileNotCreated | SpawnDev.WebFS/WebFSProvider.cs:241-321 | as written, CreateNew of a missing file answers Success without writing any file |
| PeerProvider.CreateNewDirectoryReportedAsFile | SpawnDev.WebFS/WebFSProvider.cs:215-321 | as written, CreateNew of a missing directory creates it but answers with isDirectory false |
| PeerProvider.DirectoryRequestRules | SpawnDev.WebFS/WebFSProvider.cs:217-233 | directory requests: CreateNew refuses an existing path with FileExists and creates otherwise; Open refuses a file with NotADirectory and a missing path with FileNotFound and opens a directory; any other mode is Error |
| PeerProvider.FileRequestRules | SpawnDev.WebFS/WebFSProvider.cs:237-284 | file requests: CreateNew and OpenOrCreate refuse an existing path with FileExists and otherwise create an empty file; Open and Truncate of a missing path are FileNotFound; Create always and Truncate of an existing file reset the content; Append creates only a missing file |
| PeerProvider.AttributeOpenRule | SpawnDev.WebFS/WebFSProvider.cs:245-258 | an attributes-only open or an open of a directory succeeds and records the kind it found, except that a directory opened with Delete and without Synchronize is AccessDenied |
| PeerProvider.ApplyCreateOutcome | SpawnDev.WebFS/WebFSProvider.cs:221-284 | no effect keeps storage and the answer; a directory is created keeping every old entry, or an empty file is written leaving every other path as it was, with the decision's answer, exactly where storage allows; otherwise storage is unchanged and the answer is Error |
| PeerProvider.ApplyCreate | SpawnDev.WebFS/WebFSProvider.cs:221-284 | stated by ApplyCreateOutcome and FailedCreateHasNoEffect |
| PeerProvider.Committed | SpawnDev.WebFS/WebFSProvider.cs:87-98 | stated by CloseDeletesOnlyOnRequest: a staged stream's bytes land in its file, stamped with the close time, when that is still a file, and nothing else changes |
| PeerProvider.AfterClose | SpawnDev.WebFS/WebFSProvider.cs:81-129 | stated by CloseDeletesOnlyOnRequest and RefusedOpenDeletesExisting |
| PeerProvider.CloseDeletesOnlyOnRequest | SpawnDev.WebFS/WebFSProvider.cs:81-129 | closing removes the handle's path and everything below it when delete-on-close is set; otherwise it only commits the staged stream, whose bytes land in its file when that is still a file, every other path looking as before, and with nothing staged storage is unchanged |
| PeerProvider.FailedCreateHasNoEffect | SpawnDev.WebFS/WebFSProvider.cs:217-284 | under either table, an open whose answer is not Success leaves storage as it was |
| PeerProvider.RefusedOpenDeletesExisting | SpawnDev.WebFS/WebFSProvider.cs:81-150 | as written, CreateNew on an existing file with delete-on-close answers FileExists, and the close that follows removes that file |
| PeerProvider.CleanupMark | SpawnDev.WebFS/WebFSProvider.cs:190-196 | Cleanup can switch delete-on-close on but never off, and changes nothing else in the handle |
| PeerProvider.DeleteCheckRules | SpawnDev.WebFS/WebFSProvider.cs:342-422 | DeleteFile allows exactly files and DeleteDirectory exactly directories; the wrong kind is AccessDenied and a missing path FileNotFound |
| PeerProvider.ReadBytes | SpawnDev.WebFS/WebFSProvider.cs:545-555 | the bytes read number Math.Max(0, Math.Min(size - offset, maxCount)); from a valid offset they are the content from that offset; past the end nothing is read |
| PeerProvider.ReadCountBounds | SpawnDev.WebFS/WebFSProvider.cs:546 | the read length is never negative, never above a non-negative maxCount, never runs past the end, and is 0 from the end onwards |
| PeerProvider.WriteAt | SpawnDev.WebFS/WebFSProvider.cs:587-588 | the buffer lands at the offset, bytes before and after it are kept, a gap past the old end is zero-filled, and the length is the larger of the old end and the write's end |
| PeerProvider.Truncated | SpawnDev.WebFS/WebFSProvider.cs:619-648 | the content is cut or zero-extended to exactly the requested length |
| PeerProvider.ResizedContent | SpawnDev.WebFS/WebFSProvider.cs:617-649 | a positive length truncates or zero-extends to that length; any other length leaves the content as it was |
| PeerProvider.Resized | SpawnDev.WebFS/WebFSProvider.cs:611-651 | the resize succeeds iff the path is not the root, its parent is a visible directory and it is not a directory; the file then holds ResizedContent of its current bytes (none if it was missing), stamped now, and every other path is as it was |
| PeerProvider.FileInformationOf | SpawnDev.WebFS/WebFSProvider.cs:491-517 | FileNotFound exactly when the path is not visible, otherwise Success with the full name, the current access time, and the Directory attribute exactly for directories |
| PeerProvider.FileInformationOfFile | SpawnDev.WebFS/WebFSProvider.cs:503-515 | a file's record is Normal with the file's size, equal creation and write times, unknown exactly when lastModified is 0 |
| PeerProvider.MoveRules | SpawnDev.WebFS/WebFSProvider.cs:675-720 | a missing source or a non-empty directory is NotImplemented and changes nothing; on Success the source is gone and the destination holds the file's bytes or is a directory, not necessarily an empty one |
| PeerProvider.MoveOntoItself | SpawnDev.WebFS/WebFSProvider.cs:680-692 | moving a file onto its own name answers Success and leaves no file under that name |
| PeerProvider.Moved | SpawnDev.WebFS/WebFSProvider.cs:675-720 | stated by MoveRules and MoveOntoItself |
| PeerProvider.UnsupportedOperations | SpawnDev.WebFS/WebFSProvider.cs:477-766 | FindFilesWithPattern, FlushFileBuffers, LockFile, UnlockFile, SetFileAttributes and SetFileTime answer NotImplemented; the security, stream and drive members throw NotImplementedException |
| PeerProvider.WebFSProvider.constructor | SpawnDev.WebFS/WebFSProvider.cs:45-52 | the provider starts with the given storage and no open handles |
| PeerProvider.WebFSProvider.CreateContext | SpawnDev.WebFS/WebFSProvider.cs:57-64 | the new handle holds the CreateFile arguments and no stream, and replaces any handle under the same OpId |
| PeerProvider.WebFSProvider.GetContext | SpawnDev.WebFS/WebFSProvider.cs:65-80 | the handle under the info's OpId, if there is one |
| PeerProvider.WebFSProvider.CloseContext | SpawnDev.WebFS/WebFSProvider.cs:81-129 | a known OpId is forgotten, its staged stream is committed and delete-on-close is honoured; an unknown OpId changes nothing |
| PeerProvider.WebFSProvider.Trace | SpawnDev.WebFS/WebFSProvider.cs:130-159 | a CreateFile that did not succeed closes its handle at once; nothing else changes state |
| PeerProvider.WebFSProvider.Cleanup | SpawnDev.WebFS/WebFSProvider.cs:187-198 | the handle is marked for deletion if asked and then closed |
| PeerProvider.WebFSProvider.CloseFile | SpawnDev.WebFS/WebFSProvider.cs:200-204 | the handle is closed |
| PeerProvider.WebFSProvider.CreateFile | SpawnDev.WebFS/WebFSProvider.cs:206-331 | the source's CreateFile: storage changes only by the as-written decision's effect, the answer is DecideCreateAsWritten's unless storage fails, a successful open keeps the handle (with the kind found when the source records it), and a failed one is closed at once, delete-on-close included |
| PeerProvider.WebFSProvider.Open | SpawnDev.WebFS/WebFSProvider.cs:208-284 | the handle is registered, storage becomes the decision's effect, the answer is the decision's unless storage fails, and the kind found is recorded when the decision asks for it |
| PeerProvider.WebFSProvider.CreateFileCorrected | SpawnDev.WebFS/WebFSProvider.cs:206-331 | CreateFile as evidently intended: the answer is DecideCreate's, and a failed open forgets its handle without closing it, so storage is left as it was |
| PeerProvider.WebFSProvider.DeleteDirectory | SpawnDev.WebFS/WebFSProvider.cs:342-377 | without a handle Error; otherwise the delete check's answer, and only on Success the handle takes the requested delete-on-close flag; storage never changes |
| PeerProvider.WebFSProvider.DeleteFile | SpawnDev.WebFS/WebFSProvider.cs:387-422 | without a handle Error; otherwise the delete check's answer, and only on Success the handle takes the requested delete-on-close flag; storage never changes |
| PeerProvider.WebFSProvider.ReadFile | SpawnDev.WebFS/WebFSProvider.cs:532-563 | without a handle Error; Success only for a visible file, with the bytes ReadBytes gives from its content; and with a handle on a visible file whose read is defined it is exactly that Success |
| PeerProvider.WebFSProvider.WriteFile | SpawnDev.WebFS/WebFSProvider.cs:564-602 | the first write of a handle stages a stream on the file's content; every write places the buffer at the offset in the staged content and answers its length; storage is untouched until close; no handle or no file is Error |
| PeerProvider.WebFSProvider.SetEndOfFile | SpawnDev.WebFS/WebFSProvider.cs:633-659 | with a handle the named file is resized and committed, Error when that fails; without one Error; handles unchanged |
| PeerProvider.WebFSProvider.SetAllocationSize | SpawnDev.WebFS/WebFSProvider.cs:604-631 | with a handle the named file is resized and committed, Error when that fails; without one Error; handles unchanged |
| PeerProvider.WebFSProvider.Resize | SpawnDev.WebFS/WebFSProvider.cs:604-659 | the shared body of SetEndOfFile and SetAllocationSize: storage becomes the resized storage, or stays with Error |
| PeerProvider.WebFSProvider.FindFiles | SpawnDev.WebFS/WebFSProvider.cs:424-475 | always Success; with a handle on a directory, one entry per subdirectory followed by one entry per file with its size, no name twice; otherwise an empty list |
| PeerProvider.DirectoryEntries | SpawnDev.WebFS/WebFSProvider.cs:439-451 | one Directory entry per subdirectory, each name once |
| PeerProvider.FileEntries | SpawnDev.WebFS/WebFSProvider.cs:452-465 | one Normal entry per file below the directory, with the file's size as its length, each name once |
| PeerProvider.WebFSProvider.GetFileInformation | SpawnDev.WebFS/WebFSProvider.cs:491-517 | FileNotFound exactly when the path is not visible; otherwise the record carries the full name |
| PeerProvider.WebFSProvider.MoveFile | SpawnDev.WebFS/WebFSProvider.cs:675-720 | storage and answer are those of the move rules; handles unchanged |
| ElementLists.SliceElements | SpawnDev.WebFS/MessagePack/MessagePackList.cs:74-81 | a successful slicing gives exactly the announced number of elements, back to back from the start position, each an exact slice of the data |
| ElementLists.SliceStep | SpawnDev.WebFS/MessagePack/MessagePackList.cs:76-80 | one element: a failed skip or one running past the data fails the whole list, otherwise its slice is put in front of the remaining elements |
| ElementLists.ReadElements | SpawnDev.WebFS/MessagePack/MessagePackList.cs:68-82 | the constructor's loop succeeds exactly when the header and every skip succeed, and yields as many contiguous slices as the header announces, starting right after it |
| ElementLists.MessagePackList.FromElements | SpawnDev.WebFS/MessagePack/MessagePackList.cs:36-41 | the list holds the given data and elements |
| ElementLists.MessagePackList.Create | SpawnDev.WebFS/MessagePack/MessagePackList.cs:58-82 | a new list over the data with the slices the loop reads, or the reader's error |
| ElementLists.MessagePackList.LengthIsCount | SpawnDev.WebFS/MessagePack/MessagePackList.cs:45-49 | Length and Count are both the number of elements |
| ElementLists.MessagePackList.GetItem | SpawnDev.WebFS/MessagePack/MessagePackList.cs:122-138 | an index outside the list throws ArgumentOutOfRangeException("index"); otherwise the answer is that element decoded, failing exactly when decoding fails |
| ElementLists.MessagePackList.Shift | SpawnDev.WebFS/MessagePack/MessagePackList.cs:89-114 | an empty list throws "MessagePackList - Out of bounds"; otherwise element 0 is decoded and, only when that succeeds, removed |
| ElementLists.EffectiveOptions | SpawnDev.WebFS/JsonElementListExtensions.cs:10-20 | missing options become the case-insensitive defaults; given options are used as they are |
| ElementLists.JsonElementList.constructor | SpawnDev.WebFS/JsonElementListExtensions.cs:8 | the list holds the given elements |
| ElementLists.JsonElementList.Get | SpawnDev.WebFS/JsonElementListExtensions.cs:45-92 | an index outside the list throws; otherwise the element is deserialised with the effective options |
| ElementLists.JsonElementList.Shift | SpawnDev.WebFS/JsonElementListExtensions.cs:17-36 | an empty list throws; otherwise element 0 is deserialised with the effective options and removed only when that succeeded |
| WritableStreams.DataFrames | SpawnDev.WebFS/WritableWebSocketStream.cs:60-68 | one frame per write, in order |
| WritableStreams.DataFramesAppend | SpawnDev.WebFS/WritableWebSocketStream.cs:64-68 | one more write appends exactly one non-final binary frame carrying its buffer |
| WritableStreams.DataFramesShape | SpawnDev.WebFS/WritableWebSocketStream.cs:64-68 | the i-th frame carries the i-th buffer, and the frames together carry every written byte in order |
| WritableStreams.PayloadAppend | SpawnDev.WebFS/WritableWebSocketStream.cs:64-68 | the bytes of two runs of frames are the bytes of each, in order |
| WritableStreams.MessageFramesFragmented | SpawnDev.WebFS/WritableWebSocketStream.cs:30-68 | k writes then EndMessage send nothing for k = 0 and otherwise k non-final binary frames with the buffers and one empty final binary frame, whose payload is all the written bytes in order |
| WritableStreams.WritableWebSocketStream.constructor | SpawnDev.WebFS/WritableWebSocketStream.cs:9-30 | the stream writes to the given socket and has counted no writes |
| WritableStreams.WritableWebSocketStream.CanWrite | SpawnDev.WebFS/WritableWebSocketStream.cs:19 | writable exactly while the socket is open |
| WritableStreams.WritableWebSocketStream.SetPosition | SpawnDev.WebFS/WritableWebSocketStream.cs:23 | setting Position has no effect: it stays 0 |
| WritableStreams.WritableWebSocketStream.Read | SpawnDev.WebFS/WritableWebSocketStream.cs:45-48 | always throws NotImplementedException |
| WritableStreams.WritableWebSocketStream.Seek | SpawnDev.WebFS/WritableWebSocketStream.cs:50-53 | always throws NotImplementedException |
| WritableStreams.WritableWebSocketStream.SetLength | SpawnDev.WebFS/WritableWebSocketStream.cs:55-58 | always throws NotImplementedException |
| WritableStreams.WritableWebSocketStream.Write | SpawnDev.WebFS/WritableWebSocketStream.cs:60-63 | always throws NotImplementedException |
| WritableStreams.WritableWebSocketStream.WriteAsync | SpawnDev.WebFS/WritableWebSocketStream.cs:64-68 | the write is counted, then sent as one non-final binary frame when the socket is open; a closed socket throws and sends nothing |
| WritableStreams.WritableWebSocketStream.EndMessage | SpawnDev.WebFS/WritableWebSocketStream.cs:31-43 | with no write counted nothing is sent; otherwise the count is reset and one empty final binary frame is sent |
| Framing.ReadMessage | SpawnDev.WebFS/WebSocketConnection.cs:88-95 | one message read consumes at least one item when any remain, and is complete only when its last chunk carries EndOfMessage |
| Framing.Dispatched | SpawnDev.WebFS/WebSocketConnection.cs:96-104 | a message is handed on exactly when it is non-empty, decodes, and decodes to a non-empty list, and it is handed on as decoded |
| Framing.ReadChunks | SpawnDev.WebFS/WebSocketConnection.cs:88-95 | a message is the concatenation, in order, of its chunks' bytes up to and including the first with EndOfMessage |
| Framing.AsReceived | SpawnDev.WebFS/WebSocketConnection.cs:90-94 | each frame sent is received as one chunk with the same bytes, flag and type |
| Framing.ChunkBytesOfFrames | SpawnDev.WebFS/WebSocketConnection.cs:88-95 | the chunks received carry the frames' bytes in order |
| Framing.SentMessageReassembles | SpawnDev.WebFS/WebSocketConnection.cs:90-232 | the frames one SendStream sends reassemble, on the receiving side, into exactly the serializer's bytes, forming one complete message handed to the dispatcher exactly when the guard lets it |
| Framing.WebSocketConnection.State | SpawnDev.WebFS/WebSocketConnection.cs:25 | a connection without a socket reports Closed, otherwise the socket's state |
| Framing.WebSocketConnection.IsConnected | SpawnDev.WebFS/WebSocketConnection.cs:23 | connected exactly when there is a socket and it is Open |
| Framing.WebSocketConnection.IsDisconnecting | SpawnDev.WebFS/WebSocketConnection.cs:26 | disconnecting exactly when there is a socket that is CloseReceived or CloseSent |
| Framing.WebSocketConnection.ChooseId | SpawnDev.WebFS/WebSocketConnection.cs:34-55 | a non-empty given id is kept, otherwise a fresh GUID is used |
| Framing.WebSocketConnection.constructor | SpawnDev.WebFS/WebSocketConnection.cs:53-59 | the connection adopts the socket and data, and the receive loop runs exactly when asked for and the socket is open |
| Framing.WebSocketConnection.Accept | SpawnDev.WebFS/WebSocketConnection.cs:30-52 | the connection is refused with "Invalid origin" exactly when the origin header is missing, empty or does not parse; otherwise it adopts the socket, id and origin and listens when the socket is open |
| Framing.WebSocketConnection.Listen | SpawnDev.WebFS/WebSocketConnection.cs:60-83 | a different socket is refused while the current one is open; otherwise the socket is adopted and the loop starts exactly when the socket is open |
| Framing.ReceiveMessage | SpawnDev.WebFS/WebSocketConnection.cs:88-95 | the inner loop reads exactly the message ReadMessage describes |
| Framing.WebSocketConnection.ReceiveLoop | SpawnDev.WebFS/WebSocketConnection.cs:84-141 | the argument lists handed to the dispatcher are exactly Calls over the input, in order; on exit the socket is dropped, the connection is Closed and one state change is raised |
| Framing.WebSocketConnection.Disconnect | SpawnDev.WebFS/WebSocketConnection.cs:150-163 | nothing happens while closing, when not connected or with no receive loop; otherwise the socket is closed, the loop cancelled, the socket dropped and one state change raised |
| Framing.WebSocketConnection.SendStream | SpawnDev.WebFS/WebSocketConnection.cs:203-232 | a socket that is not open throws "WebSocket not connected"; otherwise the gate is entered and left once and the socket sends exactly the fragmented message of the serializer's writes, nothing when the serializer throws |
| Framing.WebSocketConnection.SendBytes | SpawnDev.WebFS/WebSocketConnection.cs:233-265 | a socket that is not open throws "Websocket not connected"; otherwise the gate is entered and left once and the bytes go out as one final binary frame |
| Framing.WebSocketConnection.Send | SpawnDev.WebFS/WebSocketConnection.cs:182-192 | true exactly when serialization succeeded and the socket was open, in which case one final binary frame with the serialized bytes was sent |
| Framing.WebSocketConnection.SendAsync | SpawnDev.WebFS/WebSocketConnection.cs:193-202 | true exactly when serialization succeeded and the socket was open, in which case the fragmented message was sent |
| Framing.WebSocketConnection.SendCall | SpawnDev.WebFS/WebSocketConnection.cs:267-270 | the fragmented message is sent when serialization succeeds and the socket is open, and nothing otherwise |
| SocketServer.Address | SpawnDev.WebFS.Host/Services/WebSocketServer.cs:26-45 | the listen address is "http://", the host, ":", the port in decimal and "/" |
| SocketServer.AddressDeterminesPort | SpawnDev.WebFS.Host/Services/WebSocketServer.cs:26-45 | two ports on one host never give the same address |
| SocketServer.AddressesFromList | SpawnDev.WebFS.Host/Services/WebSocketServer.cs:17-25 | a missing or empty list becomes the single default address http://localhost:80/; any other list is used as given |
| SocketServer.AddressesFromPorts | SpawnDev.WebFS.Host/Services/WebSocketServer.cs:26-45 | each port replaces the whole list, so only the last port's address remains; a missing array means port 80 and an empty one leaves no address |
| SocketServer.WebSocketServer.FromList | SpawnDev.WebFS.Host/Services/WebSocketServer.cs:17-25 | the server listens on the list's addresses (or the default) and starts idle with no connections |
| SocketServer.WebSocketServer.FromPorts | SpawnDev.WebFS.Host/Services/WebSocketServer.cs:26-45 | the server listens on the last port's address on the given host or 127.0.0.1, and starts idle with no connections |
| SocketServer.WebSocketServer.StartListening | SpawnDev.WebFS.Host/Services/WebSocketServer.cs:47-70 | an already listening server answers true; otherwise every address is added in order until one is refused, and listening starts exactly when all were accepted and Start succeeded |
| SocketServer.WebSocketServer.StopListening | SpawnDev.WebFS.Host/Services/WebSocketServer.cs:72-78 | only a listening server stops, and then its accept loop is cancelled |
| SocketServer.WebSocketServer.HandleRequest | SpawnDev.WebFS.Host/Services/WebSocketServer.cs:92-143 | a connection joins the table exactly when the request is a WebSocket request, no handler cancelled it, the socket is Open, the origin is valid and its id is new; OnConnected is raised only when it became ready within five seconds |
| SocketServer.WebSocketServer.ConnectionStateChanged | SpawnDev.WebFS.Host/Services/WebSocketServer.cs:144-158 | a Closed notification removes that id from the table and raises OnDisconnected; other notifications change nothing; no entry is ever added or altered |
| SocketServer.WebSocketServer.Connections | SpawnDev.WebFS.Host/Services/WebSocketServer.cs:81-90 | a snapshot with exactly one element per table entry |
| Mount.Letter | SpawnDev.WebFS.Host/WebFSHost.cs:92-112 | the i-th letter of the alphabet is an upper-case letter |
| Mount.LetterIndex | SpawnDev.WebFS.Host/WebFSHost.cs:92-112 | an upper-case letter's position, the inverse of Letter |
| Mount.MountPointFor | SpawnDev.WebFS.Host/WebFSHost.cs:47-59 | a value starting with a letter gives that letter, lower case, then ":\"; the mount letter is in 'a' to 'z' and equals the value's first letter ignoring case; any other value keeps the previous mount point |
| Mount.UnusedFrom | SpawnDev.WebFS.Host/WebFSHost.cs:92-112 | the free letters from position k onwards, in alphabetical order, each once |
| Mount.FindUnusedDriveLetters | SpawnDev.WebFS.Host/WebFSHost.cs:92-112 | the letters A to Z, in order, that are neither in use nor a disconnected network drive |
| Mount.PickedLetter | SpawnDev.WebFS.Host/WebFSHost.cs:79-89 | with more than two free letters the middle one (the last of the first half), otherwise the last one |
| Mount.ContainsFirst | SpawnDev.WebFS.Host/WebFSHost.cs:73-78 | the saved setting always contains its own first character, so a non-empty saved setting always wins |
| Mount.WebFSHost.constructor | SpawnDev.WebFS.Host/WebFSHost.cs:60-69 | the host starts with no mount point |
| Mount.WebFSHost.SetMountPoint | SpawnDev.WebFS.Host/WebFSHost.cs:47-59 | an empty value throws ArgumentNullException and keeps the mount point; otherwise the mount point becomes MountPointFor of the value |
| Mount.WebFSHost.FindMountPoint | SpawnDev.WebFS.Host/WebFSHost.cs:70-91 | a non-empty saved setting is applied; otherwise the picked free letter is mounted, and with no free letter it throws "No drive letter available." |
| Schema.TableName | SpawnDev.WebFS.Host/DB/SQLiteConnectionExt.cs:66-70 | the [Table] attribute's name when there is one, otherwise the class name followed by "s" |
| Schema.MapType | SpawnDev.WebFS.Host/DB/SQLiteConnectionExt.cs:292-329 | every mapped type has one of the five SQLite column types, and only types outside the table map to "" |
| Schema.ScanAttributes | SpawnDev.WebFS.Host/DB/SQLiteConnectionExt.cs:102-118 | the attribute loop throws exactly for [Key] on a TEXT column; otherwise a key comes from [Key] or [ExplicitKey] (or from the key list, once any attribute is seen), unique and collate flags from their attributes, and the last DefaultCurrent* attribute sets the default |
| Schema.Mapped | SpawnDev.WebFS.Host/DB/SQLiteConnectionExt.cs:84-96 | the properties kept are writable, not [Computed], and of a mapped type; MappedKeepsIncluded and MappedKeepsOrder state that all of them are kept, in order |
| Schema.MappedKeepsIncluded | SpawnDev.WebFS.Host/DB/SQLiteConnectionExt.cs:84-96 | a property is kept exactly when it is listed and included, and when every property is included all are kept |
| Schema.MappedKeepsOrder | SpawnDev.WebFS.Host/DB/SQLiteConnectionExt.cs:84-96 | two included properties are kept at ascending positions, in the order they are listed |
| Schema.Names | SpawnDev.WebFS.Host/DB/SQLiteConnectionExt.cs:122 | the column names, position by position |
| Schema.KeyNames | SpawnDev.WebFS.Host/DB/SQLiteConnectionExt.cs:78-119 | the explicit key names, each once, every one a column, and every explicit key column among them |
| Schema.KeyNamesAreKeys | SpawnDev.WebFS.Host/DB/SQLiteConnectionExt.cs:102-119 | every name in the key list is the name of a [Key] or [ExplicitKey] column |
| Schema.LastMatching | SpawnDev.WebFS.Host/DB/SQLiteConnectionExt.cs:129-131 | a match is a column name equal to the target ignoring case |
| Schema.LastMatchingIsLast | SpawnDev.WebFS.Host/DB/SQLiteConnectionExt.cs:129-131 | nothing is found exactly when no column matches the target, and otherwise the name found is that of the last matching column |
| Schema.FallbackKeys | SpawnDev.WebFS.Host/DB/SQLiteConnectionExt.cs:134-136 | at most one fallback key, and it names a column; FallbackPriority gives which one |
| Schema.FallbackPriority | SpawnDev.WebFS.Host/DB/SQLiteConnectionExt.cs:134-136 | a column named Id wins, then {Table}Id, then {Class}Id, each ignoring case; there is no fallback key exactly when none of the three exists |
| Schema.PrimaryKeys | SpawnDev.WebFS.Host/DB/SQLiteConnectionExt.cs:119-137 | the explicit keys when there are any, else the fallback; distinct and every one a column |
| Schema.KeyNumbering | SpawnDev.WebFS.Host/DB/SQLiteConnectionExt.cs:137-143 | a name that is not a key gets pk 0; a key gets its position in the key list, counted from 1 |
| Schema.KeyNumberAt | SpawnDev.WebFS.Host/DB/SQLiteConnectionExt.cs:137-143 | the i-th key of a distinct key list gets pk i + 1 |
| Schema.BaseColumns | SpawnDev.WebFS.Host/DB/SQLiteConnectionExt.cs:120-127 | one column per kept property, cid its position, before the keys are numbered |
| Schema.FirstIndex | SpawnDev.WebFS.Host/DB/SQLiteConnectionExt.cs:141 | the first position holding the name |
| Schema.MappedStep | SpawnDev.WebFS.Host/DB/SQLiteConnectionExt.cs:84-96 | one more property extends the kept list exactly when it is kept |
| Schema.AppendStep | SpawnDev.WebFS.Host/DB/SQLiteConnectionExt.cs:119-131 | one more kept property updates the last id match, the key names and the base columns as the loop body does |
| Schema.CreateStep | SpawnDev.WebFS.Host/DB/SQLiteConnectionExt.cs:262-268 | one more kept property adds its entry, built with the keys seen so far, and updates the key list as the CREATE loop does |
| Schema.AnyTextKeyStep | SpawnDev.WebFS.Host/DB/SQLiteConnectionExt.cs:104-109 | a prefix one longer has a [Key]-on-TEXT property exactly when the shorter one had or the new property is kept and is one |
| Schema.ClassColumns | SpawnDev.WebFS.Host/DB/SQLiteConnectionExt.cs:73-145 | one column per kept property |
| Schema.ScanProperties | SpawnDev.WebFS.Host/DB/SQLiteConnectionExt.cs:84-137 | throws exactly when some kept property has [Key] on TEXT; otherwise the base columns of the kept properties and the primary keys |
| Schema.KeyNumberStep | SpawnDev.WebFS.Host/DB/SQLiteConnectionExt.cs:138-143 | one more key numbers only the first column of its name |
| Schema.NumberKeys | SpawnDev.WebFS.Host/DB/SQLiteConnectionExt.cs:137-143 | every column gets the pk number of the key list |
| Schema.GetClassTableInfo | SpawnDev.WebFS.Host/DB/SQLiteConnectionExt.cs:73-145 | throws the [Key]-on-TEXT message exactly when some kept property has [Key] on TEXT; otherwise the class's columns |
| Schema.KeyColumns | SpawnDev.WebFS.Host/DB/SQLiteConnectionExt.cs:137-143 | a column with pk > 0 is named by the key at position pk - 1, and every key numbers a column of its name with its position plus one |
| Schema.CreateKeys | SpawnDev.WebFS.Host/DB/SQLiteConnectionExt.cs:193-263 | the CREATE loop's key list starts with the listed keys, in order; CreateKeysMembers gives the rest |
| Schema.CreateKeysMembers | SpawnDev.WebFS.Host/DB/SQLiteConnectionExt.cs:193-263 | a name is in the CREATE loop's key list exactly when it is listed or names a [Key]/[ExplicitKey] column, and no name is there twice when the listed keys are distinct |
| Schema.Fields | SpawnDev.WebFS.Host/DB/SQLiteConnectionExt.cs:228-268 | one column definition per kept property; FieldsEntries gives each one |
| Schema.FieldsEntries | SpawnDev.WebFS.Host/DB/SQLiteConnectionExt.cs:228-268 | the j-th definition is the j-th kept property's Entry under the keys the loop had collected before it |
| Schema.CreateColumn | SpawnDev.WebFS.Host/DB/SQLiteConnectionExt.cs:240-268 | one pass of the CREATE loop gives the property's Entry and adds its name to the keys exactly when it is taken as a key not yet listed |
| Schema.Quoted | SpawnDev.WebFS.Host/DB/SQLiteConnectionExt.cs:279 | each key in backquotes, in order |
| Schema.KeyClause | SpawnDev.WebFS.Host/DB/SQLiteConnectionExt.cs:279 | the PRIMARY KEY clause is empty exactly when there are no keys |
| Schema.Except | SpawnDev.WebFS.Host/DB/SQLiteConnectionExt.cs:208 | exactly the class columns the table lacks, each once, in the order of their first occurrence |
| Schema.AddMissingColumns | SpawnDev.WebFS.Host/DB/SQLiteConnectionExt.cs:206-227 | runs, in order, one ALTER TABLE per missing non-key column that SQLite accepts; answers true when all were added, and otherwise throws at the first key column or at the statement SQLite refused |
| Schema.BuildCreateSql | SpawnDev.WebFS.Host/DB/SQLiteConnectionExt.cs:228-280 | the CREATE TABLE statement of the kept properties' definitions and the loop's keys, or the fallback key |
| Schema.CreateTableIfNotExists | SpawnDev.WebFS.Host/DB/SQLiteConnectionExt.cs:187-291 | [Key] on TEXT throws before any SQL; an existing table only gets its missing columns added; a new table gets one CREATE TABLE and the answer is true only when SQLite reports affected rows, false when it throws |
| Schema.ReplaceInto | SpawnDev.WebFS.Host/DB/SQLiteConnectionExt.cs:29-45 | true exactly when delete, insert and commit all succeed, leaving the row under its key; on any failure the table is rolled back unchanged |
| Schema.ReplaceIntoIdempotent | SpawnDev.WebFS.Host/DB/SQLiteConnectionExt.cs:29-45 | replacing the same row twice leaves the table as replacing it once |

## Left out

- MessagePack element decoding and the library's `Skip`: decoding and the extent of one element are functions given to the model (`MessagePackReader`). The array format family itself is not modelled.
- Concurrency: the fire-and-forget `Task.Run` dispatch, the send semaphore and the listener's lock become sequential steps. The semaphore is a pair of acquire and release counters.
- `ReceiveAsync` is a finite sequence of chunks. Reaching its end stands for a cancelled loop or a socket that is no longer Open.
- Delays and timeouts become inputs: readiness within five seconds, `WhenReady` and the ready flag.
- The serializer that turns a call into bytes (`SendCall`) is a parameter giving the serialized message.
- The RPC dispatcher (`HandleCall` and `AsyncCallDispatcherSlim`) is not modelled. A dispatched message is recorded instead.
- Unsubscribing from `OnStateChanged` is not modelled. `Dispose` of connections and listeners is not modelled either.
- Closing a handle that has written: `FileSystemHandleWritableStream` belongs to a browser library outside this repository. The model takes two facts about it. `FileSystemHandleWritableStream.Create(handle, true)` starts the staged content from the file's current bytes. Its `Dispose`, which `CloseContext` calls on the `IDisposable` branch, writes the staged bytes back at close time and records that time as the file's lastModified (`Committed`).
- DokanTypes.UnixMillisToTicks: `DateTimeOffset.FromUnixTimeMilliseconds` throws `ArgumentOutOfRangeException` for a time outside the years 1 to 9999. The model converts every time.
- Logging (`JS.Log`, `Console.WriteLine`) is not modelled.
- Browser storage fails exactly where `BrowserStorage.WriteFile`, `MakeDirectories` and `RemovePath` say: a missing or non-directory parent, a directory in the way, the root, or a non-empty directory removed without recursion. `ApplyCreate` answers Error for them and `Moved` answers NotImplemented. Other storage exceptions are not modelled, so the `catch` in `FindFiles` is not modelled either.
- The Dokan framework's `IDokanFileInfo` is modelled only as the four fields the adapter uses (`DokanFileInfo` in `fileinfo.dfy`).
- Security is modelled as one opaque `SecurityDescriptor` value, passed through unchanged. The `AccessControlSections` argument of `GetFileSecurity` and `SetFileSecurity` is not modelled.
- Reflection over a class's properties is replaced by a list of property descriptors. Each descriptor has a name, a type, writability, attributes and whether a fresh instance's value is null.
- The strings the CREATE loop computes for `DefaultCurrent*` attributes are not modelled. The source computes them and never uses them.
- SQLite itself is a function from a statement to the number of affected rows, or to nothing when it throws. The exception's details are not modelled.
- The order in which `FindFiles` lists the entries of one kind is left open: each loop takes the names in any order. The source uses the browser's enumeration order. Directories still come before files.
- Schema.KeyNames: the key `HashSet` is taken to yield keys in insertion order, as .NET's `HashSet` does when nothing is removed. The language does not promise this order.
- Text.EqualsIgnoreCase: folds only the ASCII letters A to Z. In `StringComparison.OrdinalIgnoreCase`, used for the host match of routing and the id matches of the schema, other letters fold too ("Ä" equals "ä"), so the model treats such names as different.
- `Sockets.WebSocket` stands for .NET's `System.Net.WebSockets.WebSocket`. It is not part of this repository and has no rows.
- The WMI and Explorer calls of `WebFSHost`, the settings store, the application database, the WinForms UI and the driver bootstrap are not part of this model.

## Findings

| source | as written | input that shows it | evidently intended | confidence | as-written member | corrected member |
|---|---|---|---|---|---|---|
| SpawnDev.WebFS/WebFSProvider.cs:241-244, 321 | a file request with FileMode.CreateNew on a missing path breaks out of the switch without writing anything, then answers Success | CreateFile of a file that does not exist, with mode CreateNew | the file is created empty, as the other creating modes do | not executed | PeerProvider.DecideCreateAsWritten, PeerProvider.CreateNewFileNotCreated, PeerProvider.WebFSProvider.CreateFile | PeerProvider.DecideCreate, PeerProvider.WebFSProvider.CreateFileCorrected |
| SpawnDev.WebFS/WebFSProvider.cs:215, 221-225, 321 | a directory request with FileMode.CreateNew creates the directory but answers with `pathIsDirectory`, computed before it existed, so the result says it is not a directory | CreateFile with IsDirectory set, mode CreateNew, on a missing path | the result reports a directory | not executed | PeerProvider.DecideCreateAsWritten, PeerProvider.CreateNewDirectoryReportedAsFile, PeerProvider.WebFSProvider.CreateFile | PeerProvider.DecideCreate, PeerProvider.WebFSProvider.CreateFileCorrected |
| SpawnDev.WebFS/WebFSProvider.cs:100-121, 144-150, 242 | a CreateFile that fails closes its handle at once through CloseContext, which honours the delete-on-close flag the kernel passed to the open, so a refused open deletes what is already there | CreateFile with mode CreateNew and delete-on-close on an existing file: the answer is FileExists and the file is removed | an open that fails leaves storage as it was | not executed | PeerProvider.RefusedOpenDeletesExisting, PeerProvider.WebFSProvider.CreateFile | PeerProvider.WebFSProvider.CreateFileCorrected, PeerProvider.FailedCreateHasNoEffect |
