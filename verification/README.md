# Acelus: the download, store and merge pipeline

Acelus is a launcher whose daemon resolves a game version, merges a mod loader into it, downloads what is
missing into a content-addressed store and places the files in an instance. This project models the parts of
it whose correctness spans several steps, and proves what those steps promise together.

`dafny verify dfyconfig.toml` checks everything.

| file | what it models |
|---|---|
| `Fetch.dfy`, `IntegrityCheck.dfy` | resumable downloads with retries, against a server that is an arbitrary function |
| `ContentHash.dfy`, `StorePaths.dfy` | hexadecimal hashes and where the store keeps its files |
| `FileSystem.dfy`, `StoreMachine.dfy`, `StoreRuns.dfy` | the store under concurrency: names, inodes, bytes and permissions; its file-system calls as steps; what every run guarantees and which discipline that takes |
| `ObjectStore.dfy`, `StoreSteps.dfy` | the store's operations as a class, and that they are sequences of those steps |
| `Interference.dfy`, `Acquire.dfy` | other work on the same store; reusing a stored object by vendor digest or downloading it; installing a whole plan |
| `AliasRuns.dfy` | that such work is steps of the concurrent store, and what aliases mean over its whole runs |
| `Text.dfy`, `Maven.dfy` | Maven coordinates, their paths, and the two deduplication keys |
| `Seqs.dfy`, `LoaderMerge.dfy`, `Classpath.dfy` | the loader merge, library resolution, locking and the classpath |
| `TauriClient.dfy`, `JsonRpc.dfy` | the desktop client's shared maps; the daemon's connection and the command line's client |
| `Accounts.dfy`, `DeviceCode.dfy` | the account registry with its secrets; waiting for a device-code sign-in |
| `Arguments.dfy`, `LoaderVersions.dfy`, `CarryOver.dfy` | placeholder substitution, newest build, copying another launcher's instance |

Conventions. Digests (SHA-1, SHA-512, BLAKE3) are function values nothing is assumed about. A file operation,
a store write or a network reply may fail at any call: this is an arbitrary choice (`*`) in the methods, and a
step of its own in the state machines. A ghost counter `faults` records failed operations, so that the contracts
also say what happens when none fails: the exact outcome, and no error that the inputs do not explain. What is
not the caller's own doing is an input where results depend on it: the calls other work will make on the store
(`Acquire.Installer.script`) and the entries that directory listings will lose (`CarryOver.FileTree.lost`).
`Seqs.dfy` and `Text.dfy` hold the sorting, filtering and splitting laws the other modules use.

Where the code differs from what its tests and comments suggest, the code is modelled:

- The key read from a library's installed path agrees with its coordinate key only when the extension has no
  slash either, besides the group, artifact, version and classifier (`Maven.KeysAgree`).
- Substituting arguments twice can differ from substituting once, even with values free of `${`:
  `Arguments.EmptyValueBreaks`, `BraceValueBreaks` and `DollarValueBreaks` give the inputs and
  `Arguments.IdempotentIffInsulating` the exact condition.
- Sorting checksummed libraries back by position hides the completion order only if entries of one name are
  adjacent and identical (`LoaderMerge.CompletionOrderInvisible`).
- After a merge two libraries can still share a key, exactly when the loader's own libraries did
  (`LoaderMerge.MergedKeysDistinct`).
- The desktop client can leave entries in its pending map (`TauriClient.StaleEntryOccurs`); which ones is proved
  in `TauriClient.StaleEntries`.
- Installing takes no lock, so placements of one destination, and placements and commits of one hash, can
  overlap. The store's objects and its private destinations are safe in every run if and only if callers keep to
  four rules (`StoreRuns.SafeIffDisciplined`), each of which can be checked when `materialize` or `commit` is
  called: no placement starts while one of the other mode is under way at its destination; a shared placement
  starts only when its object is read-only and no commit of that hash stands between its check and its seal; and
  no commit of a hash passes its check, on to the rename, while a shared placement of it is under way. For each
  rule there is a failing run in which the others are kept: `StoreRuns.MixedModesCorrupt`,
  `UnsealedObjectCorrupts`, `UnsettledCommitCorrupts` and `LateCommitCorrupts`.
- Copying an instance into a part of itself that is not managed ends only by a failure, or when a listing loses an
  entry (`CarryOver.FileTree.CarryOverReporting`), and copying it onto itself empties its files
  (`CarryOver.FileTree.CopyFile`).

## Model

| member | source | states |
|---|---|---|
| Fetch.TargetFile.ToFile | core/acelus-net/src/fetch.rs:278-392 | Against any server, start file, chunking and short reads: an I/O error is reported iff a file operation failed, and otherwise file and outcome are exactly those of the retried attempts. Its log of requests: each asks for the rest of a non-empty file shorter than the declared size, else for all; another follows only after a status 408, 429 or 500 to 599, a body cut off in transit or a connection that failed retryably, and then always unless the attempts are used up; the download ends with what the last reply comes to. Success means the file on disk has the returned length and meets the declared size and digests. Against an honest server and from a prefix of the body, every state of the file is a prefix of the body and success means the whole body |
| Fetch.TargetFile.DownloadResumable | core/acelus-net/src/fetch.rs:290-332 | One attempt is exactly the transition `Attempt` unless a file operation fails or the host is refused; every intermediate file state lies between what was kept and what was sent; at most one request is made, with the resume offset of the file held |
| Fetch.TargetFile.Receive | core/acelus-net/src/fetch.rs:308-331 | A 206 to a range request appends to the re-seeded prefix, any other success starts from nothing; the verdict is that of the bytes on disk |
| Fetch.TargetFile.AppendBody | core/acelus-net/src/fetch.rs:318-324 | Whatever the chunking, the file and the hashed stream stay equal and grow by the body; a failed write leaves a prefix |
| Fetch.TargetFile.SeedVerifier | core/acelus-net/src/fetch.rs:409-438 | However short the reads, seeding hashes exactly the bytes on disk |
| Fetch.TargetFile.ResumablePrefix | core/acelus-net/src/fetch.rs:394-407 | A resume offset exists exactly for a non-empty file shorter than a declared size |
| Fetch.HonestKeepsPrefix | core/acelus-net/src/fetch.rs:290-332 | No moment of an attempt against an honest server leaves anything but a prefix of the body |
| Fetch.RetriesDeliver | core/acelus-net/src/fetch.rs:365-392 | Progress: from any prefix of the body, if the replies before one that sends all it was asked for are merely cut off, unreachable or answered with status 408, 429 or 500 to 599, the whole body ends up on disk and is accepted |
| Fetch.DamagedPrefixHeals | core/acelus-net/src/fetch.rs:290-332 | A damaged partial file repairs itself: with full replies the first attempt is accepted or the next one restarts and stores the body |
| Fetch.ResumingEqualsRestarting | core/acelus-net/src/fetch.rs:290-332 | A resumed download of a true prefix gives the file and the verdict a download from scratch gives |
| IntegrityCheck.Judge | core/acelus-net/src/integrity.rs:100-132 | A stream is accepted iff its size and both digests, compared ignoring case, are as declared; a wrong size is reported before any digest, with both sizes; a digest error names its algorithm, what was declared and what was computed |
| IntegrityCheck.IgnoringCase | core/acelus-net/src/integrity.rs:122-132 | Digests are compared letter by letter, A to Z being the same as their lower-case forms |
| IntegrityCheck.Verifier.Finish | core/acelus-net/src/integrity.rs:100-120 | The verdict of the running hashers is the verdict of the whole concatenated stream |
| IntegrityCheck.Verifier.Update | core/acelus-net/src/integrity.rs:86-94 | Each configured hasher absorbs exactly the chunk, whatever was absorbed before |
| ContentHash.DecodeIffEncodes | core/acelus-cas/src/hash.rs:46-57 | Decoding yields some bytes iff the text is their encoding up to letter case |
| ContentHash.ParseIffHex | core/acelus-cas/src/hash.rs:46-57 | A text parses to a hash iff it is that hash's hexadecimal form up to letter case |
| ContentHash.HexRoundTrip | core/acelus-cas/src/hash.rs:19-57 | Parsing undoes formatting |
| ContentHash.EncodedDigits | core/acelus-cas/src/hash.rs:19-57 | A byte is two lower-case hexadecimal digits, the higher half first |
| StorePaths.ObjectPathRoundTrip | core/acelus-cas/src/store.rs:62-66 | The hash read back from an object's path is the hash it was made from |
| StorePaths.StoreLayout | core/acelus-cas/src/store.rs:62-92 | Objects, aliases and temporary files lie where they are said to on disk |
| StorePaths.ObjectPathCanonical | core/acelus-cas/src/store.rs:243-250 | A file that reads as a hash lies at that hash's object path iff its shard has two characters and the spelling is lower case |
| StorePaths.AliasPathInjective | core/acelus-cas/src/store.rs:81-92 | Distinct namespaces or keys never share an alias file, short keys included |
| FileSystem.OverwriteKeepsInv | core/acelus-cas/src/store.rs:339-348 | Writing in place through a name that is neither an object nor hard-linked changes no other name's bytes and keeps every object intact |
| FileSystem.RenameKeepsInv | core/acelus-cas/src/store.rs:324-334 | Renaming a file whose bytes hash to `h` onto the object path of `h` keeps every object intact |
| FileSystem.HardLinkKeepsInv | core/acelus-cas/src/store.rs:184-199 | Linking an object to a destination shares its inode only among objects and recorded links |
| StoreMachine.StepKeepsInv | core/acelus-cas/src/store.rs:168-364 | Each of the twenty-one steps of writers, commits, placements, collections, alias writes and the player keeps the store invariant for disciplined callers, however placements of one destination overlap |
| StoreMachine.RunKeepsInv | core/acelus-cas/src/store.rs:168-364 | Every reachable state of every disciplined interleaving satisfies the invariant |
| StoreRuns.ObjectsAlwaysIntact | core/acelus-cas/src/store.rs:315-336 | At every moment of every disciplined run the bytes stored under a hash hash to it |
| StoreRuns.CommitStoresWhatWasWritten | core/acelus-cas/src/store.rs:315-348 | In every run, disciplined or not, a commit that renames stores exactly the bytes its writer accepted, under their own hash |
| StoreRuns.PlacementDelivers | core/acelus-cas/src/store.rs:168-199 | In a disciplined run, a placement that nobody else disturbs at its destination and that finishes leaves content of the requested hash there, read-only iff shared, whatever ran in between |
| StoreRuns.PlacementTouchesOnlyDest | core/acelus-cas/src/store.rs:168-199 | In a disciplined run each step of a placement leaves every name but its destination with its inode and bytes, also while another placement of that destination is under way |
| StoreRuns.PrivateNeverShares | core/acelus-cas/src/store.rs:184-199 | At every moment of a disciplined run a privately placed destination shares its inode with no other name |
| StoreRuns.EditsStayLocal | core/acelus-cas/src/store.rs:252-267 | In a disciplined run, whatever the player, bound by permissions, writes or removes, every other name keeps its inode and its bytes |
| StoreRuns.SafeIffDisciplined | core/acelusd/src/handler.rs:424-469 | The store keeps every object intact and every private destination's inode its own in all runs if and only if its callers keep to all four rules at the calls of `materialize` and `commit` |
| StoreRuns.MixedModesShare | core/acelus-cas/src/store.rs:168-199 | A run, from a commit on, in which overlapping shared and private placements of one destination end with a writable link to the object |
| StoreRuns.MixedModesCorrupt | core/acelus-cas/src/store.rs:168-199 | That run continued by an edit, which changes the stored object |
| StoreRuns.UnsealedObjectCorrupts | core/acelus-cas/src/store.rs:315-336 | A run in which a shared placement starts on an object whose commit ended before it was made read-only, and an edit goes through the link |
| StoreRuns.UnsettledCommitCorrupts | core/acelus-cas/src/store.rs:168-199 | A run in which the object is read-only when a shared placement starts, and a second commit of the same content, already past its check, renames over it before the link is made |
| StoreRuns.LateCommitCorrupts | core/acelus-cas/src/store.rs:315-336 | A run in which a collection and then a commit that passes its check come between the start of a shared placement and its link |
| StoreRuns.LinkedObjectsAreSealed | core/acelus-cas/src/store.rs:190-194 | In a disciplined run every object is read-only at the moment it is hard-linked, though nothing is tested there |
| StoreSteps.CommitIsSteps | core/acelus-cas/src/store.rs:315-336 | What a successful commit does to the files is what its steps do in the machine |
| StoreSteps.MaterializeIsSteps | core/acelus-cas/src/store.rs:168-199 | What a successful materialize does to the files, by reflink, link or copy, is what the steps of one placement do |
| ObjectStore.Store.WriteAll | core/acelus-cas/src/store.rs:338-348 | However few bytes each write accepts, the temporary file and the hashed bytes stay equal and grow by the buffer |
| ObjectStore.Store.Commit | core/acelus-cas/src/store.rs:315-336 | Returns the hash of what was written, which is then stored, unless a file operation fails; the files afterwards are given exactly; a new object holds exactly those bytes, read-only; no other file changes |
| ObjectStore.Store.Place | core/acelus-cas/src/store.rs:184-199 | Reflink, else a hard link for shared placements only, else a copy: a link is made only when the reflink was refused, and a shared object is copied only when the link was refused too; the destination holds the object's bytes; a refused reflink or link is not an error, only a failed removal or copy is |
| ObjectStore.Store.Materialize | core/acelus-cas/src/store.rs:168-182 | Missing iff not stored, an I/O error iff a file operation fails; success gives the files afterwards exactly for each way of placing, and what was refused before: only the destination is bound, to the object's bytes, read-only iff shared, with its own inode unless a shared placement was hard-linked; nothing else outside the store loses its inode, bytes or protection |
| ObjectStore.Store.ResolveAlias | core/acelus-cas/src/store.rs:94-116 | An alias resolves to its target exactly while the target is stored |
| ObjectStore.Store.SetAlias | core/acelus-cas/src/store.rs:103-109 | On success the alias reads back as the hash; a failed write leaves the file as it was, or naming the hash or nothing; nothing but its file changes |
| ObjectStore.Store.Gc | core/acelus-cas/src/store.rs:201-234 | Unless a file operation fails, removes exactly the counted entries outside `live` and reports exact counts and bytes; a failure midway has removed only such entries |
| ObjectStore.CollectionKeepsLive | core/acelus-cas/src/store.rs:201-234 | An object is stored after a collection iff it was stored and is live, with unchanged bytes |
| ObjectStore.CollectionCounts | core/acelus-cas/src/store.rs:201-234 | The statistics of removal are the number and total length of the files that are gone |
| ObjectStore.CollectionAndAliases | core/acelus-cas/src/store.rs:111-116 | After a collection an alias resolves iff its target was stored and live; alias files are untouched |
| ObjectStore.CollectionConserves | core/acelus-cas/src/store.rs:29-36 | Removed plus retained objects and bytes make up what was there |
| ObjectStore.RunStaysTidy | core/acelus-cas/src/store.rs:315-336 | In every run, disciplined or not, everything under `objects` is an object under its own name |
| ObjectStore.TidyCountsObjects | core/acelus-cas/src/store.rs:201-250 | In such a store a collection counts exactly the stored objects |
| Acquire.Installer.Acquire | core/acelus-instance/src/install.rs:187-232 | A hit is taken exactly when the alias resolves and returns what it resolves to; a miss returns exactly what the download comes to; both end with a hash the vendor digest vouches for and the alias pointing at it, and a failed fetch changes no object and no alias, with other work going on between the steps and while the body is awaited; counters move only on success |
| Acquire.Installer.Download | core/acelus-instance/src/install.rs:213-231 | A miss takes the first origin, and on success the content meets all that is declared and the alias names its hash; there is no origin exactly when that is the error; nothing changes outside the store, nor in it but what the calls others made meanwhile touch and, unless the fetch fails, the download's own object and alias |
| Acquire.Installer.DownloadIntoStore | core/acelus-instance/src/install.rs:234-261 | With other work between chunks and before the commit: unless a file operation fails the outcome is exactly that of URL, host, reply and verification, in this order; success stores content that meets the whole declared integrity; a refused or failed fetch or digest leaves every object and alias as it was but for those that the calls others made meanwhile touch, so with no such call it changes none; anything else changes only the object of the body received |
| Acquire.Installer.ToWriter | core/acelus-net/src/fetch.rs:242-276 | The verdict is that of an unresumed attempt, whatever the chunking and the interruptions, unless writing or flushing the sink fails, which has its own error; what the store writer has hashed is what the verifier accepted |
| Interference.ResolvedIsContent | core/acelus-cas/src/store.rs:111-116 | Whatever a digest's alias resolves to is stored, and its content has that digest, ignoring case |
| Interference.OtherHarmless | core/acelus-cas/src/store.rs:81-116 | Whatever file-system call of a collection or another acquisition comes next - a temporary write, a publication, an alias cut short - objects stay intact, every alias stays vouched for, and one's own temporary file and everything outside the store stay as they were |
| AliasRuns.StepIsCall | core/acelus-cas/src/store.rs:94-116 | Every step of a writer, a collection or an alias record in the concurrent store is one call of other work as the acquisitions see it, or leaves the files alone |
| AliasRuns.AliasesAlwaysSound | core/acelus-cas/src/store.rs:94-116 | At every moment of a disciplined run in which aliases are recorded, perhaps cut short, for committed content, what an alias resolves to is stored and has the digest the alias names |
| Acquire.ReuseAgreesWithDownload | core/acelus-instance/src/install.rs:187-232 | When committed contents do not share a vendor digest, reuse returns the hash a download would, and that content meets all that is declared |
| Acquire.Installer.Install | core/acelus-instance/src/install.rs:116-150 | A successful install locks every artifact - path, role, declared digests, origins and exclusions as planned - under the hash and size of committed content its digest vouches for. At the end every destination holds content of the hash of the last entry for it, several entries may name one: read-only, unless its role is an override, and then writable on an inode of its own. Nothing else outside the store changes, mode and inode included, whether it succeeds or not; without a failed file operation the store can only report a missing object, which takes a collection in between |
| Acquire.InstalledIsLocked | core/acelus-instance/src/install.rs:116-150 | When committed contents do not collide, what lies at a destination that holds an entry's content has the entry's size and the declared SHA-1 |
| Acquire.EntriesAreLocked | core/acelus-instance/src/install.rs:145-150 | The entries of an installed plan are the lock that the classpath results speak of |
| Maven.ParseReadsSpelling | core/acelus-meta/src/version.rs:193-216 | Parsing reads back the fields of every spelled coordinate, classifier and extension included |
| Maven.PathSegments | core/acelus-meta/src/version.rs:218-228 | The segments of a coordinate's path are those of its dotted group, artifact, version and file name |
| Maven.ClassifierRead | core/acelus-instance/src/loader.rs:278-298 | The file name gives back the classifier iff it is non-empty and the file is a jar, and none when there is none |
| Maven.ExtraSegmentsBreakKey | core/acelus-instance/src/loader.rs:278-298 | A slash in the version or file name always changes the recovered key |
| Maven.KeysAgree | core/acelus-instance/src/loader.rs:274-298 | For every coordinate the key read from its installed path equals its own key iff no field has a slash and a classifier, if any, is non-empty and names a jar |
| Maven.KeysIdentify | core/acelus-meta/src/version.rs:193-237 | Two well-formed names have one key exactly when group, artifact and classifier are the same, whatever the version |
| LoaderMerge.WithChecksums | core/acelus-instance/src/loader.rs:169-201 | Succeeds iff every checksum is available; the result is the arrivals sorted back by profile position; an error is one of the failures |
| LoaderMerge.CompletionOrderInvisible | core/acelus-instance/src/loader.rs:169-201 | Every completion order gives the profile's order iff profile entries of one name are adjacent and say the same, published checksums included |
| LoaderMerge.DistinctNamesSuffice | core/acelus-instance/src/loader.rs:169-201 | With distinct names every completion order gives the profile's order |
| LoaderMerge.CollectedInProfileOrder | core/acelus-instance/src/loader.rs:169-201 | For any permutation of completions the collected libraries are the profile's, in its order |
| LoaderMerge.Plan.RetainLibraries | core/acelus-instance/src/loader.rs:134-143 | The pass with a growing `seen` set keeps exactly the entries that survive by a condition on the original list |
| LoaderMerge.Plan.InsertPlanned | core/acelus-instance/src/loader.rs:145-153 | One-by-one insertion splices the planned libraries, in order, before the first library or at the end |
| LoaderMerge.Plan.Apply | core/acelus-instance/src/loader.rs:122-167 | Succeeds iff every completed library has readable coordinates and a checksum, its own or a fetched one. Then: survivors with the loader's libraries spliced in, in profile order, main class, loader and Java version raised as the profile says; on failure the plan is untouched |
| LoaderMerge.LoaderLibraryPlanned | core/acelus-instance/src/loader.rs:256-272 | A loader's library is planned under its coordinates' path, from its repository's base joined by exactly one slash, with its checksum and size; unreadable coordinates are reported before a missing checksum |
| LoaderMerge.VanillaReplaced | core/acelus-instance/src/loader.rs:134-143 | A vanilla library under its coordinates' path goes when the loader has one of its key or an earlier library of the plan does, and stays otherwise |
| LoaderMerge.MergeKeepsOthers | core/acelus-instance/src/loader.rs:134-153 | Everything that is not a library survives, in order |
| LoaderMerge.SurvivorsKeyed | core/acelus-instance/src/loader.rs:134-143 | Surviving libraries have pairwise distinct keys |
| LoaderMerge.PlannedKeysDistinct | core/acelus-instance/src/loader.rs:256-298 | With well-formed names the planned libraries' path keys are distinct iff their coordinate keys are, and all lie in the loader's key set |
| LoaderMerge.MergedKeysDistinct | core/acelus-instance/src/loader.rs:122-167 | After a merge the keyed libraries are pairwise distinct iff the loader's own were |
| Classpath.ResolveLibraries | core/acelus-meta/src/version.rs:282-328 | The loop with a `seen` set yields the first usable entry of every key, in order, and every applicable native |
| Classpath.ResolvedOncePerKey | core/acelus-meta/src/version.rs:282-328 | Every usable key is on the resolved classpath exactly once |
| Classpath.FirstOfLibrary | core/acelus-meta/src/version.rs:282-328 | A usable entry stays iff no usable one before it is for the same group, artifact and classifier, in any version |
| Classpath.LockingKeepsOrder | core/acelus-instance/src/install.rs:145-150 | Locking keeps each role's paths in plan order, whatever hashes and sizes were acquired |
| Classpath.Lockfile.ClasspathOf | core/acelus-instance/src/lock.rs:146-155 | The classpath is the stable sort by role order of the entries that belong on it |
| Classpath.ClasspathByRole | core/acelus-instance/src/lock.rs:146-166 | That stable sort is mods, then libraries, then clients, each in lock order |
| Classpath.ModdedClasspath | core/acelus-instance/src/lock.rs:146-166 | Locking a plan merged with given loader libraries gives mods, the loader's block in its order, surviving vanilla libraries in order, then clients |
| Classpath.PlanInstance | core/acelusd/src/handler.rs:428-448 | From a version's libraries and a loader's profile to the classpath: whatever order the checksums arrive in, and however the artifacts are acquired, it is the profile's libraries in the profile's order, the surviving resolved libraries and the client - provided entries of one name stand together and say the same; without a loader, the resolved libraries and the client |
| Classpath.DownloadPlanned | core/acelus-instance/src/resolve.rs:130-141 | A first usable library with a download is planned under its path, with that download's size, digest and address |
| Classpath.RepositoryPlanned | core/acelus-instance/src/resolve.rs:130-141 | Without one it is planned from its repository under its coordinates, with nothing declared to verify by |
| Classpath.NativePlanned | core/acelus-instance/src/resolve.rs:143-153 | Every applicable library's native for the platform is planned, with its exclusions |
| Classpath.FilesPlanned | core/acelus-instance/src/resolve.rs:122-187 | So are the client, the logging configuration and the asset index, with size, digest and address |
| Classpath.VanillaClasspath | core/acelus-instance/src/resolve.rs:111-180 | Without a loader: the resolved libraries in order, then the client |
| Classpath.ModdedVanillaClasspath | core/acelus-instance/src/resolve.rs:111-180 | With a loader over a vanilla plan: its block, surviving libraries, the client |
| TauriClient.RunKeepsInv | ui/src-tauri/src/client.rs:90-177 | Every interleaving of connects, calls, deliveries, resets and drains keeps the invariant of slot, pending map and answers |
| TauriClient.NoCallLeftWaiting | ui/src-tauri/src/client.rs:126-163 | Once a connection is drained no call whose request was written to it is still without an answer |
| TauriClient.AnswersBearOwnId | ui/src-tauri/src/client.rs:106-176 | A completed call got the reply bearing its own id, or a disconnect |
| TauriClient.AnsweredAtMostOnce | ui/src-tauri/src/client.rs:106-130 | The first answer a call is given is never replaced |
| TauriClient.StaleEntries | ui/src-tauri/src/client.rs:150-158 | A finished call still listed as pending found no writer or lost its flush |
| TauriClient.StaleEntryOccurs | ui/src-tauri/src/client.rs:150-152 | A run in which such an entry stays behind |
| TauriClient.Client.Call | ui/src-tauri/src/client.rs:135-177 | A whole call, with the rest of the program between its critical sections. An answer is the reply with its own id: if that has an error, whatever its result, the call fails with the error's message, or the stock one, and its code, 0 if missing, truncated to 32 bits; else it returns the reply's result; or it is a disconnect. A call that still waits has an undrained connection; a failed write leaves no entry |
| TauriClient.Client.ReadLoop | ui/src-tauri/src/client.rs:104-130 | A reader task from its first line to its drain: it hands replies over, resets its own writer slot, and once it has finished every call written to its connection has an answer |
| TauriClient.Client.DrainPending | ui/src-tauri/src/client.rs:127-129 | Draining entry by entry answers everything pending with null, leaves earlier answers alone and empties the map, as one step of the machine |
| JsonRpc.Connection.Serve | core/acelus-rpc/src/transport.rs:34-93 | With notifications removed the output is the in-order image of the input lines, however pump and handlers interleave; only a failed read or write cuts it short, to a prefix |
| JsonRpc.Connection.ServeLine | core/acelus-rpc/src/transport.rs:55-86 | One line adds exactly what it is owed |
| JsonRpc.Owed | core/acelus-rpc/src/transport.rs:55-86 | A blank line and a notification are owed nothing; a line that is not JSON a null id and code -32700, a message without version 2.0 or a method a null id and code -32600; a call its own id and its handler's outcome |
| JsonRpc.ClientImage | core/acelus-rpc/src/transport.rs:55-86 | Calls with increasing ids are owed one response each, with their own id and their own handler outcome |
| JsonRpc.GoClient.CallWithNotifications | cli/internal/rpc/client.go:151-205 | Returns the first reply with its own id and the notifications before it in order, skipping garbage and foreign replies, or reports the end |
| JsonRpc.NextResponseIsReply | cli/internal/rpc/client.go:179-203 | When the next response is the call's own, the call consumes the stream up to exactly that response |
| JsonRpc.Session | cli/internal/rpc/client.go:151-205 | Consecutive calls each return the handler's outcome of their own request, whatever notifications and stray lines are interleaved |
| Accounts.KeyInjective | core/acelus-auth/src/store.rs:457-459 | Accounts and kinds never share a secret key, nor the pending token's |
| Accounts.AccountStore.Remember | core/acelus-auth/src/store.rs:371-400 | The state is the full operation cut off after some of its writes; it succeeds, having made all of them, iff no read or write failed: the account replaces its old entry at the end of the list, expiring at the saturated sum of now and its lifetime, it is active if none was, and its tokens are stored; after a failure the registry is as it was |
| Accounts.AccountStore.SetActive | core/acelus-auth/src/store.rs:422-431 | Without a failed read or write it succeeds iff the account is known, and then that account is the active one, the accounts and secrets as before; otherwise nothing changes |
| Accounts.AccountStore.Forget | core/acelus-auth/src/store.rs:433-455 | The state is the full operation cut off after some of its writes; without a failed one it succeeds iff the account is known, and then the others are left in their order, its two secrets are gone, and if it was active the first one left is |
| Accounts.AccountStore.RememberPending | core/acelus-auth/src/store.rs:410-412 | Stores the given pending token and nothing else, unless the write fails |
| Accounts.AccountStore.ForgetPending | core/acelus-auth/src/store.rs:418-420 | Erases the pending token and nothing else, unless the write fails |
| Accounts.EveryRunKeepsInv | core/acelus-auth/src/store.rs:371-455 | Over all operations, each cut off after any of its writes: distinct uuids, an active account iff there is one, and a session secret for every account |
| Accounts.EveryRunFromEmpty | core/acelus-auth/src/store.rs:371-455 | The same from an empty store |
| Accounts.ForgetRemovesExactly | core/acelus-auth/src/store.rs:433-455 | A completed forget drops that account only and never leaves it active |
| Accounts.ForgetErasesExactly | core/acelus-auth/src/store.rs:433-455 | A completed forget erases that account's two secrets and no other |
| Accounts.RememberTouchesOnlyItsOwn | core/acelus-auth/src/store.rs:371-400 | A completed remember stores the account and its tokens, keeps an old refresh token when none came, and touches no other account's secrets |
| Arguments.Substitute | core/acelus-meta/src/arguments.rs:83-129 | The nested loops compute tokenise-then-render, or the distinct unbound names |
| Arguments.PlaceholderReplaced | core/acelus-meta/src/arguments.rs:83-129 | From left to right: the text before the first opening stays, the name up to the next brace becomes its value or is missing, and the rest follows by the same rule |
| Arguments.NothingReplaced | core/acelus-meta/src/arguments.rs:83-129 | An argument without an opening, and one whose only opening is never closed, stay as they are |
| Arguments.CommandLine | core/acelus-meta/src/arguments.rs:83-129 | A command line succeeds iff no argument misses a value, and then with every argument rendered |
| Arguments.TokensPrintBack | core/acelus-meta/src/arguments.rs:93-117 | Tokenising loses nothing |
| Arguments.TokensCanonical | core/acelus-meta/src/arguments.rs:93-117 | Text hides no opening, names no closing, and nothing closes after an unclosed opening |
| Arguments.OkIffBound | core/acelus-meta/src/arguments.rs:119-128 | Succeeds iff every closed placeholder is bound |
| Arguments.DedupKeepsFirsts | core/acelus-meta/src/arguments.rs:100-110 | Reported names are the unbound ones, once each, in order of first appearance |
| Arguments.FixedHasNoPlaceholder | core/acelus-meta/src/arguments.rs:83-129 | With values free of `${`, a text substitution leaves alone has no placeholder |
| Arguments.IdempotentIffInsulating | core/acelus-meta/src/arguments.rs:83-129 | With values free of `${`, substituting twice equals once for every argument iff each value is non-empty, does not begin with `{` and does not end with `$` |
| Arguments.EmptyValueBreaks | core/acelus-meta/src/arguments.rs:83-129 | An empty value joins its surroundings into a new placeholder |
| Arguments.BraceValueBreaks | core/acelus-meta/src/arguments.rs:83-129 | So does a value that begins with an opening brace |
| Arguments.DollarValueBreaks | core/acelus-meta/src/arguments.rs:83-129 | And one that ends with a dollar sign |
| DeviceCode.WaitForDeviceCode | core/acelus-auth/src/chain.rs:96-113 | Every wait starts before the deadline and lasts exactly max(interval, 1) seconds plus five for every slow-down so far, one wait before each poll and none overlapping; all polls but the last kept waiting; the outcome is that of the last poll, or a time-out once the deadline has passed |
| DeviceCode.PacedExactly | core/acelus-auth/src/chain.rs:96-113 | In nanoseconds each wait is the server's interval, at least a second, plus five seconds for every slow-down before it |
| DeviceCode.SlowDownsCost | core/acelus-auth/src/chain.rs:104-110 | `p` polls with `s` slow-downs wait at least p times the interval plus 5 s (s - 1) / 2 seconds |
| DeviceCode.PollsBounded | core/acelus-auth/src/chain.rs:96-113 | Such waits number at most `expires_in`, whatever the server answers |
| LoaderVersions.CompareFlips | core/acelus-meta/src/loader.rs:279-300 | Version comparison is total and antisymmetric |
| LoaderVersions.CompareTransitive | core/acelus-meta/src/loader.rs:279-300 | Version comparison is transitive |
| LoaderVersions.CompareIsUnder | core/acelus-meta/src/loader.rs:279-300 | Comparison is precedence as section 11 of Semantic Versioning words it: major, minor and patch in turn, a prerelease below its release, fields by the first that differs, numbers by value and below other identifiers, those by their first different character, fewer fields below more; then the metadata's order |
| LoaderVersions.Newest | core/acelus-meta/src/loader.rs:279-307 | Returns the first greatest stable build, else the first greatest prerelease, else the first entry; if any stable build is listed, none listed has a greater major, minor and patch than the chosen one, which is stable |
| LoaderVersions.Select | core/acelus-meta/src/loader.rs:257-277 | A pinned version is its first exact match; otherwise the newest, with none stable listed that has a greater major, minor and patch; errors exactly when there is none |
| LoaderVersions.NewestHasTopPrecedence | core/acelus-meta/src/loader.rs:279-307 | If a stable build exists the chosen one is stable and below none of the stable ones, in that wording |
| LoaderVersions.ListingOrderInvisible | core/acelus-meta/src/loader.rs:279-307 | If any version parses, the chosen version is the same for every order of the listing |
| CarryOver.FileTree.CopyTree | core/acelus-instance/src/import.rs:230-292 | For any source and destination nothing outside the destination changes. When they are apart it copies exactly the files and directories under a path, without links and special files, over what was there, totals grow by exactly those files, and it fails only if an operation fails, the path is missing or something of another kind is in the way. An entry that a directory's listing loses is left out with all below it. When the destination lies inside the source it succeeds only if a listing below the source loses an entry |
| CarryOver.FileTree.CopyFile | core/acelus-instance/src/import.rs:244-267 | Replaces or creates the destination with the file's bytes, or empties a file copied onto itself, and counts it; a failure touches only the destination |
| CarryOver.FileTree.CarryOverReporting | core/acelus-instance/src/import.rs:201-228 | For any source and destination nothing beside the destination changes, there is one report for every two hundred files and one at the end, and a missing source does nothing. When source and destination are apart the source stays as it was, everything unmanaged that no listing loses lies over the destination, the result is the exact count and length of it, and it fails only if an operation fails, the source is no directory or something of another kind is in the way. Into an unmanaged entry of the source itself it succeeds only if a listing loses an entry |
| CarryOver.WantedArrives | core/acelus-instance/src/import.rs:201-292 | After a carry-over every file and directory of the source that is under none of the seven managed names, and that no listing loses, is found at the destination, everything else there is as before, and the totals are the number and length of those files |
| CarryOver.DescendantsHaveChild | core/acelus-instance/src/import.rs:283-290 | Recursing through the listed children reaches every descendant |

## Left out

- Which file, store and network operations fail, and how long they take: arbitrary, so no contract promises success outright, only in the absence of faults.
- HTTP, TLS, redirects and the asynchronous runtime: replies are inputs; the retry back-off sleeps have no effect modelled.
- The digest functions themselves: they are function parameters; that no two committed contents share a BLAKE3 hash, or a vendor digest, is a premise of `ResolvedIsContent`, `AliasesAlwaysSound`, `InstalledIsLocked` and `ReuseAgreesWithDownload` only.
- JSON and schema decoding, rule evaluation, the native-classifier template and loader metadata parsing: their results are inputs.
- Parsing of semantic versions: the parser is a parameter and build-metadata segments are ordered by an arbitrary number.
- Integer widths of counters, sizes and back-off exponents, except the saturating expiry time and the `usize` fallback position.
- The superuser: permission bits bind every step that opens a file for writing.
- StoreMachine.StepKeepsInv: holds for disciplined callers; the code enforces none of its four rules, each of which `StoreRuns.SafeIffDisciplined` shows to be needed.
- StoreRuns.PlacementDelivers: for a placement nobody else disturbs at its destination; overlapping placements of different objects leave the content of either.
- StoreSteps.MaterializeIsSteps: links successful calls only; calls that fail midway are covered by the machine's own failure steps.
- ObjectStore.Store.Place: debris of a refused reflink is modelled in the state machine only.
- ObjectStore.Store.Gc: nested directories, directories whose names read as hashes and the removal of emptied shards are not modelled.
- Alias keys containing a path separator, and alias files with white space other than ASCII at their ends.
- Acquire.Installer.Acquire: a reused object is checked against the SHA-1 alone, as in the code; its size and SHA-512 follow only under the premise of `ReuseAgreesWithDownload`.
- Accounts.AccountStore.Remember: a failing write has no effect; partially written registry files are not modelled.
- Assets and Java runtimes, accepted by size alone, and unpacking natives: no statement about their content is available.
- Checksum text parsing, profile construction and the daemon's method table.
- Cancelled calls, and notifications of the desktop client.
- Fetch.TargetFile.Receive: after a cut-off body its last bytes may be lost, but a write still buffered is not modelled as landing later, during the next attempt.
- Acquire.Installer.Install: a commit, an alias write and a placement are single actions towards other work there, which does not write to the destinations; their calls interleave in the state machine. Unpacking natives and the asset index are not part of it.
- JsonRpc.GoClient.CallWithNotifications: a null id is read as no id, and a result is an opaque value.
- CarryOver.FileTree.CarryOverReporting: a destination that is a link or a special file, or lies below one, makes the copy fail where the program would write through it; files have no shared inodes, so writing through a hard link at the destination, into the store for instance, is not modelled.
- CarryOver.FileTree.List: symbolic links as the source directory itself are not followed.
- Presentation: the user interface, table printing, process guarding and log buffers.
