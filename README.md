# Quantum Download Manager — a verified model of its download core

Quantum Download Manager is a Go command-line downloader. It probes a URL and
decides whether the server supports byte ranges. When it does, and more than one
connection is configured, it splits the content into consecutive byte ranges and
fetches each range into its own temporary file ("<save path>.temp<k>.qdm"). It
then joins the parts into the save file. Otherwise it writes the whole body
through one temporary file.

The repository holds three generations of this logic, and all three are modelled:

- `manager` (`internal/app/downloader/manager`): the current download session. Covers
  its setters, functional-option factory, capability decision, temporary-file
  allocation, concurrent and single-connection download, the two reassembly routines,
  and the session lifecycle in `operation.go` and `file.go`.
- `downloadManager` (`internal/app/downloader/downloadManager`): the intermediate
  manager. It has the same setters and the same tri-state capability table, plus its
  own temporary-file allocation.
- the root `downloadManager`: the first version. Its capability decision uses two
  booleans.

The user settings exist in two versions, `user/setting` and the root
`userSettings`. Each clamps the number of concurrent connections to [1, 64].

Layout (one Dafny module per file):

| module | models |
|---|---|
| `Common` | byte, `Option`, `Outcome` (nil error or message), `Result`, decimal text of integers, the [1, max] clamp |
| `Environment` | what the core calls but does not own: URL parsing and path functions (`Platform`), the HTTP round trip (`Transport`), the file system (`Disk`) |
| `FlagStates` | `FlagState` and its `String` |
| `Capability` | the Accept-Ranges / Content-Length decision, tri-state and legacy boolean |
| `RangePlan` | the byte-range partition of the concurrent download and its Range header |
| `TempNames` | temporary file names and the retry-until-free allocation |
| `Reassembly` | what `combineFiles` and the inline merge leave on disk |
| `ManagerModel`, `ManagerFactory`, `ManagerDownload`, `ManagerSession` | the `manager` package |
| `DmModel`, `DmFactory`, `DmDownload` | the internal `downloadManager` package |
| `LegacyModel`, `LegacyDownload` | the root `downloadManager` package |
| `UserSetting`, `SettingFactory` | `user/setting` |
| `UserSettingsModel`, `UserSettingsFactory` | the root `userSettings` |

Each mutable Go struct is a Dafny `class`. Its `State()` snapshot lets a setter say
exactly which field changes and that nothing else does. Each Go options factory is
modelled twice: as a pure fold over the option list (`Configure`), and as the loop
that runs the setters, proved equal to that fold. Methods that Go declares on a
struct in several files are module-level methods that take the receiver as their
first argument. `Initialize` in operation.go is the same code as `InitializeDownload`
in download.go, and file.go's `createTemporaryFile`, `incrementTempFileAppender` and
`appendToTempFileList` are the same code as their download.go counterparts. Each is
modelled once, in `ManagerDownload`. In contrast, download.go (lines 122-289) and
operation.go (lines 29-74) both declare `Download`, `Pause`, `Resume` and `Abort` on
`*Download` in package `manager`, so that package does not compile as it stands. The
model keeps both sets, as `ManagerDownload.*` and `ManagerSession.*`, because their
bodies do different things: the first runs the transfer and its lifecycle methods are
no-ops, while the second sets the lifecycle flags.

Range requests follow section 2.1 of RFC 7233 (byte-range specifiers `first-last`,
inclusive). The Accept-Ranges value `none` is defined in section 2.3 of RFC 7233.

## Model

Some rows are checks on a definition that Dafny accepts at once: `SetIdempotent`,
`StringInjective`, `LegacyZeroLengthPausable` and `FeatureSupportTable`. The proofs
that carry the model are these:
- the range plan partitions the content (`RangePlan.PlanPartitionsContent`), and
  fetching it gives the content back (`ManagerDownload.PlanServed`);
- the merges reassemble the parts (`Reassembly.CombineFilesReassembles`,
  `Reassembly.MergeReassembles` and `ManagerDownload.MergedParts`);
- the part-download loop keeps its invariant (`ManagerDownload.RequestParts`);
- temporary names are allocated as stated (`TempNames.NextFreeSkipsTaken`,
  `TempNames.RetrySettlesAtNextFree`);
- each factory's loop equals its fold, and the fold stops at the first failing
  option (`ConfigureStopsAtFirstFailure`).

| member | source | states |
|---|---|---|
| FlagStates.String | internal/app/downloader/manager/flag_state.go:15-28 | each of 0, 1, 2 maps to its name ("unknown", "allowed", "not allowed"), in both directions; every other value maps to "" |
| FlagStates.StringInjective | internal/app/downloader/manager/flag_state.go:15-28 | two states with the same non-empty name are equal |
| Capability.RangeSupport | internal/app/downloader/manager/download.go:85-113 | ranges are Allowed iff the length is known and positive and the first Accept-Ranges value is not "none"; Unknown iff the length is positive and the header is absent; NotAllowed otherwise |
| Capability.UnknownLengthDisables | internal/app/downloader/manager/download.go:109-113 | a content length of 0 or -1 disables ranges whatever the header says |
| Capability.LegacyFlags | downloadManager/downloadManager.go:58-73 | concurrency becomes true iff it already was or the header allows ranges; pausing iff (it already was or the header allows) and the length is not -1 |
| Capability.LegacyConcurrentMonotone | downloadManager/downloadManager.go:60-64 | the probe never turns concurrency off |
| Capability.LegacyPausedImpliesConcurrent | downloadManager/downloadManager.go:58-73 | the probe keeps "pausable only if concurrent" |
| Capability.LegacyZeroLengthPausable | downloadManager/downloadManager.go:66-73 | only -1 counts as an unknown length: a 0-length response with ranges stays pausable |
| RangePlan.GoDiv | internal/app/downloader/manager/download.go:199-201 | Go's truncating integer division stays between 0 and the dividend |
| RangePlan.PlanFrom | internal/app/downloader/manager/download.go:179-217 | the loop issues exactly one range per remaining connection |
| RangePlan.PlanFromStep | internal/app/downloader/manager/download.go:197-217 | each step takes remaining/i bytes (all remaining bytes at i = 1), from the current byte, and continues from the next byte |
| RangePlan.PlanFromEnds | internal/app/downloader/manager/download.go:179-217 | the first range starts at the loop's first byte and the last range ends at its last remaining byte |
| RangePlan.PlanFromContiguous | internal/app/downloader/manager/download.go:197-217 | every range starts at the byte after the one where the previous range ended: no gap and no overlap |
| RangePlan.PlanFromNonNegative | internal/app/downloader/manager/download.go:197-205 | for a non-negative remainder no range ends before it starts |
| RangePlan.PlanFromTotal | internal/app/downloader/manager/download.go:197-217 | the range sizes add up to the bytes that remained when the loop started |
| RangePlan.PlanFromShape | internal/app/downloader/manager/download.go:179-217 | the ranges start at the first byte, end at the last, are contiguous and non-negative in size, and their sizes sum to the content length |
| RangePlan.PlanFromSizes | internal/app/downloader/manager/download.go:199-205 | each range's size is the bytes still to fetch divided by the connections still to serve |
| RangePlan.PlanFromSizeAt | internal/app/downloader/manager/download.go:199-205 | the same size rule for one given range of the loop |
| RangePlan.PlanAdvance | internal/app/downloader/manager/download.go:179-216 | one loop iteration: issuing the next range and moving to loop index i - 1 keeps "issued ranges followed by the ranges still to issue" equal to the whole plan |
| RangePlan.PlanTiles | internal/app/downloader/manager/download.go:172-217 | for content length L ≥ 0 and n ≥ 1 connections: n ranges covering 0 to L-1 contiguously, total size L |
| RangePlan.ContiguousSpan | internal/app/downloader/manager/download.go:207-217 | contiguous ranges of non-negative size end no earlier than one byte before the first starts |
| RangePlan.ContiguousPartition | internal/app/downloader/manager/download.go:207-217 | contiguous ranges cover exactly the bytes from the first start to the last end, and no byte falls in two ranges |
| RangePlan.PlanPartitionsContent | internal/app/downloader/manager/download.go:172-217 | every byte of the content is requested by exactly one connection, and no byte outside it is requested |
| RangePlan.PlanTenThousandFour | internal/app/downloader/manager/download.go:199-211 | 10000 bytes over 4 connections give 0-2499, 2500-4999, 5000-7499, 7500-9999 |
| RangePlan.PlanShortContent | internal/app/downloader/manager/download.go:199-205 | with fewer bytes than connections (3 bytes, 4 connections) the first range is empty and each later one holds one byte |
| RangePlan.EmptyRangeHeader | internal/app/downloader/manager/download.go:208-211 | the header sent for that empty first range reads "bytes=0--1", which section 2.1 of RFC 7233 does not allow |
| TempNames.TempPath | internal/app/downloader/manager/download.go:297-301 | a temporary name extends the save path by ".temp", the counter in decimal and ".qdm", so it is never the save path itself |
| TempNames.TempPathInjective | internal/app/downloader/manager/download.go:297-301 | different counters give different temporary names |
| TempNames.TakenIndexBound | internal/app/downloader/manager/download.go:303-309 | a counter whose name is in a finite set of taken paths lies below a bound set by the longest of them, so a retry that sees only finitely many taken names ends (with a save path inside an unstatable directory it does not, see Findings) |
| TempNames.TempPathInside | internal/app/downloader/manager/download.go:296-300 | a temporary name lies inside a directory exactly when the save path does, since ".temp", the counter and ".qdm" hold no '/' |
| TempNames.RetryWithin | internal/app/downloader/manager/download.go:292-310 | the retry as written, cut off after a number of retries: a counter it settles on is above the start and its name is not reported as existing |
| TempNames.RetryNeverSettles | internal/app/downloader/manager/download.go:303-310 | when every temporary name is reported as existing, no number of retries settles |
| TempNames.SaveDirectoryIsAFile | internal/app/downloader/util/file/file.go:11-15 | a save path under a regular file, where every stat fails with ENOTDIR, makes the retry never settle |
| TempNames.RetrySettlesAtNextFree | internal/app/downloader/manager/download.go:303-309 | when the names reported as existing are those of a finite set, the retry settles, and at NextFree |
| Common.ItoaNoSlash | internal/app/downloader/manager/download.go:298 | the decimal text of a counter holds no '/' |
| TempNames.NextFree | internal/app/downloader/manager/download.go:292-311 | the counter after allocation is above the old counter and its name is free |
| TempNames.NextFreeSkipsTaken | internal/app/downloader/manager/download.go:303-309 | every counter skipped between the old counter and the chosen one names an existing file, so the chosen counter is the first free one |
| TempNames.NextFreeRetry | internal/app/downloader/manager/download.go:303-309 | when the next counter's name exists, the recursive retry from that counter chooses the same name, and the retry stays below a bound set by the longest existing path |
| TempNames.NextFreeImmediate | internal/app/downloader/manager/download.go:293-305 | when the next counter's name is free, allocation takes it without retrying |
| TempNames.FirstAllocation | internal/app/downloader/manager/download.go:292-301 | a fresh session with no temporary files on disk allocates ".temp1.qdm" |
| Reassembly.AppendAll | internal/app/downloader/manager/file.go:84-98 | appending the other parts to the first part changes no file name |
| Reassembly.AppendAllConcatenates | internal/app/downloader/manager/file.go:77-98 | the first part ends up holding its own bytes followed by every other part in list order; nothing else changes |
| Reassembly.CombinedReassembles | internal/app/downloader/manager/file.go:68-119 | after a full combine the save path holds the parts concatenated in order; the parts are gone; other files are untouched |
| Reassembly.AppendStage | internal/app/downloader/manager/file.go:84-98 | the copy loop never creates or deletes a file and only grows the first part; when it completes, the result is AppendAll |
| Reassembly.RemoveStage | internal/app/downloader/manager/file.go:109-114 | the deletion loop only removes files; when it completes, exactly the listed parts are gone |
| Reassembly.CombineRun | internal/app/downloader/manager/file.go:68-119 | success means a non-empty list of present parts and the combined layout; a failure before the rename leaves all files present and only the first part changed |
| Reassembly.CombineFilesReassembles | internal/app/downloader/manager/file.go:68-119 | a successful combineFiles leaves the save file equal to the parts in order, with the parts removed |
| Reassembly.AppendStageSucceeds | internal/app/downloader/manager/file.go:84-98 | the copy loop completes when every part is present, readable and openable |
| Reassembly.RemoveStageSucceeds | internal/app/downloader/manager/file.go:109-114 | the deletion loop completes when every part is present, distinct and removable |
| Reassembly.CombineFilesSucceeds | internal/app/downloader/manager/file.go:68-119 | combineFiles succeeds whenever the parts are present, distinct, readable and writable and the save path is writable |
| Reassembly.MergeReassembles | internal/app/downloader/manager/download.go:248-266 | the inline merge leaves the save file holding its old bytes followed by every part in order, and removes exactly the parts |
| Reassembly.MergeSomeNotDenied | internal/app/downloader/manager/download.go:253-257 | a merge that completes opened every listed part, so none of them is a path that cannot be opened |
| Common.Clamp | internal/app/downloader/user/setting/setting.go:27-49 | the stored count is always in [1, max]; an in-range count is kept, a larger one becomes max, a smaller one 1 |
| ManagerModel.CheckDownloadURL | internal/app/downloader/manager/model.go:64-77 | an empty URL is refused with "download URL is empty"; any other URL is whatever parsing returns |
| ManagerModel.CheckMaxNrOfConcurrentConnection | internal/app/downloader/manager/model.go:86-98 | accepted iff 1 ≤ n ≤ 64 |
| ManagerModel.CheckSaveDirectory | internal/app/downloader/manager/model.go:107-122 | accepted iff non-empty and the trimmed, cleaned path exists |
| ManagerModel.CleanFileName | internal/app/downloader/manager/model.go:130-152 | accepted iff non-empty and its cleaned form has no '/'; the value is the cleaned form |
| ManagerModel.ChooseSaveFileName | internal/app/downloader/manager/model.go:194-202 | the save file name wins, then the default name; both empty is "save file name not set" |
| ManagerModel.Download.constructor | internal/app/downloader/manager/factory.go:8 | a new session has every field at its zero value |
| ManagerModel.Download.SetDownloadURL | internal/app/downloader/manager/model.go:64-77 | stores the parsed URL on success; an error changes nothing |
| ManagerModel.Download.SetMaxNrOfConcurrentConnection | internal/app/downloader/manager/model.go:86-98 | stores the count iff it is in [1, 64]; otherwise nothing changes |
| ManagerModel.Download.SetSaveDirectory | internal/app/downloader/manager/model.go:107-122 | stores the directory as given iff it passes the check; otherwise nothing changes |
| ManagerModel.Download.SetFileName | internal/app/downloader/manager/model.go:130-152 | stores the cleaned name iff it is acceptable |
| ManagerModel.Download.SetSaveFileName | internal/app/downloader/manager/model.go:157-166 | after a passing check, stores the name as given, not the cleaned one |
| ManagerModel.Download.SetDefaultFileName | internal/app/downloader/manager/model.go:174-183 | after a passing check, the cleaned name becomes the save file name and the raw name the default |
| ManagerModel.Download.SetSaveFullPath | internal/app/downloader/manager/model.go:193-212 | with no usable name, fails and changes nothing; otherwise stores the join and fails only on an empty join |
| ManagerModel.Download.SetFileSize | internal/app/downloader/manager/model.go:220-224 | sets the one field and returns nil |
| ManagerModel.Download.SetIsPausedAllowed | internal/app/downloader/manager/model.go:231-235 | sets the one field and returns nil |
| ManagerModel.Download.SetIsConcurrentConnectionAllowed | internal/app/downloader/manager/model.go:242-246 | sets the one field and returns nil |
| ManagerModel.Download.SetIsDownloadInitialized | internal/app/downloader/manager/model.go:253-257 | sets the one field and returns nil |
| ManagerModel.Download.SetIsDownloadStarted | internal/app/downloader/manager/model.go:264-268 | sets the one field and returns nil |
| ManagerModel.Download.SetIsDownloadRunning | internal/app/downloader/manager/model.go:275-279 | sets the one field and returns nil |
| ManagerModel.Download.SetIsDownloadCompleted | internal/app/downloader/manager/model.go:286-290 | sets the one field and returns nil |
| ManagerModel.Download.SetTempFileNameAppender | internal/app/downloader/manager/model.go:292-296 | sets the one field and returns nil |
| ManagerModel.Download.SetTempFileList | internal/app/downloader/manager/model.go:298-302 | replaces the list and returns nil |
| ManagerModel.Download.SetCtx | internal/app/downloader/manager/model.go:304-314 | sets the context (its cancel function included) and returns nil |
| ManagerModel.Download.SetResponse | internal/app/downloader/manager/model.go:316-320 | sets the one field and returns nil |
| ManagerFactory.ApplyOption | internal/app/downloader/manager/factory.go:30-55 | each option delegates to its setter: the count option is accepted iff it is in range, the file-name option iff its name is acceptable; no option touches the full path or the default name |
| ManagerFactory.ConfigureStopsAtFirstFailure | internal/app/downloader/manager/factory.go:10-16 | the first failing option's error is the factory's result, whatever follows it |
| ManagerFactory.ConfigureKeepsNames | internal/app/downloader/manager/factory.go:10-16 | the options never set a default name, and without a file-name option the name stays empty |
| ManagerFactory.NoSaveFileNameFails | internal/app/downloader/manager/factory.go:18-22 | without a SaveFileName option, NewDownload always fails |
| ManagerFactory.NewDownloadJoinsPath | internal/app/downloader/manager/factory.go:7-25 | a successful NewDownload has a non-empty file name and a non-empty full path that joins the directory and the name |
| ManagerFactory.RunOption | internal/app/downloader/manager/factory.go:10-16 | running one option on a session has the effect of ApplyOption on its state |
| ManagerFactory.NewDownload | internal/app/downloader/manager/factory.go:7-25 | returns a fresh session whose state is the fold of the options, or nil and the first error |
| ManagerDownload.SendHTTPRequest | internal/app/downloader/manager/download.go:39-74 | installs a new context; stores the response exactly when the request succeeds; otherwise returns its error |
| ManagerDownload.ProcessRequestHeader | internal/app/downloader/manager/download.go:76-119 | sets both the concurrency flag and the pause flag to RangeSupport of the response, and nothing else |
| ManagerDownload.SetRangeFlags | internal/app/downloader/manager/download.go:94-112 | the concurrency flag and the pause flag both get the same state and nothing else changes |
| ManagerDownload.InitializeDownload | internal/app/downloader/manager/download.go:20-37 | refused while running; otherwise probes, and on success sets both flags to RangeSupport and marks the session initialized |
| ManagerDownload.IncrementTempFileAppender | internal/app/downloader/manager/download.go:328-330 | the counter goes up by one; nothing else changes |
| ManagerDownload.AppendToTempFileList | internal/app/downloader/manager/download.go:332-334 | the path is appended to the list; nothing else changes |
| ManagerDownload.CreateTemporaryFile | internal/app/downloader/manager/download.go:292-326 | for a save path outside every unstatable directory (the condition under which the recursion ends), the counter becomes NextFree over the listed files and stat faults; the new path is created empty and listed, unless it cannot be opened, when nothing is created or listed |
| ManagerDownload.CreateListedFile | internal/app/downloader/manager/download.go:316-325 | a free path is created empty and appended to the list, or on an open error nothing is created or listed |
| ManagerDownload.StartAtomicDownload | internal/app/downloader/manager/download.go:144-169 | the body lands in the one newly allocated temporary file, which is listed; the result is the body's read error |
| ManagerDownload.PartSessionShape | internal/app/downloader/manager/download.go:181-185 | a part session has the parent's URL parsed again, its directory and file name, one connection, no temporary files and the save path Join(directory, name) |
| ManagerDownload.PartSessionBuildsIff | internal/app/downloader/manager/download.go:181-188 | NewDownload with the part options succeeds exactly when the parent's directory exists, its file name is clean, its URL parses and Join(directory, name) is not empty |
| ManagerDownload.MergeTempFiles | internal/app/downloader/manager/download.go:248-266 | truncates the save file and then appends every listed part, removing each; succeeds iff every step does, and the result is MergeRest |
| ManagerDownload.FetchPart | internal/app/downloader/manager/download.go:181-237 | succeeds exactly when the part session builds, its first free temporary name (counter from 0, for the parent's Join(directory, name)) can be created and the ranged request gets a response; then that name is a new file holding the response body and no other file changes; on failure at most that name is left behind, empty |
| ManagerDownload.DownloadPart | internal/app/downloader/manager/download.go:181-240 | one loop iteration: the disk changes as FetchPart says; on success exactly that part file is added to the parent's list; on failure the parent is unchanged |
| ManagerDownload.RequestPart | internal/app/downloader/manager/download.go:196-240 | one iteration at index i takes BytesToGet bytes from the current byte; a failure leaves the loop's progress as it was, a success moves it on by that range and its new part file |
| ManagerDownload.PartProgressStep | internal/app/downloader/manager/download.go:196-240 | the loop's progress (plan prefix, parent's list, part files and their bodies) carries across one DownloadPart |
| ManagerDownload.PartsOnDiskStep | internal/app/downloader/manager/download.go:191-237 | a part download keeps the listed part files as they were and, on success, adds one new distinct part file holding its range's body |
| ManagerDownload.PartsOnDiskAdd | internal/app/downloader/manager/download.go:191-240 | a new file, neither listed nor the save path, holding its range's body extends the listed parts and the set of files by exactly that file |
| ManagerDownload.PartsOnDiskKeep | internal/app/downloader/manager/download.go:186-213 | a failed part that leaves every existing file as it was keeps the listed parts' contents |
| ManagerDownload.RequestParts | internal/app/downloader/manager/download.go:179-241 | the loop requests the ranges of Plan in order, stopping at the first failure, and lists one part file per range; the part files are distinct, new, never the save path, each holds its range's response body, every earlier file is unchanged, and on success no other file appears |
| ManagerDownload.StartConcurrentDownload | internal/app/downloader/manager/download.go:172-269 | the ranges requested are a prefix of Plan (all of it on success) and one part file per range is listed; for a session whose list starts empty and whose save path is Join(directory, name), a success with readable parts leaves the save file holding the parts' bodies in plan order, the parts removed and every other file unchanged |
| ManagerDownload.MergeParts | internal/app/downloader/manager/download.go:243-266 | the merge after the loop: when the session lists exactly the part files RequestParts left, a success with readable parts leaves the save file holding their bodies in order, removes them and keeps every other earlier file |
| ManagerDownload.MergedParts | internal/app/downloader/manager/download.go:248-266 | merging the part files of RequestParts into the save path gives PartBodies of the requested ranges, removes the parts and keeps every other earlier file |
| ManagerDownload.ContentsOfParts | internal/app/downloader/manager/download.go:224-240 | part files holding their ranges' bodies concatenate to PartBodies of those ranges |
| ManagerDownload.ServedRangesJoin | internal/app/downloader/manager/download.go:196-217 | contiguous non-negative ranges fetched from a server that serves a byte sequence give back the slice from the first start to the last end |
| ManagerDownload.PlanServed | internal/app/downloader/manager/download.go:179-241 | fetching every range of Plan(length of content, n) from a server that serves the content gives back the content exactly |
| ManagerDownload.Download | internal/app/downloader/manager/download.go:122-141 | refused once started; otherwise marks it started and goes concurrent exactly when ranges are Allowed and more than one connection is set |
| ManagerDownload.Pause | internal/app/downloader/manager/download.go:277-279 | returns nil |
| ManagerDownload.Resume | internal/app/downloader/manager/download.go:282-284 | returns nil |
| ManagerDownload.Abort | internal/app/downloader/manager/download.go:287-289 | returns nil |
| ManagerSession.CreatePlaceHolderFile | internal/app/downloader/manager/file.go:52-57 | truncates or creates the save file unless it cannot be opened |
| ManagerSession.CombineFiles | internal/app/downloader/manager/file.go:68-119 | an empty list fails with "must have at least 1 temporary file"; the disk ends as CombineRun says; a failed rename aborts the session, and nothing else changes it |
| ManagerSession.CopyRest | internal/app/downloader/manager/file.go:84-98 | the copy loop's effect on disk is AppendStage |
| ManagerSession.RemoveRest | internal/app/downloader/manager/file.go:109-114 | the deletion loop's effect on disk is RemoveStage |
| ManagerSession.Download | internal/app/downloader/manager/operation.go:29-53 | refused once started; otherwise marks it started, creates the placeholder, then launches a concurrent fetch when ranges are not refused and more than one connection is set, and always a single-connection fetch |
| ManagerSession.Pause | internal/app/downloader/manager/operation.go:56-60 | marks the session not running |
| ManagerSession.Resume | internal/app/downloader/manager/operation.go:63-67 | marks the session running |
| ManagerSession.Abort | internal/app/downloader/manager/operation.go:70-74 | cancels the context, marks the session aborted and not running |
| ManagerSession.Complete | internal/app/downloader/manager/operation.go:77-80 | marks the session completed and not running |
| DmModel.CheckDownloadUrl | internal/app/downloader/downloadManager/downloadManagerModel.go:50-63 | an empty URL is refused; any other URL is whatever parsing returns |
| DmModel.CheckNrOfConcurrentDownload | internal/app/downloader/downloadManager/downloadManagerModel.go:69-81 | accepted iff 1 ≤ n ≤ 64 |
| DmModel.CheckSaveDirectory | internal/app/downloader/downloadManager/downloadManagerModel.go:87-107 | accepted iff non-empty and the trimmed, cleaned path exists; the cleaned path is stored |
| DmModel.CheckSaveFileName | internal/app/downloader/downloadManager/downloadManagerModel.go:113-136 | refused when empty, when the cleaned name has '/', or when it names an existing file; the cleaned name is stored |
| DmModel.DownloadManager.constructor | internal/app/downloader/downloadManager/downloadManagerFactory.go:6 | a new manager has every field at its zero value |
| DmModel.DownloadManager.SetDownloadUrl | internal/app/downloader/downloadManager/downloadManagerModel.go:50-63 | stores the parsed URL on success; an error changes nothing |
| DmModel.DownloadManager.SetNrOfConcurrentDownload | internal/app/downloader/downloadManager/downloadManagerModel.go:69-81 | stores the count iff it is in [1, 64] |
| DmModel.DownloadManager.SetSaveDirectory | internal/app/downloader/downloadManager/downloadManagerModel.go:87-107 | stores the cleaned directory iff it passes the check |
| DmModel.DownloadManager.SetSaveFileName | internal/app/downloader/downloadManager/downloadManagerModel.go:113-136 | stores the cleaned name iff it passes the check |
| DmModel.DownloadManager.SetSaveFullPath | internal/app/downloader/downloadManager/downloadManagerModel.go:142-151 | stores the join of directory and name; fails only when the join is empty |
| DmModel.DownloadManager.SetCtx | internal/app/downloader/downloadManager/downloadManagerModel.go:157-171 | sets the context (its cancel function included) and returns nil |
| DmModel.DownloadManager.SetResponse | internal/app/downloader/downloadManager/downloadManagerModel.go:177-181 | sets the one field and returns nil |
| DmModel.DownloadManager.SetFileSize | internal/app/downloader/downloadManager/downloadManagerModel.go:187-191 | sets the one field and returns nil |
| DmModel.DownloadManager.SetIsPausedAllowed | internal/app/downloader/downloadManager/downloadManagerModel.go:197-201 | sets the one field and returns nil |
| DmModel.DownloadManager.SetIsConcurrentAllowed | internal/app/downloader/downloadManager/downloadManagerModel.go:207-211 | sets the one field and returns nil |
| DmModel.DownloadManager.IncrementTempAppender | internal/app/downloader/downloadManager/downloadManagerModel.go:217-221 | the counter goes up by one and nil is returned |
| DmModel.DownloadManager.SetTempFileList | internal/app/downloader/downloadManager/downloadManagerModel.go:227-231 | appends one name to the list and returns nil |
| DmModel.DownloadManager.SetIsDownloadStarted | internal/app/downloader/downloadManager/downloadManagerModel.go:237-241 | sets the one field and returns nil |
| DmModel.DownloadManager.SetIsDownloadRunning | internal/app/downloader/downloadManager/downloadManagerModel.go:247-251 | sets the one field and returns nil |
| DmModel.DownloadManager.SetIsDownloadComplete | internal/app/downloader/downloadManager/downloadManagerModel.go:257-261 | sets the one field and returns nil |
| DmFactory.ApplyOption | internal/app/downloader/downloadManager/downloadManagerFactory.go:25-47 | each option is accepted iff its setter's check passes, and none touches the full path |
| DmFactory.ConfigureStopsAtFirstFailure | internal/app/downloader/downloadManager/downloadManagerFactory.go:8-14 | the first failing option's error is the factory's result |
| DmFactory.ConfigureKeepsSavePath | internal/app/downloader/downloadManager/downloadManagerFactory.go:8-14 | the options leave the full path as it was |
| DmFactory.ConfigureKeepsLast | internal/app/downloader/downloadManager/downloadManagerFactory.go:8-15 | after a successful run of the options, the directory and file name are the cleaned values of the last SaveDirectory and SaveFileName options, or the starting ones when there is none |
| DmFactory.NewDownloadManagerSavesLast | internal/app/downloader/downloadManager/downloadManagerFactory.go:5-23 | a returned manager saves to the last directory and file name the options set (empty without one), and its full path is their non-empty join |
| DmFactory.RunOption | internal/app/downloader/downloadManager/downloadManagerFactory.go:8-14 | running one option has the effect of ApplyOption |
| DmFactory.NewDownloadManager | internal/app/downloader/downloadManager/downloadManagerFactory.go:5-23 | returns a fresh manager whose state is the factory's result, or nil and the first error |
| DmDownload.FeatureSupport | internal/app/downloader/downloadManager/downloadManager.go:66-93 | the intermediate manager's tri-state decision is the same as the current one's |
| DmDownload.FeatureSupportTable | internal/app/downloader/downloadManager/downloadManager.go:66-93 | the four cases of the decision table, one by one |
| DmDownload.InitializeDownload | internal/app/downloader/downloadManager/downloadManager.go:35-98 | installs a context; on success stores the response and sets both flags to FeatureSupport; an error leaves the flags |
| DmDownload.RetrieveDownloadDetails | internal/app/downloader/downloadManager/downloadManager.go:17-33 | refused once started; otherwise it is InitializeDownload |
| DmDownload.CreateTemporaryFile | internal/app/downloader/downloadManager/downloadManager.go:172-202 | for a save path outside every unstatable directory, the counter becomes NextFree over the listed files and stat faults and the temporary name is listed, but the file opened and returned is the save path itself |
| DmDownload.OpenSaveFileAndList | internal/app/downloader/downloadManager/downloadManager.go:192-201 | the save path is opened (created if missing, never truncated) and on success the temporary name is listed; on failure nothing changes |
| DmDownload.StartAtomicDownload | internal/app/downloader/downloadManager/downloadManager.go:121-137 | the body is written over the start of the save file, a temporary name is listed, and the result is the body's read error |
| DmDownload.StartConcurrentDownload | internal/app/downloader/downloadManager/downloadManager.go:139-166 | returns nil |
| DmDownload.Download | internal/app/downloader/downloadManager/downloadManager.go:101-119 | always sets concurrency to NotAllowed first; refused once started; otherwise marks it started and takes the single-connection path |
| LegacyModel.CheckDownloadUrl | downloadManager/downloadManagerModel.go:36-49 | an empty URL is refused; any other URL is whatever parsing returns |
| LegacyModel.CheckNrOfConcurrentDownload | downloadManager/downloadManagerModel.go:55-67 | accepted iff 1 ≤ n ≤ 64 |
| LegacyModel.CheckSaveDirectory | downloadManager/downloadManagerModel.go:73-93 | accepted iff non-empty and the trimmed path with OS separators exists; that path is stored |
| LegacyModel.CheckSaveFileName | downloadManager/downloadManagerModel.go:99-121 | refused when its slash form has '/' or names an existing file; the slash form is stored |
| LegacyModel.DownloadManager.constructor | downloadManager/downloadManagerModel.go:18-30 | a new manager has every field at its zero value |
| LegacyModel.DownloadManager.SetDownloadUrl | downloadManager/downloadManagerModel.go:36-49 | stores the parsed URL on success; an error changes nothing |
| LegacyModel.DownloadManager.SetNrOfConcurrentDownload | downloadManager/downloadManagerModel.go:55-67 | stores the count iff it is in [1, 64] |
| LegacyModel.DownloadManager.SetSaveDirectory | downloadManager/downloadManagerModel.go:73-93 | stores the converted directory iff it passes the check |
| LegacyModel.DownloadManager.SetSaveFileName | downloadManager/downloadManagerModel.go:99-121 | stores the converted name iff it passes the check |
| LegacyModel.DownloadManager.SetSaveFullPath | downloadManager/downloadManagerModel.go:127-136 | stores the join; fails only when the join is empty |
| LegacyDownload.InitializeDownload | downloadManager/downloadManager.go:35-76 | installs a context; on a failed request the model clears the response and leaves the flags alone; otherwise the flags become LegacyFlags |
| LegacyDownload.StartConcurrentDownload | downloadManager/downloadManager.go:78-105 | returns nil |
| LegacyDownload.Download | downloadManager/downloadManager.go:19-33 | fails exactly when the probe does; on failure only the context changes and the model clears the response; on success the response is kept and the flags follow LegacyFlags; keeps "pausable only if concurrent" |
| UserSetting.ClampError | internal/app/downloader/user/setting/setting.go:27-49 | the setter returns nil exactly for a count in [1, 64] |
| UserSetting.SetIdempotent | internal/app/downloader/user/setting/setting.go:27-49 | storing the stored value again succeeds and changes nothing |
| UserSetting.Setting.SetNrOfConcurrentConnection | internal/app/downloader/user/setting/setting.go:27-49 | stores the clamped count and reports the out-of-range input |
| SettingFactory.ConfigureResult | internal/app/downloader/user/setting/factory.go:6-16 | NewSetting succeeds iff every option is in range; the count is then the last option's, or 0 with no options |
| SettingFactory.ConfigureFirstError | internal/app/downloader/user/setting/factory.go:9-13 | the first out-of-range option's error is the result |
| SettingFactory.NewSetting | internal/app/downloader/user/setting/factory.go:6-16 | a fresh setting with the options' count, or nil and the first error |
| UserSettingsModel.ClampError | userSettings/userSettingsModel.go:19-39 | the setter returns nil exactly for a count in [1, 64] |
| UserSettingsModel.SetIdempotent | userSettings/userSettingsModel.go:19-39 | storing the stored value again succeeds and changes nothing |
| UserSettingsModel.UserSettings.SetNrOfConcurrentDownload | userSettings/userSettingsModel.go:19-39 | stores the clamped count and reports the out-of-range input |
| UserSettingsFactory.ConfigureResult | userSettings/userSettingsFactory.go:5-17 | NewUserSettings succeeds iff every option is in range; the count is then the last option's, or 0 with no options |
| UserSettingsFactory.ConfigureFirstError | userSettings/userSettingsFactory.go:8-14 | the first out-of-range option's error is the result |
| UserSettingsFactory.NewUserSettings | userSettings/userSettingsFactory.go:5-17 | fresh settings with the options' count, or nil and the first error |

## Left out

- HTTP: building the request, its headers other than Range, and the client round trip are one `Transport` function from (URL, Range) to a response or an error. A request-construction error is indistinguishable from a transport error.
- `sendHTTPRequest` is modelled even though it is mostly HTTP plumbing. Its effect on the session (a new context; a response stored only on success) is what the probe and the concurrent loop depend on.
- Contexts: `context.WithCancel` and the cancel function are a three-valued `ContextState`. Cancellation does not interrupt transfers.
- Goroutines and `sync.WaitGroup` in StartConcurrentDownload are not modelled: each part's body is written before the next range is requested. The source calls `wg.Add` inside the goroutine, so `wg.Wait` may return before the writes finish; that race is not modelled, and the merge sees every part complete.
- `io.Copy` from a response body (`Disk.WriteBody`) writes every byte the body delivers and then reports the read error, if any. `io.Copy` between files (`Disk.Copy`) writes nothing when the source cannot be read; partial copies between files are not modelled.
- ManagerDownload.StartConcurrentDownload: the float64 round trip in `math.Floor(float64(contentLength / int64(i)))` is the integer quotient; float rounding for lengths above 2^53 is not modelled.
- ManagerDownload.MergeTempFiles: the panics on a failed open in download.go (lines 250 and 256) are a `Fail` result. A part that can be opened can also be removed, so the removal failure that the source only logs does not arise.
- `internal/app/downloader/utils/file`, imported by downloadManagerModel.go, is not part of this model. Its `IsFileExist` is taken to be the one in `internal/app/downloader/util/file/file.go`: `Disk.IsFileExist`, where a stat error other than "not exist" counts as existing: the single paths in `statFails`, and every path inside a directory of `unstatableDirs`.
- `filepath.Clean`, `filepath.Join`, `filepath.ToSlash`, `filepath.FromSlash`, `strings.TrimSpace` and `url.Parse` are uninterpreted functions of `Platform`. Only their use by the core is modelled.
- Integer widths: Go's `int` and `int64` counts are unbounded integers. The counter of temporary names never gets near overflow, since allocation stops at the first free name.
- Nil dereferences: operations that read `d.response` or `d.downloadURL` require them to be set (a nil pointer in Go panics).
- ManagerSession.CombineFiles: requires a context when the rename can fail, because `Abort` calls the stored cancel function, which is nil before any request.
- ManagerSession.Download: operation.go calls the unexported `startConcurrentDownload` and `startAtomicDownload`, which the package does not define. The model returns the fetches launched as the `launched` list instead of running them.
- `user/setting/setting.go` names `downloadManager.MaxNrOfConcurrentConnection`, which that package does not declare; the model uses that package's maximum of 64.
- `String`, `Debug*`, getters and `StreamData` (a stub returning nil) are not modelled; apart from `FlagState.String` they print or return fields.
- ManagerDownload.Download: `concurrent` only says which path was taken; the effect of each path is given by the contracts of StartConcurrentDownload and StartAtomicDownload.
- ManagerDownload.StartConcurrentDownload: the save file's content is stated only for a session whose temporary list starts empty, whose save path is Join(directory, name) as NewDownload sets it, and whose part files can all be read; otherwise the merge is as MergeTempFiles states.
- DmDownload.Download: states the flags, the start mark and the counter; the disk effect is that of StartAtomicDownload.
- Directories: `Disk` does not tell a directory from a file; both are keys of `files`. Opening, copying onto or renaming onto a directory, which fails in Go, fails in the model only when that path is in `denied`, so a disk that holds directories must list them there.
- LegacyDownload.InitializeDownload: the model's Transport returns a response or an error, never both, so a failed request always clears the response. Go's `Client.Do` can return a response together with an error (after too many redirects), which the source then stores. A `NewRequestWithContext` error, after which the source returns and keeps the previous response, is folded into the transport error that clears it.
- TempNames.NextFree: `ENAMETOOLONG` and other path-length limits are not modelled. With them, every temporary name beyond the length limit would count as existing, and the retry would not end once no shorter name is free.
- ManagerDownload.RequestParts: requires the parent's Join(directory, name) to lie outside every unstatable directory whenever the loop runs, including the case where the part session would fail to build and the source's loop ends without recursing. ManagerDownload.DownloadPart and ManagerDownload.RequestPart, its one-iteration steps, require the same; FetchPart requires it only when the part session builds.

## Findings

| source | as written | input that shows it | evidently intended | confidence | as-written member | corrected member |
|---|---|---|---|---|---|---|
| internal/app/downloader/manager/download.go:303-310 | the temporary-name retry recurses until IsFileExist reports a name as free, and IsFileExist counts every stat error other than "not exist" as existing; internal/app/downloader/downloadManager/downloadManager.go lines 182-187 and internal/app/downloader/manager/file.go lines 26-31 retry the same way | a save directory that is a regular file, which CheckSaveDirectory accepts because it exists: every "<file>/<name>.temp<k>.qdm" stats with ENOTDIR, so no counter is ever free and the recursion never ends | the retry stops at the first counter whose name is really free, which exists whenever only finitely many names are taken | not executed | TempNames.RetryNeverSettles, TempNames.SaveDirectoryIsAFile | ManagerDownload.CreateTemporaryFile, TempNames.RetrySettlesAtNextFree |
