# GEF job-execution core in Dafny

This project models the job-execution core of the EUDAT Generic Execution
Framework (GEF) back end. GEF turns Docker images that describe their inputs
and outputs in `eudat.gef.service.*` labels into services. It runs each
service as a job: the input is staged into a fresh volume, the service runs
against an output volume, and the job's state is tracked in an in-memory
registry.

The model has these parts:

- **`GoStrings` / `GoStrconv`** (`gostrings.dfy`, `gostrconv.dfy`): the Go
  library behaviour the core depends on.
  - `strings.Split`, which never returns an empty slice.
  - `HasPrefix` and `TrimSpace` (with `unicode.IsSpace`).
  - Go's `<` on strings.
  - `strconv.Atoi`.
  - `strconv.ParseUint(s, 10, 8)`: its value is used even on error. It is 0 on a syntax error and 255 on overflow.
  - `%d` formatting.
  - 64-bit `int` wrap-around.
- **`Db`** (`db.dfy`): the service-label parser of `backend-docker/pier/db/db.go`. The label loop and
  `addVecValue` are methods proved equal to specification functions. Go's map iteration order is a parameter:
  any duplicate-free enumeration of the label keys. Also the field copies
  between job and service records and their database rows.
- **`Dckr` / `DckrImages`** (`dckr.dfy`): the Docker client helpers of
  `backend-docker/dckr/dckr.go`.
  - `Config.String`.
  - The engine version gate.
  - `NewClient`, and `NewClientFirstOf` with its diagnostic buffer.
  - `makeImage` / `makeImage2`.
  - The build-log scan.
  - `BuildImage` with its reconnect, on a `Client` class whose connection field is reassigned.
  - The container clean-up rules of `ExecuteImage` and `WaitContainer`, over an `Engine` class holding the set of live containers.

  Every engine call is replaced by the engine's reply, passed in as a
  parameter. A nil `*docker.Client` or nil `*docker.Image` that the Go code
  would dereference becomes an explicit outcome (`NilClientDereference`, `NilImageDereference`).
- **`LegacyDckr`** (`legacy_dckr.dfy`): the older copy `dckr/dckr.go`. Its
  version gate, `Config.String`, `NewClientFirstOf` and build-log scan are
  the same text as the newer copy and share the `Dckr`/`DckrImages` members.
  What differs is modelled here:
  - its `InspectImage` keeps the engine's ID even on error;
  - its `BuildImage` can dereference a nil image;
  - its `ExecuteImage` leaves the container behind when start fails.
- **`Jobs`** (`job.dfy`): the job registry of `backend-docker/pier/job.go`.
  - A `JobList` class over a `map` from job ID to job, with upsert, lookup, and a listing.
  - The listing copies the map into an array and sorts it in place by ID.
  - It is proved to hold every cached job exactly once, in strictly ascending ID order.
- **`Pier`** (`pier.dfy`): the orchestrator of `backend-docker/pier/pier.go`.
  - `runJob` is specified by a function over the engine's scripted replies, `Pipeline`. The method `Pier.RunJob` is proved to make exactly those engine calls and to leave exactly that state in the registry.
  - The lemmas state the order of the steps, that the first failure ends the job, the terminal statuses, and the volume binds.
  - Also modelled: `NewPier`'s staging-image selection, `BuildService`, `GetService`, `GetJob`, `ListJobs` and `RunService`.

Behaviour the proofs make explicit:

- **Exit codes do not produce an `Error` status.** A job whose staging or service container exits with a nonzero code does not end in the `Error` state. The code writes a descriptive status and a nil error: `Data staging failed (exitCode = N)` or `Service failed (exitCode = N)`. The model follows the code (`Pier.NonzeroExitStatus`, `Pier.ErrorIffErrorStatus`).
- **The version gate** computes `major*1000+minor` in 64-bit ints and does not bound the minor number.
  - `0.1006` is accepted.
  - A major version of 9223372036854776 wraps to a negative value and is rejected.
- **A reconnect can install a nil client.** Suppose the connection is lost after a build and the configuration is Boot2Docker with `DOCKER_HOST` now empty. Then `NewClient` returns no client and no error. `BuildImage` installs the nil client and dereferences it (`DckrImages.EmptyBoot2DockerReconnectDereferencesNil`).
- **Two checks can never fire:**
  - the `len(ks) == 0` test in the label loop, because `Split` never returns an empty slice;
  - the `err != nil && img.ID == ""` test in `BuildImage`, because `err` is always nil there.

  Neither has a counterpart in the model.

## Model

| member | source | states |
|---|---|---|
| GoStrings.Split | backend-docker/pier/db/db.go:466-469 | the result is never empty and no piece contains the separator, so the `len(ks) == 0` branch is dead |
| GoStrings.JoinSplit | backend-docker/pier/db/db.go:466 | joining the pieces of a split restores the key |
| GoStrings.TrimSpace | backend-docker/dckr/dckr.go:235 | the result is an infix of the line with only white space removed on either side, and starts and ends with non-space |
| GoStrings.LexLessTotal | backend-docker/pier/job.go:43-45 | two different IDs are always ordered one way or the other by `<` |
| GoStrings.LexLessTransitive | backend-docker/pier/job.go:43-45 | the ID order is transitive |
| GoStrconv.ParseUint8 | backend-docker/pier/db/db.go:515-518 | the port index used is at most 255 whatever the key says |
| GoStrconv.ParseUint8Exact | backend-docker/pier/db/db.go:515 | a decimal index of at most 255 parses to its value |
| GoStrconv.ParseUint8Saturates | backend-docker/pier/db/db.go:515-518 | once the digits read exceed 255 the index is 255, whatever follows, and the error is ignored |
| GoStrconv.ParseUint8SyntaxError | backend-docker/pier/db/db.go:515-518 | a non-digit reached before overflow makes the index 0, and the error is ignored |
| GoStrconv.NatToString | backend-docker/pier/db/db.go:490 | `%d` yields the shortest decimal digits of the number |
| GoStrconv.AtoiIntToString | backend-docker/dckr/dckr.go:145-152 | Atoi reads back every 64-bit int that `%d` prints |
| Db.WithPortValue | backend-docker/pier/db/db.go:510-528 | a key with fewer than two segments leaves the ports alone; otherwise the array is padded with empty ports up to the parsed index, only that index changes, and only a `name` or `path` field is set |
| Db.AddVecValue | backend-docker/pier/db/db.go:510-528 | the one-port-at-a-time growing loop computes exactly WithPortValue |
| Db.ServiceFromImage | backend-docker/pier/db/db.go:452-508 | identity fields come from the image and the given ID; every surviving port has a non-empty path and the port at position i is named `input<i>` / `output<i>` |
| Db.NewServiceFromImage | backend-docker/pier/db/db.go:452-508 | the label loop followed by the two filter loops yields ServiceFromImage for the given iteration order |
| Db.RenumberPorts | backend-docker/pier/db/db.go:486-505 | the append loop keeps the ports with a path and numbers them by output position |
| Db.RenumberedNumbersFilter | backend-docker/pier/db/db.go:486-505 | the renumbered ports are exactly the ports with a path, in order, the one at position i renamed `<kind><i>` |
| Db.ApplyLabelsKeepsImageFields | backend-docker/pier/db/db.go:453-484 | no label changes the ID, image ID, repo tag, creation time or size |
| Db.ForeignLabelIgnored | backend-docker/pier/db/db.go:461-464 | adding a label outside `eudat.gef.service.` anywhere in the iteration leaves the derived service unchanged |
| Db.PrefixedLabel | backend-docker/pier/db/db.go:461-466 | a label under `eudat.gef.service.` is applied by the dot-separated parts of the rest of its key |
| Db.ScalarLabelsSetTheirField | backend-docker/pier/db/db.go:470-476 | `name`, `description` and `version` labels set exactly that field and nothing else |
| Db.UnknownSegmentIgnored | backend-docker/pier/db/db.go:481-482 | an unknown first segment after the prefix leaves the service unchanged |
| Db.ShortPortKeyIgnored | backend-docker/pier/db/db.go:511-514 | an `input`/`output` key without both an index and a field changes nothing |
| Db.InputPortLabel | backend-docker/pier/db/db.go:477-478 | `input.<index>.<field>` changes only the input ports, through addVecValue |
| Db.OutputPortLabel | backend-docker/pier/db/db.go:479-480 | `output.<index>.<field>` changes only the output ports, through addVecValue |
| Db.UnknownPortFieldOnlyGrows | backend-docker/pier/db/db.go:519-527 | a field other than `name`/`path` still grows the array to index+1 with empty ports but sets nothing |
| Db.RawPortsBounded | backend-docker/pier/db/db.go:515-521 | since the index is clamped rather than rejected, the raw port arrays never exceed 256 entries |
| Db.WithPathIsOrderedFilter | backend-docker/pier/db/db.go:486-505 | the filter keeps exactly the ports with a path, in ascending index order |
| Db.ExampleInputPorts | backend-docker/pier/db/db.go:486-495 | labels `input.0.name=a`, `input.0.path=/in`, `input.2.path=/in2` give exactly `[{input0,a,/in},{input1,"",/in2}]` in every iteration order |
| Db.JobToTable | backend-docker/pier/db/db.go:225-237 | a job is stored as a fresh row (revision 0) from which the field copies restore the job |
| Db.JobTableRoundTrip | backend-docker/pier/db/db.go:210-237 | a job row read and stored again differs only in its revision |
| Db.ServiceToTable | backend-docker/pier/db/db.go:365-376 | a service is stored as a fresh row from which the scalar fields are restored |
| Db.ServiceTableRoundTrip | backend-docker/pier/db/db.go:350-376 | a service row read and stored again differs only in its revision |
| Dckr.ConfigString | backend-docker/dckr/dckr.go:35-42 | the endpoint is preferred over Boot2Docker, else `unknown`; the description always ends the text (dckr/dckr.go:26-33 is the same code) |
| Dckr.VersionGate | backend-docker/dckr/dckr.go:141-156 | an accepted version is returned unchanged; a version without a dot is "unparsable version string" (dckr/dckr.go:118-134 is the same gate) |
| Dckr.CheckVersion | backend-docker/dckr/dckr.go:134-157 | an error from the engine's version call is passed through; otherwise the reply goes through the gate |
| Dckr.VersionGateParsed | backend-docker/dckr/dckr.go:141-156 | once the first two parts parse as integers, the version is accepted exactly when major * 1000 + minor, wrapped to 64 bits, is at least 1006, and otherwise reported as "unusably old" |
| Dckr.VersionGateComparesPairs | backend-docker/dckr/dckr.go:141-156 | for ordinary numbers the gate accepts exactly the versions whose (major, minor) is at least (1, 6), whatever follows the second part |
| Dckr.OldestAccepted | backend-docker/dckr/dckr.go:20-21 | `1.6` is accepted |
| Dckr.CalendarVersionAccepted | backend-docker/dckr/dckr.go:141-156 | `17.03.0-ce` is accepted |
| Dckr.TooOldRejected | backend-docker/dckr/dckr.go:153-155 | `1.5` is rejected as "unusably old Docker version: 1.5" |
| Dckr.SinglePartRejected | backend-docker/dckr/dckr.go:142-144 | `1` is rejected as "unparsable version string: 1" |
| Dckr.UnparsableParts | backend-docker/dckr/dckr.go:145-152 | a non-integer major or minor part gives the "unparsable major/minor version" error |
| Dckr.LargeMinorPasses | backend-docker/dckr/dckr.go:153 | the minor number is not bounded, so `0.1006` is accepted |
| Dckr.OverflowingMajorRejected | backend-docker/dckr/dckr.go:153-155 | a major version whose product with 1000 overflows 64 bits is rejected |
| Dckr.OverflowingMajorExists | backend-docker/dckr/dckr.go:145-155 | such a version string exists |
| Dckr.NewClient | backend-docker/dckr/dckr.go:110-132 | no endpoint and no Boot2Docker gives "empty docker configuration"; Boot2Docker without DOCKER_HOST gives neither client nor error; a usable client exists iff the configuration dials, the dial succeeds and the ping answers |
| Dckr.Attempt | backend-docker/dckr/dckr.go:86-104 | one configuration is accepted iff its client dials, pings and passes the version check |
| Dckr.NewClientFirstOf | backend-docker/dckr/dckr.go:83-107 | the buffer loop with early return computes FirstOf (dckr/dckr.go:61-85 is the same loop) |
| Dckr.FirstOfPicksFirst | backend-docker/dckr/dckr.go:85-103 | the client returned is the one made from the first configuration that is accepted |
| Dckr.FirstOfShortCircuits | backend-docker/dckr/dckr.go:85-103 | configurations after the accepted one are never consulted |
| Dckr.FirstOfReportsEveryConfig | backend-docker/dckr/dckr.go:84-106 | when none is accepted, the error is the in-order concatenation of one diagnostic per configuration |
| DckrImages.FirstTag | backend-docker/dckr/dckr.go:165-168 | the repo tag is the first tag, or "" when there are none |
| DckrImages.MakeImage | backend-docker/dckr/dckr.go:164-178 | the image keeps the engine ID and the first tag, and takes the config labels, or none when there is no config |
| DckrImages.MakeListedImage | backend-docker/dckr/dckr.go:180-190 | the listed image keeps the ID, the first tag and the labels |
| DckrImages.InspectImage | backend-docker/dckr/dckr.go:193-199 | an engine error gives the zero image and that error; otherwise the converted image and no error |
| DckrImages.ListImages | backend-docker/dckr/dckr.go:202-212 | an engine error is passed through; otherwise one converted image per listed image, in order |
| DckrImages.ReadLinesConcat | backend-docker/dckr/dckr.go:228-237 | the lines the buffer hands out concatenate back to the whole build log |
| DckrImages.ReadLinesShape | backend-docker/dckr/dckr.go:228-230 | every line but the last ends at its only newline; the last has none |
| DckrImages.NoAnnouncementNoID | backend-docker/dckr/dckr.go:226-237 | with no `Successfully built ` line the scanned ID is "" |
| DckrImages.LastAnnouncementWins | backend-docker/dckr/dckr.go:226-237 | otherwise it is the trimmed rest of the last such line |
| DckrImages.OtherLinesIgnored | backend-docker/dckr/dckr.go:232-236 | `Step ` lines and all other lines never change the ID (dckr/dckr.go:187-191 is the same test) |
| DckrImages.UnterminatedAnnouncementCounts | backend-docker/dckr/dckr.go:228-237 | an announcement on a final line without a newline still counts |
| DckrImages.ScanBuildOutput | backend-docker/dckr/dckr.go:226-237 | the ReadString loop yields the ID announced by the log (dckr/dckr.go:181-192 is the same loop) |
| DckrImages.BuildSpec | backend-docker/dckr/dckr.go:215-252 | a nil client dereferences nil; a failed build returns the zero image and its error; with a live connection, or after a successful reconnect to a non-nil client, the result is the inspection of the ID scanned from the build log; the connection changes only after a failed ping and a successful reconnect |
| DckrImages.ReconnectIsTransparent | backend-docker/dckr/dckr.go:238-251 | a lost connection that is re-established does not change the result, and the new connection is kept |
| DckrImages.ReconnectFailureKeepsScannedID | backend-docker/dckr/dckr.go:238-245 | when reconnecting fails, the scanned ID is returned with the reconnect error |
| DckrImages.EmptyBoot2DockerReconnectDereferencesNil | backend-docker/dckr/dckr.go:238-251 | a Boot2Docker reconnect without DOCKER_HOST installs a nil client, which is then dereferenced |
| DckrImages.Client.BuildImage | backend-docker/dckr/dckr.go:215-252 | the method's result and the new connection are those of BuildSpec, so the image it inspects is the one whose ID the scan loop read from the log; the configuration is unchanged |
| DckrImages.BuiltImageIsAnnounced | backend-docker/dckr/dckr.go:226-251 | when the engine answers an inspection with the image of the ID asked for, an image returned without error carries the ID the log last announced |
| DckrImages.Engine.ExecuteImage | backend-docker/dckr/dckr.go:255-282 | an inspect, create or start error is returned with an empty ID and leaves the live containers unchanged, so a container whose start fails is removed; on success the new container is returned and is the only one added |
| DckrImages.Engine.WaitContainer | backend-docker/dckr/dckr.go:306-313 | the wait's exit code and error are returned; the container is removed whenever removeOnExit is set, whatever the wait answered |
| LegacyDckr.InspectImage | dckr/dckr.go:143-153 | a nil image is dereferenced; otherwise the engine ID is kept even on error, and labels are taken only when there is no error and the image has a config |
| LegacyDckr.BuildSpec | dckr/dckr.go:170-207 | a nil client dereferences nil; a failed build returns the zero image and its error; a live connection, or a reconnect to a non-nil client, gives the inspection of the scanned ID; a reconnect to a nil client dereferences nil; a failed reconnect returns the scanned ID with the reconnect error; the connection changes only after a failed ping and a successful reconnect |
| LegacyDckr.BuildImage | dckr/dckr.go:170-207 | the method's result and the new connection are those of BuildSpec, so the image it inspects is the one whose ID the scan loop read from the log |
| LegacyDckr.BuiltImageIsAnnounced | dckr/dckr.go:181-206 | when the engine answers an inspection with the image of the ID asked for, an image returned without error carries the ID the log last announced |
| LegacyDckr.ReconnectFailureAgrees | dckr/dckr.go:193-200 | both copies return the same scanned ID when reconnecting fails |
| LegacyDckr.ExecuteImage | dckr/dckr.go:210-227 | a create error gives an empty ID; otherwise the created container's ID is returned with the start error, and the container stays live even when start fails |
| Jobs.Job.SetState | backend-docker/pier/job.go:30-33 | the state is replaced and every other field is unchanged |
| Jobs.AscendingPairwise | backend-docker/pier/job.go:43-45 | neighbour order by ID extends to every pair, so the IDs in a listing are all different |
| Jobs.JobList.constructor | backend-docker/pier/job.go:60-64 | a new registry is empty |
| Jobs.JobList.Add | backend-docker/pier/job.go:66-70 | upsert: the job is stored under its ID and every other entry is unchanged |
| Jobs.JobList.Get | backend-docker/pier/job.go:85-90 | a job is found iff its ID is cached, and it is the cached job |
| Jobs.JobList.List | backend-docker/pier/job.go:72-83 | every cached job appears exactly once, the length is the number of IDs, and the IDs strictly ascend by `<` |
| Jobs.CopyJobs | backend-docker/pier/job.go:75-80 | the fill loop puts each cached job into the array exactly once |
| Jobs.SortByID | backend-docker/pier/job.go:81 | the sort leaves the array ordered by Less and a permutation of what it was |
| Jobs.OrderedCopyAscends | backend-docker/pier/job.go:72-83 | a listing ordered by Less that holds each cached job once has strictly ascending IDs |
| Jobs.JobList.SetState | backend-docker/pier/pier.go:111 | the state of an existing job is replaced; an unknown ID changes nothing |
| Jobs.JobList.SetOutputVolume | backend-docker/pier/pier.go:140 | the output volume of an existing job is recorded; an unknown ID changes nothing |
| Pier.ErrorIffErrorStatus | backend-docker/pier/pier.go:108-161 | the status is "Error" exactly when a wrapped engine error is recorded |
| Pier.SuccessIffAllStepsSucceed | backend-docker/pier/pier.go:108-161 | the job ends "Ended successfully" exactly when every step answers without error and with exit code 0 |
| Pier.StopsAtFirstFailure | backend-docker/pier/pier.go:108-161 | the engine calls made are the first steps of the full plan, in order, up to and including the first failing one |
| Pier.NonzeroExitStatus | backend-docker/pier/pier.go:125-157 | a nonzero exit code gives "Data staging failed (exitCode = N)" or "Service failed (exitCode = N)" with no error |
| Pier.OutputVolumeRecordedBeforeService | backend-docker/pier/pier.go:133-140 | the output volume is recorded exactly when it was created, so a failed service run still leaves it on the job |
| Pier.RunsMountTheirVolumes | backend-docker/pier/pier.go:115-146 | staging mounts only the input volume, writable, at /volume and gets the input PID; the service mounts the input volume read-only and the output volume writable at its first port paths, with no arguments |
| Pier.ServiceExitOneScenario | backend-docker/pier/pier.go:141-157 | staging exit 0 and service exit 1 end the job with status "Service failed (exitCode = 1)", no error, and its output volume |
| Pier.StagingImageIsLastMatch | backend-docker/pier/pier.go:52-57 | the staging image is that of the last service named "Volume Stage In" |
| Pier.NoStagingService | backend-docker/pier/pier.go:52-57 | without such a service the staging image stays "" |
| Pier.Find | backend-docker/pier/pier.go:81-87 | a service found has the ID asked for and is registered; none is found iff no registered service has that ID |
| Pier.Pier.SelectStagingImage | backend-docker/pier/pier.go:52-57 | the loop leaves the staging image of the registered services |
| Pier.Pier.BuildService | backend-docker/pier/pier.go:63-73 | a failed build is wrapped as "docker BuildImage failed" and registers nothing; a built service is registered once and returned |
| Pier.Pier.GetService | backend-docker/pier/pier.go:81-87 | a registered service with that ID, or "not found" exactly when there is none |
| Pier.Pier.GetJob | backend-docker/pier/pier.go:173-180 | the registered job, or "not found" exactly when the ID is not registered |
| Pier.Pier.ListJobs | backend-docker/pier/pier.go:168-170 | every registered job once, in ascending ID order |
| Pier.Pier.RunService | backend-docker/pier/pier.go:91-106 | a job with state "Created", no error, the service's ID and the input PID is registered under its ID and returned |
| Pier.Pier.RunJob | backend-docker/pier/pier.go:108-165 | the engine calls and the recorded output volume and final state are those of Pipeline |
| Pier.NewPier | backend-docker/pier/pier.go:29-60 | when NewClientFirstOf makes no client, the error is "Cannot create docker client" wrapping the diagnostics FirstOf collected; otherwise the listed services are registered in order (none when listing failed), no jobs exist, and the staging image is selected from them |
| Pier.PopulatedPier | backend-docker/pier/pier.go:35-57 | a fresh pier with no jobs, the listed services in order (none when listing failed), and the staging image selected from them |

## Left out

- Every call into go-dockerclient is replaced by the engine's reply, passed in as a parameter. This covers versions, dialing, ping, build, inspect, list, create, start, wait and remove. The inspect reply after a build is a function of the image ID asked for, so the model shows which ID is inspected. So are the `DOCKER_HOST` / `DOCKER_CERT_PATH` environment variables and the TLS set-up in `NewClient`.
- The thin engine wrappers are not modelled, because they only forward a call: `IsValid`, `ListContainers`, `InspectContainer`, the volume calls, `DeleteImage`, `StartExistingContainer`, `ListVolumeContent`, and the older copy's `ListImages`. `GetTarStream` and `UploadSingleFile` (tar streams and file I/O) are not part of this model either.
- `BuildImage`'s build options and the build directory are not modelled; the build log is a parameter.
- The SQL persistence of `db.go` (gorp on SQLite) is not part of this model. The task and port lookups inside `MapStoredJob2JSON` / `MapStoredService2JSON` become parameters.
- `uuid.New()` and `time.Now()` become parameters: the service ID, the job ID and the creation time.
- Logging and `fmt.Println` are not modelled.
- The `go p.runJob` goroutine and the `sync.Mutex` of `JobList` are left out. `RunService` and `RunJob` are separate sequential calls, so atomicity under concurrent readers is not captured.
- `Jobs.Job`: its `State` is a value, not a pointer shared between copies of the job. Aliasing through the pointer is not captured.
- `Jobs.SortByID`: `sort.Sort`'s algorithm is replaced by an insertion sort with the same `Less`. Because the IDs are distinct keys, the sorted result is the same.
- `Jobs.JobList.SetState`, `Jobs.JobList.SetOutputVolume`: `setState` / `setOutputVolume` are not part of this model. They are assumed to update an existing entry only and to leave an unknown ID alone.
- `Pier.ServiceList`: the service list is not part of this model. It is assumed to keep services in the order they were added and to look one up by ID (the first match).
- The pier package's `newServiceFromImage` is not part of this model, so `NewPier` and `BuildService` receive the services already made from the images.
- The pier package uses its own Docker helpers, `backend-docker/pier/internal/dckr`, and that package is not part of this model. Its `VolBind`, `NewVolume` and four-argument `ExecuteImage` appear only as the engine calls `Pier.RunJob` makes, and the third `VolBind` field is read as read-only. Its `ListImages` and `BuildImage` are seen only through the `listed` parameter of `NewPier` and the `built` parameter of `BuildService`.
- `Pier.NewPier`: the internal package's `NewClientFirstOf`, over `def.DockerConfig`, is assumed to behave as `NewClientFirstOf` of backend-docker/dckr/dckr.go, which the model calls. So the "Cannot create docker client" error is assumed, not shown, to wrap the diagnostics `Dckr.FirstOf` collects.
- Go strings are byte strings, but the model treats them as sequences of Unicode scalar values. Invalid UTF-8 in labels, IDs or build logs is therefore not represented.
- `Db.Job`: the job's state is a value, not a pointer. The nil dereference in `MapJSON2StoredJob` when `State` is nil is therefore not modelled. That path is not reached, because `RunService` always sets `State`.
- `Pier.Pipeline` requires at least one input and one output port. `runJob` indexes `Input[0]` and `Output[0]` unguarded, so a service without them makes it panic, and that panic is not modelled.
- `DckrImages.Engine.ExecuteImage` assumes the engine hands out a new, non-empty container ID. It also assumes the forced removal after a failed start succeeds, because its error is ignored. The bind strings and the image config passed to the container are not modelled.
- `DckrImages.Engine.WaitContainer` assumes the forced removal succeeds, because its error is ignored.
- `Dckr.VersionGateComparesPairs` states the (major, minor) comparison only for a major of at most 10^12 and a minor below 1000. Outside that range the 64-bit formula differs, as `Dckr.LargeMinorPasses` and `Dckr.OverflowingMajorRejected` show.
- Go's `int` is taken to be 64 bits wide.
