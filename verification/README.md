# CLImate, modelled and proved in Dafny

CLImate runs command-line tools in containers without a daemon. This project models the parts of it where order,
interleaving or arithmetic decide whether it is right, and proves what those parts promise:

- the **image store** on disk: pulling, building, garbage collection and cleaning as sequences of file-system steps, any
  of which a crash may come after (`StoreNames`, `StoreModel`, `StoreClean`, `LayerFetch`, `ImageSpec`, `ImageStore`,
  `UpdateLoop`, `Sessions`);
- the **two-way loopback bridge**: the scan-and-mirror loop, its helper process and its shutdown (`Mirrors`, `Helper`,
  `Shutdown`);
- the **egress decision** of `network = "localnet"`: route lines, prefix arithmetic and longest-prefix matching, as in
  section 5.1 of RFC 4632 (`Bits`, `Localnet`);
- **signal forwarding** to the container (`Signals`), the **override merge** (`TomlMerge`), the **seccomp filter**
  (`SyscallLists`, `Seccomp`) and **size arithmetic** (`Limits`).

`dafny verify dfyconfig.toml` checks everything.

## How the store is modelled

`ImageStore.Store` holds the disk: refs, blobs, layers, `.extract-` directories and `.download-` files. Its methods follow
the program's functions and change the disk only through `Do`, one file-system step at a time; each step is written to a
log, and `Do` demands that the step is one `StoreModel.Allowed` lets through. A write in place is two steps or three, so
that the file can be found empty or cut short in between. A crash keeps the disk and loses everything else, so it leaves
what some prefix of the log leads to. `StoreModel.CrashSafeClosure` says what holds after every prefix of every legal log,
and `Sessions.RunAll` runs arbitrary commands, each cut off wherever one likes.

Whether bringing an image in works, which refs it leaves and whom it asks is settled by what the store holds and what the
world does: `ImageSpec.EnsureApp` says so ahead of the call, and the methods' contracts hold them to it exactly. Lemmas named
`...InPlainTerms` say what such functions come to without naming them.

Closure is stated about the *true* manifest of a digest (`Truth`), not about what the blob on disk parses as: a crash
during a re-pull leaves a manifest damaged, and its layers must survive until it is written again. `Truth` also records
how many entries a layer's archive holds, so that a layer is fully unpacked when its tree is the whole of them.

Where the environment is concerned the model assumes:

- a registry never gives one digest two meanings, and build names are fresh (`Consistent`, `Unused`); `FairExists` and
  `HistoriesExist` show that any registry that says only what it consistently can, and any apps, are covered by this;
- one CLImate process works on the store at a time, and a digest cut short names nothing that is stored;
- a local I/O error stops a command where it is, as a crash does, except for failed downloads, unpacks and install
  scripts, which are modelled with their clean-up;
- removing a tree is one step.

## What is not as one might expect

- **Layers listed twice.** Fetches of one digest share a staging directory. `SafeExactlyWhenNoneRepeated` shows that no
  interleaving can show a half-unpacked layer exactly when no layer with anything in it is listed twice among those
  missing, by constructing the bad schedule for every list that does repeat one. `Fetchable` asks for that of the layers a
  fetch would bring in, which nothing in the program checks; layers already stored may be listed any number of times.
- **A KILL can overtake the first signal.** The handler claims the first signal and sends it in two steps, and so does the
  code that delivers a signal which came early. A handler running in between finds the claim made and sends KILL first.
  `InOrderExactlyWhenNotCrossed` gives the exact condition and `KillCanOvertake` an example. That some signal is sent, and
  exactly one that is not KILL, holds in every case.
- **The helper has to go first.** Closing the pipe does not wake a thread that waits for a reply: `AtStandstillExactly`
  says when the thread is stuck, and `CloseAloneIsNotEnough` leads it there with the pipe closed. With both done, in
  whichever order, it ends (`ShutdownTerminates`).
- **A blank ref.** A crash while a ref is being written leaves the app recorded, so it is not fetched again by a run, and
  not readable. A forced pull repairs it, and so does rewriting the manifest when that is what is damaged
  (`RewriteRepairs`).
- **A gateway that is no number.** A route line whose flags name a gateway but whose gateway field does not parse is read
  as having none (`FlagsAreSeen`). The kernel prints no such line.

## Model

| member | source | states |
|---|---|---|
| StoreNames.DigestAndPathUndoEachOther | src/store.rs:34-43 | a digest is accepted as a path exactly when it is that path's "algo:name" text, which is what GC rebuilds; no accepted name looks like a staging entry or leads elsewhere |
| StoreNames.StagingNeverCollides | src/store.rs:180-183 | no two layers or builds share a staging directory, no work directory is an upper one, and none is where a finished layer stands |
| StoreNames.MarkersNeverCollide | src/store.rs:58-67 | two image keys share a marker file only when they are equal, full references and built images mixed, '+' in app names or digest algorithms included |
| StoreNames.AppKeysAreImageKeys | src/store.rs:71-81 | what apps are recorded under is always such a key |
| StoreModel.StepKeepsInv | src/store.rs:87-147 | every step the commands may take keeps refs closed under their true manifests, layers whole and undamaged blobs true |
| StoreModel.CrashSafeClosure | src/pull.rs:94-159 | after any prefix of any legal run, every ref written in full names a digest whose true manifest has its config and all layers, fully unpacked; only manifests can be damaged |
| StoreModel.DamageStopsDeletion | src/clean.rs:74-83 | while a ref does not lead to a readable manifest, no run deletes a blob or layer until that ref or manifest is rewritten |
| StoreModel.RewriteRepairs | src/pull.rs:108-113 | writing the true manifest again is allowed in every such state and makes the whole image readable |
| StoreClean.ReadImagesAreWhole | src/store.rs:216-248 | in every reachable store an image that reads at all has each layer of its true manifest complete and its true config |
| StoreClean.ReadsInPlainTerms | src/store.rs:216-248 | an image reads exactly when its ref leads to a manifest and that to a config, and as just those layers and that config |
| StoreClean.ResolvesInPlainTerms | src/store.rs:71-81 | an app with an install script resolves to its own image, any other to the one it names |
| StoreClean.CollectedInPlainTerms | src/clean.rs:68-123 | what is left by a collection, blob by blob and layer by layer, in terms of the refs and the manifests they name |
| StoreClean.CollectingKeepsImages | src/clean.rs:68-123 | every key reads the same manifest, layers and config after a collection as before |
| StoreClean.CollectingTwiceIsOnce | src/clean.rs:68-123 | a second collection changes nothing |
| StoreClean.CleanKeepsEveryApp | src/clean.rs:130-154 | after clean every app that loads resolves as before, its base image reads as before, and exactly the refs some app asks for are left |
| StoreClean.CleanKeepsClosure | src/clean.rs:235-237 | clean keeps the closure under true manifests |
| LayerFetch.InterleavingsAreSafe | src/pull.rs:127-149 | in every interleaving of up to three fetches, any failing, a final layer path holds a complete tree, nothing already there changes, and a finished fetch has its layer in place |
| LayerFetch.SafeExactlyWhenNoneRepeated | src/store.rs:180-207 | that holds for all schedules if and only if no non-empty layer is listed twice |
| LayerFetch.StartsInPlainTerms | src/pull.rs:145-149 | a fetch may start exactly when it is the first not to have begun and no three others are going |
| LayerFetch.AtMostThreeAtOnce | src/pull.rs:145-149 | in no interleaving are four fetches under way at once |
| LayerFetch.AllCanArrive | src/pull.rs:127-149 | any list of missing layers that repeats none has a schedule by which all of them arrive whole |
| ImageStore.Store.StoreBlob | src/store.rs:104-108 | refuses exactly what is no digest; otherwise takes the two steps of emptying the file and putting the true content there, losing nothing else |
| ImageStore.Store.RecordRef | src/store.rs:87-91 | points a ref at an image the store holds all of, by way of an empty and a partial one |
| ImageStore.Store.FetchLayers | src/pull.rs:138-149 | the staging area and layers are those of the interleaving it was given, it reports success exactly when every fetch finished, and only fetches still in flight have a temporary file |
| ImageStore.Store.FetchImage | src/pull.rs:94-159 | works exactly when the registry knows the image, all digests are well formed, the config is had and every missing layer comes through; then exactly this ref moves, to the manifest the registry gave, with everything it names present; failure leaves all refs alone; no layer or good blob is ever lost, and success leaves no temporary file |
| ImageStore.FetchCanWork | src/pull.rs:94-159 | an image whose digests are well formed, whose config is had and whose missing layers repeat nothing can always be fetched |
| ImageStore.ArrivedImageReads | src/store.rs:216-248 | an image that arrived reads, with all its layers whole and its true config |
| ImageStore.Store.Build | src/build.rs:78-128 | works exactly when the base image is recorded and readable, its config is too and the script succeeds; then adds exactly one layer, one manifest (the base's plus that layer) and one ref; any failure leaves refs, blobs and layers as they were; no staging entry stays either way |
| ImageStore.Store.Ensure | src/pull.rs:163-203 | told from the app, the refs and the flags alone when nothing is done and nobody asked, when it has to fail, and when it works exactly if the image arrives or the build succeeds; which refs it leaves; what arrived is there in full, and a built image is its freshly fetched base with the script's layer on top |
| ImageStore.FetchedToBuildOn | src/pull.rs:198-202 | after fetching the base image a build works exactly when it was going to, judged before the fetch |
| ImageStore.ContentsFetched | src/pull.rs:127-149 | an image whose missing layers all came through has all its layers, and nothing stored before is lost or changed |
| ImageStore.Store.LiveSet | src/clean.rs:44-64 | the loops collect exactly what some ref leads to, and fail exactly when some non-blank ref leads to no readable manifest |
| ImageStore.Store.GcImages | src/clean.rs:68-123 | if every ref that is not blank names a readable manifest, no staging entry is left and of blobs and layers exactly what was there and is named by a ref or listed by its manifest; otherwise nothing is touched |
| ImageStore.Store.DropOrphanRefs | src/clean.rs:130-154 | exactly the refs stay that are a loading app's own built image or the image it names |
| ImageStore.Store.Clean | src/clean.rs:235-237 | both in sequence |
| ImageStore.Store.Crash | src/store.rs:134-147 | wherever a command is cut off the store is closed and fit for the next one |
| Sessions.RunAll | src/pull.rs:205-260 | each of any sequence of running, pulling, updating and cleaning takes steps that would complete it and is cut off anywhere among them, and the store is closed after every one |
| Sessions.HistoriesExist | src/pull.rs:205-260 | histories of updates, pulls and cleans over any apps and registry answers are among those |
| UpdateLoop.PullUpdate | src/pull.rs:205-260 | every recorded app is tried once, in the store the ones before it left, and reported exactly when its `ensure` has to fail; a try asks for an update exactly when no earlier one refreshed its image; an app that needs no more than an image an earlier one refreshed is never reported; for a pulled app not reported failed the store ends up, garbage collected, with all of what the registry sent for its image during this command |
| UpdateLoop.FairExists | src/store.rs:128-134 | whatever registries would answer, there is a world that gives each consistent answer and a fresh name for every build |
| UpdateLoop.OthersStayCurrent | src/pull.rs:211-242 | seeing to one app leaves every image refreshed before it as the registry sent it |
| UpdateLoop.PullNamed | src/pull.rs:243-260 | naming an app always asks the registry and always rebuilds; when that works, exactly, and what is in the store then |
| UpdateLoop.RegistryAskedExactly | src/pull.rs:211-242 | in a run of the update loop a try contacts the registry exactly when its image is pulled and no try before it refreshed that image |
| UpdateLoop.OneForcedFetch | src/pull.rs:212-235 | apps sharing an image leave the registry alone once it has been refreshed for one of them |
| UpdateLoop.FailuresAreRetried | src/pull.rs:230-240 | while every try for an image has failed, the next app that pulls it contacts the registry for it |
| UpdateLoop.EnsureRefreshes | src/pull.rs:163-203 | a successful try that asks for an update had the image arrive; one that does not leaves the registry alone when the image is recorded |
| Mirrors.SubtractionIsExact | src/forward.rs:331-347 | a scan lists the genuine listeners and the loop's own mirrors, and taking the latter out leaves exactly the former |
| Mirrors.ReactInPlainTerms | src/forward.rs:331-333 | a service can open any port no mirror holds on its side, and close any |
| Mirrors.Listen | src/forward.rs:163-168 | one mirror for each family whose socket can be had, none for a port that is taken |
| Mirrors.Bridge.Reconcile | src/forward.rs:334-374 | for any two scans no port ends up mirrored both ways and no direction, port and family has two mirrors; every mirror left is wanted and every wanted one is kept; settled mirrors do not change |
| Mirrors.Bridge.Rescan | src/forward.rs:334-374 | with services coming and going at every point, each mirror left stands for a service on the other side and none on its own when those were read, one still wanted keeps its mirrors, and one newly wanted gets exactly the families that could be had when it was tried; with nothing moving one round gives exactly the two differences |
| Mirrors.Bridge.QuietRounds | src/forward.rs:334-374 | from any reachable state the first quiet round settles the mirrors as the two differences and no later one changes anything |
| Mirrors.Bridge.ForwardLoop | src/forward.rs:378-406 | over a whole run each due rescan is one round that is sound and steady at its own scan times, the rounds come one after another, and each starts from the mirrors the one before left |
| Mirrors.AddingKeepsShape | src/forward.rs:356-373 | new mirrors on an unheld port keep one owner per port and the mirrors distinct |
| Helper.FramesUndo | src/forward.rs:196-208 | the three bytes are the operation and the port with its low byte first, and the frame and what it carries determine each other |
| Helper.Lockstep | src/forward.rs:186-246 | in every reachable state at most one request is under way, answers hold sockets for exactly what was asked, and nothing is asked before the first reply was taken |
| Helper.GoneMeansNothing | src/forward.rs:238-246 | wherever the helper dies, every request asked afterwards yields no socket, and one still waiting gets its own reply if that had been sent and nothing otherwise |
| Helper.RequestsAreAnswered | src/forward.rs:195-211 | with both sides alive a request is answered by its own sockets and the pair is back where it was |
| Shutdown.ShutdownTerminates | src/forward.rs:378-406 | wherever thread, helper and pipe are once the helper has died and the pipe been closed, no more acts follow than the rank of the thread's place, with at most one more poll and one more scan, and nothing can follow exactly when it has returned |
| Shutdown.EveryPlaceIsReached | src/forward.rs:378-406 | left alone the loop comes to scans of any size, any number of ready mirrors and requests in both |
| Shutdown.AtStandstillExactly | src/forward.rs:238-246 | the thread can do nothing exactly when it has returned or waits for a reply a living helper has yet to make, pipe closed or not |
| Shutdown.ClosingWakesNoRequest | src/forward.rs:538-544 | such a wait lasts as long as the helper neither works nor dies |
| Shutdown.CloseAloneIsNotEnough | src/forward.rs:538-544 | the loop reaches such a place with the pipe closed, so the helper has to be killed for the join to end |
| Shutdown.ActGetsCloser | src/forward.rs:318-329 | once both are done every act is the thread's and lowers the rank of its place |
| Localnet.SamePrefixComparesBits | src/localnet.rs:135-139 | equal exactly in the first `prefix` bits, for every prefix and width up to 128, the shift by 128 included |
| Localnet.SamePrefixIsEquivalence | src/localnet.rs:135-139 | an equivalence for a fixed prefix, and implied by any longer one; at full length it is equality |
| Localnet.ContainsIsMasking | src/localnet.rs:142-152 | a route covers an address exactly when both are equal under its netmask, and never across families |
| Localnet.V4RouteReadsItsLine | src/localnet.rs:164-181 | a line gives a route exactly when it parses and its up flag is set; device, network, gateway, rejection and prefix in terms of its fields |
| Localnet.V4LineIsRead | src/localnet.rs:164-181 | a line as the kernel prints it on a machine of either byte order is read as just the route it stands for |
| Localnet.V6LineIsRead | src/localnet.rs:184-204 | and so is an IPv6 line |
| Localnet.V4RouteMeansItsMask | src/localnet.rs:164-181 | in either byte order a line with a contiguous mask gives its length as the prefix and covers the addresses that, as words of the machine, equal its network under its mask |
| Localnet.V6RouteMeansItsPrefix | src/localnet.rs:184-204 | an IPv6 line covers exactly the addresses that equal its network in the stated prefix, and its flags are seen |
| Localnet.FlagsAreSeen | src/localnet.rs:174-178 | a reject line is never on-link; a gateway line is exactly when its gateway field is no number and nothing else forbids it |
| Localnet.EgressRefinesTheKernel | src/localnet.rs:227-249 | an address is let out exactly when it is unicast, covered, and every route the kernel may pick has no gateway, rejects nothing, is not on lo and is no default route |
| Localnet.UnicastInPlainTerms | src/localnet.rs:220-225 | which address ranges that leaves out |
| Localnet.EgressInPlainTerms | src/localnet.rs:227-249 | nothing leaves for those ranges, and what leaves does so on the device of the first of the longest routes |
| Localnet.OrderDoesNotMatter | src/localnet.rs:227-249 | the verdict depends only on which routes there are |
| Localnet.LessSpecificChangesNothing | src/localnet.rs:240-244 | adding a less specific route anywhere changes neither verdict nor device |
| Signals.Forwarding.ForwardSignal | src/runtime.rs:200-212 | the handler on the three atomics, interruptions included, does what `Handle` says |
| Signals.Forwarding.Run | src/runtime.rs:418-448 | main's steps, with handlers at every point between them, do what `Finished` says |
| Signals.DrainedSends | src/runtime.rs:418-425 | once the early signal is dealt with none that arrived has been left unsent, and FORWARDED says whether one was |
| Signals.RunSends | src/runtime.rs:446-448 | over a whole run a signal is sent if and only if one arrived before the pid was cleared; exactly one of those sent is no KILL and it had arrived; nothing is sent afterwards |
| Signals.EverySignalIsPassedOn | src/runtime.rs:200-212 | as many are sent as handlers ran while the pid was known, and one more for those that came before it if none came in between |
| Signals.InOrderExactlyWhenNotCrossed | src/runtime.rs:195-207 | the first one sent is that one exactly when no handler ran between the first claim and its sending, which the schedule alone decides |
| Signals.KillCanOvertake | src/runtime.rs:418-425 | an early Ctrl-C and a second during its delivery send KILL first |
| TomlMerge.Merge | src/config.rs:300-309 | the loop over the override's entries, in any order, is the recursive right-biased merge |
| TomlMerge.EveryPath | src/config.rs:299-309 | what stands at every key path after a merge, values and tables, in terms of the two tables alone |
| TomlMerge.MergeLaws | src/config.rs:299-309 | an empty override is the identity and merging twice equals once |
| Seccomp.Profile | src/seccomp.rs:190-226 | the loops fail exactly on a listed name that is no system call, and otherwise decide every call as the written-out decision does |
| Seccomp.PartialRules | src/seccomp.rs:157-185 | exactly the rules for calls allowed in part |
| Seccomp.OnlyTheSetsMatter | src/seccomp.rs:187-206 | the decision depends only on which names and capabilities are listed |
| Seccomp.MoreAllowedMorePermitted | src/seccomp.rs:187-206 | allow and capabilities only widen what is permitted, deny only narrows it |
| Seccomp.UserNamespacesStayShut | src/seccomp.rs:139-185 | unless an app names the call itself, the five calls allowed in part are decided by bit 28, family 40, the five personalities and error 38, whatever capabilities it asks for |
| Seccomp.PairedCallsNeedTheirCapability | src/seccomp.rs:98-135 | a call that goes with a capability gets through only for an app that holds it or names the call |
| Seccomp.GrantsInPlainTerms | src/seccomp.rs:101-135 | the pairings, capability by capability |
| Seccomp.DecisionInPlainTerms | src/seccomp.rs:187-206 | architecture before deny before allow and the lists, and refusal otherwise |
| SyscallLists.ListsLeaveOut | src/seccomp.rs:14-85 | no built-in list names a call that has a partial rule or goes with a capability |
| Limits.ParseMemoryReadsWhatIsDenoted | src/spec.rs:40-61 | a size is read exactly when its text is a non-negative 64-bit amount and a known unit in any case whose product fits, and as exactly that |
| Limits.SizesInPlainTerms | src/spec.rs:48-60 | a count and any spelling of a unit give that many bytes, the factors written out, as long as they fit; any other unit is refused |
| Limits.IntegersSurvive | src/config.rs:189-198 | a TOML integer goes through its decimal text and back unchanged, negative ones being refused |
| Limits.MakeResources | src/spec.rs:75-155 | limits come of exactly the acceptable configs; the swap total minus memory is the stated swap, the high mark is positive and below memory, and nothing wraps |

## Left out

- StoreModel.CrashSafeClosure: says nothing of crashes part-way through removing a tree or of power loss, which the program does not guard against, nor of two CLImate processes on one store, as there is no lock.
- ImageStore.Store.GcImages: local I/O errors while deleting are not told apart from a crash at that point.
- ImageStore.Store.FetchImage: asks that no non-empty layer still missing is listed twice, which the program does not check; `SafeExactlyWhenNoneRepeated` shows that it cannot be done without.
- ImageStore.Store.FetchLayers: asks the same of the layers it is given, and so do `Ensure`, `PullUpdate`, `PullNamed` and `RunAll`.
- ImageStore.Store.RecordRef: takes only a digest whose image is held, where the program would write any; that every caller keeps to this is what is proved.
- ImageStore.Store.Clean: leaves out the pruning of runtime directories that follows.
- LayerFetch.InterleavingsAreSafe: holds for lists that repeat no non-empty layer; it lets downloads go on after a failure, which is more than the program does.
- Mirrors.Bridge.Rescan: works at port level, taking one scan as one step although it reads two files, and assumes that a port has one owner in each namespace.
- Mirrors.Bridge.ForwardLoop: serving a connection is not modelled, as it touches no mirror; `Helper` and `Shutdown` cover the requests it makes.
- Helper.Lockstep: assumes that a receive fails only when the other side is gone.
- Shutdown.ShutdownTerminates: assumes that accept and connecting over loopback return.
- Localnet.V6RouteMeansItsPrefix: leaves out lines with a prefix over 128, which the kernel never prints and on which the program's subtraction would overflow.
- Signals.RunSends: one run, with handlers nested on one thread; handlers on another thread and flags left over from a build are not covered.
- Seccomp.Profile: rules mean what the comments say (any matching rule allows); the filter library itself, the x32 convention and 32-bit socketcall are not modelled.
- Limits.MakeResources: a CPU limit is only checked for being positive; its quota is floating point with a saturating cast.
- TomlMerge.Merge: nested tables are values handed back, not changed through a reference; arrays and scalars are one kind of leaf.
- Registry, git and ssh transport, archive decoding, containers, mounts, terminals, the TUN device and the TCP/UDP relay: foreign code, taken only to succeed or fail.
- Parsing of /proc/net/tcp lines (`is_loopback`, `listening_ports`), the runtime pruning in `clean`, `command`, mounts and environment in the spec, `show`, `main` and `xtask`: would only add easy members.
