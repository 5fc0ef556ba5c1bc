# Verification of the device provisioner

The provisioner puts a node's GPUs and NVSwitches into a confidential-computing mode, binds
them to vfio drivers, and writes boot files so that the node comes back bound by itself. A run
may fail at any point: a register does not read, a write is refused, a reset hangs, the Job is
killed. This project models the run as a machine whose every primitive may fail, before or
after it took effect, and proves what holds of every run, wherever it stops.

`dafny verify dfyconfig.toml` checks the whole project with Dafny 4.11.

## How the model is built

- **The node** (`Machine.dfy`). A device has two copies of its knobs: `stored`, written and
  reported back at once, and `latched`, by which it behaves, which a reset or a power cycle
  brings up to date. A `Node` also has the bound drivers, the loaded modules, the three boot
  files and a ghost trace. `Node.Perform` makes one primitive; `Do` is its specification and
  `RunAll` that of a list of them. `Env` is the fault oracle: for the n-th primitive of a run it
  says whether it fails before or after taking effect, and whether a knob write that reports
  success really took. Statements range over every `Env`, so they speak of runs stopped at
  every possible step.
- **The planner** (`Knobs.dfy`) is `writes_for` and the firmware rule that enabling one knob
  clears the other.
- **The mode change** (`Nvidia.dfy`, `Transaction.dfy`, `Faults.dfy`). Each loop of
  `nvidia::apply` is a method proved to carry out its part of one script, planned from the
  board's state at the start.
- **The boot files** (`BootConfig.dfy`, `Udev.dfy`, `RuleText.dfy`, `Boot.dfy`). `persist` writes
  text. `DriverAtBoot` reads it as modules-load, modprobe and udev do, knowing nothing of how it
  was printed: a udev line is terms of key, operator and value, matched against the event of a
  device coming up by its action, subsystem and sysfs attributes; a modprobe line is words.
  Loading vfio-pci claims the ids of its `ids=` line; the matching rules set an override, load
  modules and probe, which binds a device nothing holds if one of the modules registers that
  driver. A driver that takes a device before any of this (`native`) keeps it.
- **The run** (`Provision.dfy`). `Provision.Apply` is `main::apply`; `Run` is its specification,
  and the state with the stage that ended it is its result.
- **The guarantees** (`Resolution.dfy`, `Stages.dfy`, `Guarantees.dfy`, `Coverage.dfy`,
  `Convergence.dfy`, `History.dfy`, `Interrupted.dfy`) are lemmas about `Run` and histories of
  runs. `Witnesses.dfy` holds concrete nodes on which a stated promise fails.
- **The node itself** (`Hardware.dfy`) says what a node asks for in terms of its PCI devices,
  alias table and process table alone, without the code's classification, resolution or
  planning. `Cards.dfy`, `Outcome.dfy` and `Aftermath.dfy` prove that runs and boots do that.

The main results:

- A run that succeeds leaves the node `Provisioned`, which the devices, the kernel and the mode
  determine, from any state and after any history; from then on further runs for the mode,
  however they fail, keep it so, and so do reboots (`History.OneSuccessSettles`), except exactly
  those at which another driver takes a passthrough device first or a device kept on the host
  comes up on a vfio driver (`History.RebootKeepsProvisioned`).
- After a run that succeeds every NVIDIA card of the node has its knobs set and is on the driver
  of the module that serves it, or off vfio if the mode leaves it on the host
  (`Outcome.DoneMeans`); nothing else is touched by any run (`Outcome.OthersUntouched`). With
  nothing failing, the node as found decides which stage ends the run (`Outcome.CalmRunEnds`).
- Booting the files of a run stopped anywhere after persisting puts each passthrough device on
  the driver that a successful run binds it to (`Guarantees.BootAgreesWithBind`,
  `Aftermath.BootMeans`).
- What a run disturbs it first found idle, with one exception, stated exactly
  (`Coverage.IdleCoverage`, `Coverage.UncheckedExactly`).
- Whatever mix of boot files a history of runs leaves, those that die inside `persist` included,
  they put no device on the driver of another, and no coherently attached GPU on the `ids=` line
  (`Interrupted.AnyHistoryBootsOwn`, `Interrupted.CoherentNeverOnLine`).
- With nothing failing, a run succeeds if and only if the node is acceptable, no other driver
  holds a device to be passed through, and no device that the run would have to change is held
  (`Convergence.CalmRunSucceedsIff`). What the knobs store matters only through which of the held
  devices are in the mode (`Convergence.KnobsMatterOnlyIfHeld`).

## What is assumed

All of it concerns `pcilibs_rs` and the kernel, which are not part of this model.

- `module_for`, `driver_for`, `chip_for` and `is_c2c` are fixed functions (`Kernel`, `Catalog`);
  `gpu.supports_ppcie()` agrees with `supports_ppcie` of the device id.
- `bind` does nothing to a device already on the driver, refuses one another driver holds, and
  otherwise binds it; `unbind` leaves no driver.
- udev and kmod read the files as `Udev.dfy` and `Boot.dfy` say: no escapes and no substitutions
  in the names, no globs in the ids, and of the rules of other files nothing that interferes.
- `Sound`: PCI addresses are unique, kernel module and driver names hold neither quotes nor line
  ends, and the module vfio_pci, under either spelling, registers the driver vfio-pci.
- The process table a run scans for holders does not change under it, and no one else changes
  the node while a run is on.

## Where the code does not keep its word

- `ARCHITECTURE.md:393-394` says a board part-way between two modes is not a state the node can
  be left in. Some fault leaves a board so if and only if two of its devices or more have
  something to write when the mode change starts (`Faults.PartWayReachableIff`,
  `Witnesses.TwoGpusPartWay`): a fault between their writes does. A device reports the mode if and
  only if the trace of the run holds all the writes planned for it
  (`Faults.ReportsModeIffWritten`).
- `src/nvidia.rs:223` says that without the reset a device reports the new mode and behaves like
  the old. A run that fails at a reset leaves that state, and the next run finds nothing to
  write, does not reset and succeeds (`Faults.StaleOutlivesNextRun`, `Witnesses.GpuLeftStale`). A
  successful run leaves every device behaving in the mode if and only if none was stale at its
  start (`History.DoneBehavesIff`); no device is stale where no run died in the middle of its
  mode change since the last power cycle (`History.UndamagedSuccessBehaves`).
- `writable` passes over a switch that stays on the host and that no vfio driver holds, while
  `nvidia::apply` writes and resets it if its PPCIE knob is not at the target
  (`Coverage.UncheckedExactly`, `Witnesses.SwitchResetUnchecked`).
- `ARCHITECTURE.md:347-348` says a node with a Grace-attached GPU is refused for anything but
  `off`. For `ppcie`, whose CC target is off, it is accepted if every GPU of the node carries
  PPCIE (`Resolution.GraceNodeAcceptedIff`, `Resolution.GraceNodeAcceptedForPpcie`).

## Model

| member | source | states |
|---|---|---|
| Modes.ParsePrint | src/mode.rs:44-68 | A string parses to a mode exactly if it is how that mode prints |
| Modes.TargetsNameTheMode | src/mode.rs:24-41 | The two targets are never both raised, tell the four modes apart, and are raised exactly in the ready modes |
| Devices.ScopeExact | src/main.rs:497-502 | The scope is the devices of vendor 10de and class 0302 or 0680 that can be passed through, all of them, each once, in the order enumerated |
| Devices.ScopeIsVendorAndClass | src/device.rs:45-115 | Scope, GPU or switch, CC capability and PPCIE follow from vendor, class prefix and chip, and agree with what the device opens as |
| Knobs.NothingToWriteIffInMode | src/nvidia.rs:84-123 | The plan is empty exactly where `verify` passes |
| Knobs.PlanReachesMode | src/nvidia.rs:78-123 | The plan takes a device of any kind from any state to the mode, by writes it accepts, through exclusive states only |
| Knobs.FireKeepsExclusive | src/nvidia.rs:70-82 | No sequence of writes raises one knob beside the other |
| Knobs.PlanIsMinimal | src/nvidia.rs:84-123 | No accepted sequence of writes that reaches the mode is shorter than the plan |
| Knobs.PlanIsForced | src/nvidia.rs:70-82 | From an exclusive state the plan is the only target-valued sequence of its length that works; two writes are planned only from a state with both knobs raised, and clear PPCIE first |
| Nvidia.ProbeModes | src/nvidia.rs:37-68 | Probing in place equals `ProbeAll` |
| Nvidia.ProbeReads | src/nvidia.rs:37-68 | A probe changes nothing; each device comes out as the hardware reports it, or untouched and recorded unreadable, which of the two the record says |
| Nvidia.ProbesEach | src/nvidia.rs:37-68 | A probe looks at each device that takes a mode once, in order |
| Nvidia.Apply | src/nvidia.rs:186-235 | The mode change carries out the script `Board` planned at its start, and returns one outcome per participant |
| Nvidia.OpenAll | src/nvidia.rs:187-194 | The first loop opens every participant |
| Nvidia.ReadAndPlan | src/nvidia.rs:196-213 | The second loop plans every device from the state at the start, whatever its place |
| Nvidia.WriteAll | src/nvidia.rs:215-221 | The third loop makes every planned write, device by device |
| Nvidia.ResetAll | src/nvidia.rs:223-228 | The fourth loop resets each written device, after all writes |
| Nvidia.VerifyAll | src/nvidia.rs:230-232 | The fifth loop re-reads every participant |
| Transaction.TwoPhase | src/nvidia.rs:182-235 | Every run attempts a prefix of opens, reads, writes, resets, verifications; none of it changes knobs before the first write or behaviour before the first reset |
| Transaction.OpenedAndReadFirst | src/nvidia.rs:125-126 | Before any device is written or reset, every device of the board has been opened and read |
| Transaction.ParticipantsInOrder | src/nvidia.rs:187-194 | The devices opened are in the order given |
| Transaction.BoardInOrder | src/nvidia.rs:187-232 | Each loop goes through its devices in order |
| Transaction.SuccessIsReported | src/nvidia.rs:230-273 | Success means every participant reports the mode, even if the firmware dropped writes |
| Transaction.SuccessLatches | src/nvidia.rs:215-228 | After success a written device behaves as it reports and any other as before |
| Transaction.SuccessIsBehaviourUnlessStale | src/nvidia.rs:176-228 | Success means every participant behaves in the mode, exactly if none was stale |
| Transaction.ResetOnceIffApplied | src/nvidia.rs:176-228 | The trace of a run that succeeds holds one reset of a device whose outcome is `Applied` and none of one that is `AlreadySet`; no run resets more |
| Transaction.CalmSucceeds | src/nvidia.rs:186-235 | From every state of the board, a mode change in which nothing fails succeeds |
| Transaction.BoardPlanIsMinimal | src/nvidia.rs:196-221 | No board-wide script of writes in any order that reaches the mode is shorter |
| Transaction.ExclusiveIsInductive | src/nvidia.rs:81-123 | No primitive of any run raises one knob beside the other |
| Transaction.SuccessIsExclusive | src/nvidia.rs:230-273 | After success no device with both knobs has both raised, whatever the start |
| Faults.ReportsModeIffWritten | ARCHITECTURE.md:390-394 | However a mode change ends, a device reports the mode exactly if the writes to it that the trace shows made are all those planned |
| Faults.PartWayReachableIff | ARCHITECTURE.md:393-394 | Some fault leaves the board with one device taken to the mode and another not in it exactly if two devices or more have something to write |
| Faults.PartWayIsReachable | ARCHITECTURE.md:393-394 | Every board with two devices to write can be left with one in the mode and one not |
| Faults.StaleIsReachable | src/nvidia.rs:223-228 | Every device to write can be left reporting the mode and behaving as before |
| Faults.StaleOutlivesNextRun | src/nvidia.rs:176-213 | The next mode change succeeds and leaves such a device as it is |
| Witnesses.TwoGpusPartWay | ARCHITECTURE.md:393-394 | Two H100s left one `on`, one `off` |
| Witnesses.GpuLeftStale | src/nvidia.rs:223-228 | One H100 that two runs leave reporting `on` and behaving `off` |
| Witnesses.SwitchResetUnchecked | src/main.rs:453-458 | A switch that a successful run resets without a look for holders |
| BootConfig.Persist | src/modules.rs:137-186 | The loop over the claims, the sorts and the three file operations equal `PersistEvents`, and return the overridden addresses |
| BootConfig.Unpersist | src/modules.rs:188-202 | Uninstalling removes the three files, and on success none is left |
| BootConfig.PersistCompletes | src/modules.rs:168-183 | A completed `persist` leaves exactly the compiled files, an old udev file gone if no rule is needed |
| BootConfig.OverriddenExact | src/modules.rs:151-158 | What `persist` returns are the addresses of the claims of another module than vfio_pci, in their order |
| BootConfig.FilesAreCanonical | src/modules.rs:163-183 | The modprobe and udev files do not depend on the order, repetition or slots of the claims |
| BootConfig.ModuleListDistinct | src/modules.rs:138-150 | The module list starts with the VFIO stack and names no module twice under either spelling |
| BootConfig.ModuleListExact | src/modules.rs:143-150 | Besides the stack it names exactly the claimed modules |
| RuleText.RuleReads | src/modules.rs:117-129 | To udev, a printed rule is four conditions and three things to do, each by its key, operator and value |
| RuleText.RuleMatches | src/modules.rs:117-129 | It matches the event of a PCI device with its ids coming up, and no other |
| RuleText.RuleDoes | src/modules.rs:120-129 | It overrides with the driver, loads the module, and probes |
| Text.HexDigitIs | src/modules.rs:160 | The ids are printed in lower-case hexadecimal |
| Ordering.FirstDifference | src/modules.rs:163-166 | The sorts are lexicographic: the first difference decides |
| Boot.IdOrder | src/modules.rs:160-164 | Sorting the ids as text is sorting them as pairs of numbers |
| Boot.OptionsRead | src/modules.rs:160-177 | To modprobe, the options line gives vfio-pci exactly the ids of the claims without override |
| Boot.UdevRead | src/modules.rs:151-183 | On the event of a device with the ids of a claim with override coming up, the udev file does what that claim asks; on any other, nothing |
| Boot.OneCarrier | src/modules.rs:143-166 | Each claim is carried by exactly one of the line, if its module is vfio_pci, and a rule, and no two rules are for the same ids |
| Boot.BootAgrees | src/modules.rs:131-186 | A claimed device boots onto its driver exactly if no other takes it first; the files put no device of other ids anywhere |
| Idle.VfioNodes | src/idle.rs:78-96 | The nodes are `/dev/vfio/<group>`, the group in decimal and not negative, and `/dev/vfio/devices/<cdev>` for each cdev |
| Idle.NumeralIffPrinted | src/idle.rs:82-84 | The group node's name is the one way to write the group's number down |
| Idle.PidReads | src/idle.rs:46-52 | A pid reads back exactly if it fits 32 bits |
| Idle.PidNames | src/idle.rs:46-52 | A name is a process's exactly if it is decimal digits, with or without a plus sign, for such a number |
| Idle.Holders | src/idle.rs:28-74 | The scan finds exactly the processes with a node open, in (pid, node) order without repetition where a pid names one process |
| Provision.ResolveDrivers | src/main.rs:281-303 | The loop loads and looks up as `ResolveScript`, and returns the drivers of `DriversOf` |
| Provision.VerifyIdle | src/main.rs:474-488 | Passes exactly if no device given has a holder |
| Provision.BindAll | src/main.rs:190-196 | Binds the passthrough devices in order |
| Provision.Release | src/main.rs:212-232 | Unbinds as `ReleaseScript` says from the drivers at its start |
| Provision.VerifyNode | src/main.rs:426-439 | Checks the driver and the mode of each passthrough device |
| Provision.Apply | src/main.rs:159-207 | The run equals `Run`, from any node, with any faults |
| Resolution.PassExact | src/main.rs:236-244 | The set is the scope, less the switches outside `ppcie` |
| Resolution.PassInOrder | src/main.rs:236-244 | And it is in the order of the scope |
| Resolution.ModuleFollowsIds | src/modules.rs:39-55 | Devices of the same ids that resolve get the same module, whether or not the fallback was allowed |
| Resolution.ResolveOkIff | src/main.rs:281-303 | Resolving succeeds only if each device has a module that registers a driver, and then does if nothing fails |
| Resolution.ClaimsResolved | src/main.rs:305-319 | The claims of a run that resolved carry the driver each module registers, by ids |
| Resolution.CoherentNeverOnPlainVfio | src/main.rs:246-277 | No coherently attached id is on the `ids=` line, and each one passed through has a rule for a variant module |
| Resolution.AcceptedNodeIsWhole | src/main.rs:337-366 | A node accepted for a raised mode has no GPU the mode change passes over, and under `ppcie` none without the knob |
| Resolution.GraceNodeAcceptedIff | src/main.rs:368-385 | A node with a Grace GPU is accepted for `off`, and for `ppcie` if all its GPUs carry PPCIE, and for nothing else |
| Resolution.GraceNodeAcceptedForPpcie | ARCHITECTURE.md:343-348 | A GH200 node accepted for `ppcie` |
| Stages.ResolveLoads | src/main.rs:288-296 | Where resolving succeeds it has loaded each device's module, and nothing else |
| Stages.ResolveStops | src/main.rs:288-296 | Where it stops at a device nothing serves, it has loaded the modules of those before it, and that device's if it registers no driver |
| Stages.BindsInOrder | src/main.rs:190-196 | The devices are bound in the order of the set, as far as it goes |
| Stages.ChecksPassed | src/main.rs:426-439 | The final checks pass only on devices on their drivers that report the mode |
| Guarantees.RefusedWhole | src/main.rs:162-183 | An error at or before the idle check leaves knobs, modes, drivers and files as they were |
| Guarantees.PastModing | src/main.rs:185-200 | Past the mode change the board reports the mode and no later stage touches it |
| Guarantees.DoneIsProvisioned | src/main.rs:159-207 | A run that succeeds leaves the node provisioned, from any state |
| Guarantees.HistoryIndependent | src/main.rs:159-207 | Two successful runs for a mode leave nodes alike, whatever came before |
| Guarantees.PastPersisting | src/main.rs:187-188 | A run past persisting leaves the boot files of the mode |
| Guarantees.BootsIntoMode | src/modules.rs:117-136 | What each device boots onto from the files of a mode |
| Guarantees.BootAgreesWithBind | src/main.rs:187-196 | Booting after a run stopped past persisting binds what a successful run binds |
| Guarantees.CarriersOfRun | src/modules.rs:143-166 | In a run's files each passthrough device has one carrier, and no coherent GPU is on the `ids=` line |
| Guarantees.NoGpuLeftBehind | src/main.rs:334-366 | After success in a raised mode every GPU took part and reports the mode |
| Guarantees.LabelsTellTheMode | src/device.rs:117-135 | On a board in the mode each GPU that takes one and could be read is labelled with the mode and its readiness, the rest not at all |
| Guarantees.LabelsAfterRun | src/device.rs:117-135 | The same after a successful run: a GPU recorded unreadable has no labels, so a failed probe never claims readiness |
| Coverage.CheckedExact | src/main.rs:443-472 | Which devices a run checks: those it will bind, release or write, and passthrough devices it cannot read |
| Coverage.IdleCoverage | src/main.rs:177-200 | Wherever a run stops, each device it disturbed was found idle or is a switch passed over |
| Coverage.UncheckedExactly | src/main.rs:453-458 | Past the mode change, the devices disturbed unchecked are exactly the switches kept on the host, off vfio, with the knob off target |
| Coverage.BeforeReleaseKeeps | src/main.rs:185-198 | Modes, persisting and binding leave alone who holds the other devices |
| Coverage.ReleaseIsChecked | src/main.rs:212-232 | `release` unbinds exactly the checked devices outside the set |
| Coverage.VfioUnderEitherSpelling | src/main.rs:218-221 | Rewriting the dashes does not change whether a driver name contains vfio, anywhere in it |
| Convergence.SuccessNeeds | src/main.rs:159-207 | A run that succeeds found the node acceptable, the devices idle and the passthrough set free to take |
| Convergence.CalmRunSucceedsIff | src/main.rs:159-207 | With nothing failing, a run succeeds exactly under those conditions, idle meaning that no device it would bind, release or write is held |
| Convergence.HeldBlocks | src/main.rs:474-488 | A held device that the run would have to change blocks it, whatever else happens |
| Convergence.KnobsMatterOnlyIfHeld | src/main.rs:441-472 | Two nodes alike in drivers and in which held devices are in the mode succeed alike |
| Convergence.ProvisionedStays | src/main.rs:72-74 | On a provisioned node a run for the mode, however it fails, disturbs no device and changes nothing |
| Convergence.ProvisionedSucceeds | src/main.rs:441-472 | On a provisioned node a run checks only unreadable devices; with nothing failing it succeeds with every device held |
| Convergence.DoneAgainIff | src/main.rs:159-207 | After a run that succeeded, another with nothing failing checks no device, and succeeds exactly if no driver bound by the first is a host GPU driver |
| History.RebootKeepsProvisioned | src/main.rs:72-74 | A provisioned node reboots provisioned exactly if no other driver takes a passthrough device first and no device kept on the host comes up on a vfio driver, of itself or by sharing ids |
| History.SettledForGood | src/main.rs:72-74 | Runs for the mode, failing or not, and quiet reboots keep a node provisioned |
| History.OneSuccessSettles | src/main.rs:159-207 | After any history, one successful run provisions the node for good |
| History.ExclusiveForever | src/nvidia.rs:81-123 | No history ever has CC raised and PPCIE on together on a device |
| History.RunKeepsCoherent | src/nvidia.rs:215-228 | A run leaves devices behaving as they report unless it dies in the middle of the mode change |
| History.DoneBehavesIff | src/nvidia.rs:223-228 | A successful run leaves the board behaving in the mode exactly if nothing was stale |
| History.UndamagedSuccessBehaves | src/nvidia.rs:223-235 | Where no run died mid-change since the last power cycle, success means the board behaves in the mode |
| Interrupted.HistoryFromRuns | src/modules.rs:168-202 | Wherever the runs and uninstalls of a history stop, each boot file is absent or as a run for some mode wrote it |
| Interrupted.AnyHistoryBootsOwn | src/modules.rs:117-186 | From such files a device of the scope boots onto what takes it first, its own target or nothing, and a device of other ids is left alone |
| Interrupted.CoherentNeverOnLine | src/main.rs:246-277 | In no such files is a coherently attached id on the `ids=` line |
| Cards.CardsAreScope | src/device.rs:45-67 | The scope is the NVIDIA GPUs and switches of the inventory |
| Cards.AcceptedIff | src/main.rs:337-385 | A node is accepted for `off` always, for `on` and `devtools` if every GPU has in-band CC and none is coherently attached, for `ppcie` if every GPU is a Hopper, and otherwise not |
| Cards.SwitchesHaveNoSay | src/main.rs:337-366 | Two nodes with the same GPUs are accepted alike, whatever their switches |
| Cards.ResolvedIs | src/modules.rs:39-55 | The module resolved is the alias table's, or vfio_pci where it has none, can be read, and the card is a switch or a GPU of a known chip, and never vfio_pci for a coherently attached card |
| Outcome.DoneMeans | src/main.rs:159-207 | After success every card is as the mode wants it |
| Outcome.OthersUntouched | src/device.rs:43-44 | Wherever a run stops, a device that is no such card stores, behaves and is bound as before |
| Outcome.CalmRunEnds | src/main.rs:159-207 | With nothing failing, which stage ends a run is decided by the node as found |
| Outcome.LoadsWhatServes | src/main.rs:281-303 | Past resolving, the modules that serve the cards taken are loaded, and no others |
| Aftermath.BootMeans | src/modules.rs:117-186 | What the `ids=` line and udev do to each card at boot, and what driver it gets |
| Aftermath.BootLoads | src/modules.rs:93-150 | The modules loaded at boot are the VFIO stack and those that serve |
| Aftermath.LabelsMean | src/device.rs:25-135 | The labels of each card after success, key and value |

## Left out

- BAR0, EMEM and FSP traffic, power and runtime suspend: inside `pcilibs_rs`; opening, reading, writing and resetting a device are single primitives.
- A device's two knobs are read by one primitive, so a fault between the two reads is a fault of the read.
- `modprobe`, the chroot and the search for the binary: loading a module is a primitive that may fail and otherwise adds a name.
- `modules_alias`: a kernel release that cannot be read is not a separate failure.
- Files are whole texts: parent directories and a write cut short are not modelled.
- Which devices a boot leaves unbound after a run that died between the first and the third file of `persist`: stated is only that none boots onto another's driver.
- Processes that open or close a device while a run scans or changes it: the code does not claim to exclude them.
- `comm` is taken as read and trimmed; the part of the comparison of paths that the file system could add, such as links, is not modelled.
- `status`, argument parsing, `target_of` and all printing and error texts: user interface.
- `tools/profile-index`, the Helm chart, its profiles and RBAC, and the dispatcher: deployment.
