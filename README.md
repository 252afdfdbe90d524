# userland — a verified model of the VM lifecycle and persistence core

userland runs an Alpine Linux guest in the browser. It uses the v86 x86 emulator and keeps
full-machine snapshots in the origin-private file system (OPFS). This project models the
logic around that engine and proves properties of the model in Dafny. The modelled logic is:

- the lifecycle state machine of the provider (start, stop, save, restore);
- the emulator adapter: the engine instance, serial I/O and the listener registry;
- the snapshot store (`states/{id}.bin`);
- the package profiles and the shell scripts rendered from them;
- the profile installer, which injects a script line by line into the serial console;
- the terminal's serial bridge, which connects and disconnects on every emulator change;
- the control panel's decision table of which buttons are shown and enabled.

The engine itself is opaque. Each object of class `EngineInstance` records the requests it
receives (`stop`, `destroy`, `save_state`, `restore_state`, `serial0_send`) in a call log.
The engine's behaviour enters as parameters:

- whether the library is loaded;
- whether construction throws;
- whether 'emulator-started' ever fires (`Boot`);
- the snapshot `save_state` yields, or none;
- whether `restore_state` accepts the snapshot.

The OPFS store enters as a shared mutable object `OriginPrivateFS`. It holds a map from names
to `File(bytes)` and `Directory(children)` handles. The browser refusing access is a null
root. A failing write is a flag.

| file | module | form |
|---|---|---|
| base.dfy | `Base` | bytes, `Option`, `Result`, `Outcome`, the error kinds |
| seqs.dfy | `Seqs` | `indexOf` and `splice(i, 1)` on sequences |
| text.dfy | `Text` | the JavaScript string operations the core uses, with their laws |
| v86.dfy | `Emulator` | class `V86Emulator` over an `EngineInstance` call log |
| opfs.dfy | `Storage` | class `OPFSManager` over `OriginPrivateFS`, with the store's laws as functions and lemmas |
| provider.dfy | `Lifecycle` | class `V86Provider` with its `emulator` and `status` fields |
| profiles.dfy | `Profiles` | pure functions and lemmas |
| profile_manager.dfy | `ProfileInstall` | class `ProfileManager` with its `installing` flag, and the injection loop |
| terminal.dfy | `SerialBridge` | class `TerminalComponent` with its `cleanupRef`, plus the xterm surface it uses |
| vm_manager.dfy | `Controls` | pure functions and lemmas |

Properties worth reading first:

- **Save then restore.** After a successful save, a restore hands the new engine exactly the
  saved bytes (`Lifecycle.SaveStopRestore`). Both use the fixed id `"default"`.
- **A rejected save can wedge the lifecycle.** Suppose the engine rejects a snapshot.
  - The provider keeps the emulator and reports `error`.
  - The controls then offer Start and Restore, but Start does nothing while an emulator is
    held.
  - With no snapshot stored, Restore reports `stopped` and still holds the old engine, which
    is never halted.
  - The provider is then wedged: an emulator is held, the status is `stopped` or `error`,
    and no snapshot is stored (`Lifecycle.RejectedSaveWedges`).
  - From a wedged state the controls offer Start and Restore and nothing else. Every
    sequence of those clicks, with storage access granted or refused, keeps the provider
    wedged on the same engine, which is never halted (`Lifecycle.StayWedged`).
  - With a snapshot stored, Restore starts a second engine while the first one stays alive
    (`Lifecycle.RejectedSaveThenRestore`).
- **The "Saving..." caption is unreachable.** The `saving` status shows the Start/Restore
  pair, so the Save button only appears in `running` and `starting`, where it always reads
  "Save State" (`Controls.Render`).
- **Installing a profile injects the script plus one newline.** The text handed to
  `sendSerial` is the apply script followed by one extra newline, one piece per `\n`-separated
  line (`ProfileInstall.InjectedText`, `ProfileInstall.ProfileManager.HandleInstall`).
- **Switching emulators restores the old listener list.** Switching the terminal from
  emulator A to emulator B gives A its listener list back exactly, and leaves one bridge
  registration, on B (`SerialBridge.SwitchEmulator`). React runs the effect's returned
  teardown before it runs the effect again, so by then no connection is stored, and the
  effect body's own "clear previous connection" branch does nothing.
- **`listStates` does not return every saved id under its own name.** It strips the FIRST
  `.bin` of each file name, not the suffix. A saved id comes back under its own name exactly
  when either holds:
  - it contains no `.bin`;
  - everything from its first `.bin` onwards is a run of whole `.bin`s.

  So "x.bin" comes back as itself, while ".binx" comes back as "x.bin"
  (`Storage.ListedNameRoundTrip`, `Storage.ListedNameMangles`).

## Model

| member | source | states |
|---|---|---|
| Lifecycle.V86Provider.constructor | web/src/contexts/V86Provider.tsx:26-28 | no emulator, status `stopped`, a fresh store manager without a root; the invariant `Valid` holds |
| Lifecycle.V86Provider.Start | web/src/contexts/V86Provider.tsx:30-52 | with an emulator held, neither the emulator nor the status changes. Otherwise: a started engine gives a fresh adapter for the 512 MiB Alpine machine, holding a fresh instance with an empty call log, and status `running`. A missing library or a throwing constructor gives `error` and no emulator. A start that never settles leaves `starting`. The invariant `Valid` (a held emulator has an engine, and `running` implies one is held) is required and kept, as by the other three operations |
| Lifecycle.V86Provider.Stop | web/src/contexts/V86Provider.tsx:54-60 | with an emulator: its instance gets `stop` then `destroy`, the adapter drops it and keeps its listeners; the provider holds nothing and reports `stopped`. Without one, the status is untouched, including `error` |
| Lifecycle.V86Provider.SaveState | web/src/contexts/V86Provider.tsx:62-75 | the emulator reference never changes. Without an emulator, nothing changes. The store is initialised before the engine is asked for a snapshot. Success writes the snapshot under `"default"` (exactly `Put` of the old root) and reports `running`. An unavailable store, a rejected snapshot, a blocked path or a failed write reports `error`, with the root's contents exact in every case |
| Lifecycle.V86Provider.RestoreState | web/src/contexts/V86Provider.tsx:77-106 | an unavailable store gives `error`. A missing `"default"` snapshot gives `stopped` with the held emulator unchanged. A failed start or a rejected restore gives `error`, a start that never settles leaves `restoring`, and in all these cases the old emulator stays held. On success a fresh adapter whose fresh instance received exactly the stored bytes is held and the status is `running`. The previous emulator is outside the frame, so it is never touched |
| Lifecycle.SaveStopRestore | web/src/contexts/V86Provider.tsx:62-106 | start, save, stop, restore: each step is enabled by the controls in the status the previous step left. The restored engine's only request is `restore_state` of the saved bytes, and the store holds them under `"default"` |
| Lifecycle.RejectedSaveWedges | web/src/contexts/V86Provider.tsx:30-87 | after a rejected save the status is `error` with Start offered and Stop not. After Start (a no-op), Restore without a snapshot and Start again: `stopped`, Start offered, Stop not, and the first engine still held and never halted (its log is only `save_state`). The provider ends `Wedged` |
| Lifecycle.StayWedged | web/src/contexts/V86Provider.tsx:30-106 | from a wedged provider (emulator held, `stopped` or `error`, no `"default"` snapshot), any sequence of Start and Restore clicks, whatever the engine does and whether or not storage access is granted, keeps it wedged: the same emulator with the same engine and call log, the store unchanged, Start and Restore enabled and Save and Stop disabled |
| Lifecycle.RejectedSaveThenRestore | web/src/contexts/V86Provider.tsx:71-101 | after a rejected save, Restore is offered in `error`. Restoring from a stored snapshot runs a second engine that received that snapshot, while the first engine is still alive and never halted |
| Emulator.V86Emulator.constructor | web/src/lib/v86.ts:30-37 | no instance, no listeners, the given configuration |
| Emulator.V86Emulator.IsRunning | web/src/lib/v86.ts:121-123 | the adapter is running exactly when it holds an engine instance. `Start` ensures that `Resolved` implies it, and `Stop` that it ends false |
| Emulator.V86Emulator.Start | web/src/lib/v86.ts:39-77 | a missing library rejects with no instance created. A throwing constructor rejects. Otherwise a fresh instance sized `memoryMB * 1024 * 1024` is held before the promise settles. The promise resolves only when 'emulator-started' fires (`Resolved` implies `IsRunning`). The listeners are kept in every case |
| Emulator.V86Emulator.DeliverSerialByte | web/src/lib/v86.ts:67-72 | one delivery per registered listener, in registration order, each with the byte |
| Emulator.V86Emulator.Stop | web/src/lib/v86.ts:79-85 | afterwards no instance is held. A held instance receives `stop` then `destroy`. The listeners are unchanged either way |
| Emulator.V86Emulator.SaveState | web/src/lib/v86.ts:87-92 | without an instance it fails with "not running"; otherwise the instance receives `save_state`, and the result is the engine's snapshot or its rejection |
| Emulator.V86Emulator.RestoreState | web/src/lib/v86.ts:94-99 | without an instance it fails with "not running"; otherwise the instance receives `restore_state(state)`, and the result is the engine's acceptance or rejection |
| Emulator.V86Emulator.SendSerial | web/src/lib/v86.ts:101-106 | the instance receives `serial0_send(text.charCodeAt(i))` for every i in order; without an instance nothing happens |
| Emulator.V86Emulator.SendSerialByte | web/src/lib/v86.ts:108-111 | exactly one `serial0_send(code)` request; without an instance nothing happens |
| Emulator.V86Emulator.OnSerialOutput | web/src/lib/v86.ts:113-119 | the callback is appended to the listeners, the instance is untouched, and the returned closure is bound to this adapter and this callback |
| Emulator.V86Emulator.Unsubscribe | web/src/lib/v86.ts:115-118 | the listeners become `RemoveFirst` of the old ones: one occurrence goes, and once none remain a call is a no-op |
| Seqs.IndexOf | web/src/lib/v86.ts:116 | -1 exactly when the element is absent; otherwise a position holding it with no earlier occurrence |
| Seqs.RemoveAt | web/src/lib/v86.ts:117 | one element shorter; the elements before `i` stay, the ones after shift down by one |
| Seqs.RemoveFirst | web/src/lib/v86.ts:116-117 | an absent element leaves the sequence as it is; a present one makes it one shorter |
| Seqs.RemoveFirstMultiset | web/src/lib/v86.ts:116-117 | exactly one occurrence of the element leaves the multiset of the sequence |
| Seqs.RemoveFirstOfAppended | web/src/lib/v86.ts:113-118 | subscribing a new callback and then calling its closure restores the listener list exactly |
| Text.Split | web/src/components/ProfileManager.tsx:22 | at least one piece, and no piece contains the separator |
| Text.JoinSplit | web/src/components/ProfileManager.tsx:22 | joining the pieces of `split` with the separator gives the string back |
| Text.TerminatedSplit | web/src/components/ProfileManager.tsx:22-24 | sending every piece of `s.split('\n')` with a newline appended produces `s + "\n"` |
| Text.SplitAppend | web/src/components/ProfileManager.tsx:22 | splitting distributes over an occurrence of the separator |
| Text.TrimStart | web/src/lib/profiles.ts:15-18 | the result is a suffix; everything removed is ECMAScript white space or a line terminator, and the result does not start with either |
| Text.TrimEnd | web/src/lib/profiles.ts:15-18 | the result is a prefix; everything removed is white space or a line terminator, and the result does not end with either |
| Text.TrimAround | web/src/lib/profiles.ts:15-18 | `trim` removes exactly the white space around a core that neither starts nor ends with white space |
| Text.Trim | web/src/lib/profiles.ts:15-18 | `trim()` as `trimStart` then `trimEnd`; `Text.TrimAround` is its partner: it removes exactly the white space around a core that is not blank at either end |
| Text.Find | web/src/lib/opfs.ts:66 | the position `replace` acts on: an occurrence with no earlier one, or none at all |
| Text.ReplaceFirst | web/src/lib/opfs.ts:66 | without an occurrence the string is kept; with one, the length changes by the difference of pattern and replacement |
| Text.EndsWith | web/src/lib/opfs.ts:65 | the suffix test of `endsWith`; `Storage.FileName` proves every snapshot file name passes it |
| Text.Join | web/src/lib/profiles.ts:67-84 | `Array.join`; `Text.JoinSplit` proves it inverse to `split`, and `Profiles.ApplyScriptLines` uses it for the package lists |
| Storage.OPFSManager.Init | web/src/lib/opfs.ts:4-6 | an available root is taken (again, on a repeated call); a refused one fails and leaves the old root |
| Storage.OPFSManager.EnsureInit | web/src/lib/opfs.ts:8-13 | fails with "not initialized" exactly when no root is held; otherwise yields the root |
| Storage.OPFSManager.SaveVMState | web/src/lib/opfs.ts:15-24 | not initialized: failure. A `states` that is a file, or an existing `{id}.bin` directory: failure, store unchanged. An id that is not a valid file name (a '/' in it): failure once `states` has been created (`Opened`). A failed write leaves `states` and the file created (an empty file for a new id). Success returns `"states/" + id + ".bin"` and the store is exactly `Put` of the old one |
| Storage.OPFSManager.LoadVMState | web/src/lib/opfs.ts:26-36 | not initialized: failure; otherwise never fails and yields `Load` of the store, which is null when `states` or the file is missing, or the id is not a valid file name |
| Storage.OPFSManager.DeleteVMState | web/src/lib/opfs.ts:38-47 | not initialized: failure. Otherwise true exactly when the entry is removable, and then the store is exactly `Removed`; false changes nothing |
| Storage.OPFSManager.ListStates | web/src/lib/opfs.ts:57-73 | not initialized: failure. No `states`: the empty list. Otherwise one name per `.bin` file, and a name is listed exactly when it is the first-`.bin`-stripped name of such a file |
| Storage.OPFSManager.constructor | web/src/lib/opfs.ts:1-2 | no root is held until `init` |
| Storage.FileName | web/src/lib/opfs.ts:17-19 | the file name starts with the id, is four characters longer, and ends in `.bin` |
| Storage.Load | web/src/lib/opfs.ts:26-36 | a snapshot that loads is a `.bin` file in `states`, so `listStates` reports it; an invalid file name loads as null |
| Storage.Writable | web/src/lib/opfs.ts:18-19 | a path the save cannot open (`states` a file, `{id}.bin` not a valid file name, or `{id}.bin` a directory) holds no loadable snapshot |
| Storage.Opened | web/src/lib/opfs.ts:18 | `getDirectoryHandle('states', {create: true})` leaves an existing `states` (or a blocking file) as it was, and otherwise creates `states` empty |
| Storage.SlashIdNeverStored | web/src/lib/opfs.ts:19 | an id holding '/' is never loaded, written or removed, since `{id}.bin` is not a valid file name |
| Storage.Put | web/src/lib/opfs.ts:18-22 | the top-level names are the old ones plus `states`, every other top-level entry is unchanged, and `states/{id}.bin` holds the written handle |
| Storage.Touched | web/src/lib/opfs.ts:18-21 | after a write that fails, a file exists under the id whenever the path could be opened, and a snapshot already stored keeps its bytes |
| Storage.Removable | web/src/lib/opfs.ts:41-42 | every stored snapshot can be removed, and removal needs an existing `states` (and a valid file name) |
| Storage.Removed | web/src/lib/opfs.ts:41-42 | other top-level entries are unchanged and the id no longer loads |
| Storage.ListedName | web/src/lib/opfs.ts:66 | `replace('.bin', '')` with a string pattern, so only the first `.bin` goes; `Storage.ListedNameAt` gives the result at that position and `Storage.ListedNameRoundTrip` says when an id survives |
| Storage.GetQuota | web/src/lib/opfs.ts:49-55 | a missing usage or quota is reported as 0; a present one as it is |
| Storage.LoadAfterPut | web/src/lib/opfs.ts:15-32 | a snapshot saved under a valid file name loads back byte for byte, whatever was stored before |
| Storage.PutLeavesOthers | web/src/lib/opfs.ts:18-22 | saving one id leaves what every other id loads unchanged |
| Storage.FileNameInjective | web/src/lib/opfs.ts:19 | different ids name different files |
| Storage.DeleteLaws | web/src/lib/opfs.ts:38-47 | a stored snapshot is removable. After a removal the id loads as null and a second delete reports false. A delete reports false only when the name is not a valid file name, or the entry is missing or a non-empty directory |
| Storage.RemovedLeavesOthers | web/src/lib/opfs.ts:38-47 | deleting one id leaves what every other id loads unchanged |
| Storage.TouchedLoadsEmpty | web/src/lib/opfs.ts:19-21 | after a failed write of a new id, that id loads as an empty snapshot, not as null |
| Storage.PutIsListed | web/src/lib/opfs.ts:64-66 | every file `saveVMState` writes is one `listStates` reports |
| Storage.ListedNamesStep | web/src/lib/opfs.ts:64-67 | visiting one more directory entry adds its listed name exactly when it is a `.bin` file |
| Storage.ListedNameRoundTrip | web/src/lib/opfs.ts:66 | an id is listed as itself exactly when it has no `.bin`, or everything from its first `.bin` on is a run of `.bin` |
| Storage.ListedNamePlainId | web/src/lib/opfs.ts:66 | an id without `.bin` is listed as itself |
| Storage.ListedNameMangles | web/src/lib/opfs.ts:66 | the id ".binx" is listed as "x.bin" |
| Storage.FindInFileName | web/src/lib/opfs.ts:66 | the first `.bin` of `id + ".bin"` is the first `.bin` of the id, or the appended one |
| Storage.BinRunCommutes | web/src/lib/opfs.ts:66 | a run of `.bin` commutes with `.bin` |
| Storage.BinRunShift | web/src/lib/opfs.ts:66 | a string starting with `.bin` survives losing its first `.bin` and gaining one at the end exactly when it is a run of `.bin` |
| Profiles.ApplyScript | web/src/lib/profiles.ts:61-77 | the apply script begins with `#!/bin/sh\nset -e\n` and ends with a newline |
| Profiles.RemoveScript | web/src/lib/profiles.ts:79-88 | the remove script begins with `#!/bin/sh\nset -e\n` and ends with a newline |
| Profiles.ApplyScriptLines | web/src/lib/profiles.ts:61-77 | for single-line names, descriptions and packages, the apply script's lines are given in full. They include the packages comment joined with ", ", `apk add --no-cache` with the packages joined by spaces, the verification echo followed verbatim by the profile script's own lines, and the success message |
| Profiles.RemoveScriptLines | web/src/lib/profiles.ts:79-88 | the remove script's lines in full, including the `apk del` line with the packages joined by spaces and its fallback to `true` |
| Profiles.BuiltinCatalogue | web/src/lib/profiles.ts:9-59 | five built-in profiles, pairwise distinct ids, each well formed and each with at least one package |
| Profiles.BuiltinWellFormed | web/src/lib/profiles.ts:9-59 | every built-in profile renders its name, description and packages on single lines |
| Profiles.TrimmedScript | web/src/lib/profiles.ts:15-18 | a script literal with a leading line break and trailing line break plus indentation trims to its commands |
| Profiles.BuiltinScriptTrimmed | web/src/lib/profiles.ts:15-58 | each built-in script is what `.trim()` leaves of its template literal |
| ProfileInstall.ProfileManager.constructor | web/src/components/ProfileManager.tsx:11 | nothing is being installed |
| ProfileInstall.Busy | web/src/components/ProfileManager.tsx:14 | the truthiness of `installing`: a non-empty id; `ProfileInstall.ButtonMatchesGuard` compares it with the button's `!== null` test |
| ProfileInstall.ProfileManager.Accepts | web/src/components/ProfileManager.tsx:14 | the guard of `handleInstall`: an emulator is present and `installing` is falsy; `HandleInstall` ensures nothing is sent exactly when it fails |
| ProfileInstall.ProfileManager.HandleInstall | web/src/components/ProfileManager.tsx:13-30 | without an emulator, or with an install in progress (truthy `installing`), nothing is sent and the flag stays. Otherwise the texts sent are exactly `Injected` of the apply script, the engine's requests are those for script plus "\n", and `installing` ends null |
| ProfileInstall.Inject | web/src/components/ProfileManager.tsx:19-27 | one `sendSerial` per `\n`-separated piece, in order, each with "\n" appended; the requests are exactly those for the script followed by one newline |
| ProfileInstall.Injected | web/src/components/ProfileManager.tsx:22-24 | one text per piece of `split('\n')`, the piece with "\n" appended |
| ProfileInstall.InjectedText | web/src/components/ProfileManager.tsx:22-24 | the concatenation of all sent text is the script followed by one extra newline |
| ProfileInstall.Button | web/src/components/ProfileManager.tsx:52-58 | disabled exactly without an emulator or while any install is in progress; "Installing..." exactly on the card whose id is `installing`, "Install" elsewhere |
| ProfileInstall.ButtonMatchesGuard | web/src/components/ProfileManager.tsx:14-55 | an enabled button means a click is accepted. A disabled button refuses the click, except when `installing` is the empty id: that id is falsy, so it disables the buttons without blocking a click |
| ProfileInstall.OneCardInstalling | web/src/components/ProfileManager.tsx:57 | while a built-in profile installs, exactly its card reads "Installing..." |
| SerialBridge.DataHandler.Handle | web/src/components/Terminal.tsx:90-94 | typed data goes to the engine as one `serial0_send` per character code, in order |
| SerialBridge.ForwardOutput | web/src/components/Terminal.tsx:85-87 | an output byte appends `String.fromCharCode(byte)` to the terminal |
| SerialBridge.TerminalComponent.Disconnect | web/src/components/Terminal.tsx:69-73 | the stored teardown runs at most once: the callback leaves its emulator's listeners (`RemoveFirst`), the handler leaves the terminal's registrations, and the ref becomes null |
| SerialBridge.TerminalComponent.Connect | web/src/components/Terminal.tsx:65-99 | without a terminal nothing changes: not the stored connection, the emulator, or the objects of the old connection. Otherwise the previous connection is torn down first, leaving its emulator's instance alone and, on another terminal, that terminal's text. With a null emulator no connection remains, the terminal's text is kept, and its handler list is the old one with the old connection's handler disposed. With an emulator: the terminal shows only the boot banner; the listener list is the detached old list plus one fresh callback; the handler list is the disposed old list plus one fresh handler bound to that emulator; the pair is stored as the teardown |
| SerialBridge.TerminalComponent.Attach | web/src/components/Terminal.tsx:79-99 | clear and banner, one fresh callback appended to the emulator's listeners, one fresh handler appended to the terminal's, and their teardown stored |
| SerialBridge.TerminalComponent.Teardown | web/src/components/Terminal.tsx:101-106 | the effect's own teardown runs the stored cleanup at most once and nulls the ref: the callback and the handler leave their lists (`RemoveFirst`), the emulator's instance and the terminal's text are unchanged; a second run does nothing |
| SerialBridge.SwitchEmulator | web/src/components/Terminal.tsx:65-107 | connecting to A, running the returned teardown, and then connecting to B gives A its listener list back exactly, and B and the terminal each get one new registration |
| SerialBridge.SwitchToNone | web/src/components/Terminal.tsx:65-107 | connecting to A, running the returned teardown, and then running the effect with no emulator leaves A's listener list and the terminal's handler list exactly as before, A's engine untouched, no stored connection, and the banner on screen |
| Controls.Render | web/src/components/VMManager.tsx:12-52 | Start/Restore are shown exactly when the status is neither `running` nor `starting`, and are then disabled exactly in `saving` and `restoring`. Save is enabled exactly in `running`. Stop is enabled in `running` and disabled in `starting`. The Save caption is always "Save State" |
| Controls.EnabledControls | web/src/components/VMManager.tsx:14-50 | no control is enabled while an operation is under way. Start and Restore are enabled exactly in `stopped` and `error`, Save and Stop exactly in `running` |
| Controls.IsRunning | web/src/components/VMManager.tsx:13 | the status is `running`; `Controls.EnabledControls` ties it to Save and Stop |
| Controls.IsBusy | web/src/components/VMManager.tsx:14 | busy exactly when the status is neither running nor at rest (`stopped` or `error`) |

## Left out

- The engine itself and its configuration literal (`wasm_path`, BIOS images, kernel command
  line, `vga_memory_size`, `screen_container`) are not modelled. An instance is opaque, and
  its outcomes are method parameters.
- The `onStatusChange` callback the provider passes is not modelled: the adapter stores it
  but never calls it.
- Asynchrony is not modelled. Each operation runs to completion as one sequential method, so
  the following are out of the model:
  - overlapping lifecycle calls;
  - React's deferred state updates and stale `useCallback` closures;
  - the 50 ms pause between injected lines.
- ProfileInstall.ProfileManager.HandleInstall: the contract gives the state before and after
  the whole install. It does not expose the intermediate renders in which `installing` is set
  while the lines are sent.
- Logging (`console.error`, `console.warn`) is left out.
- Storage.OPFSManager.ListStates: the contract gives the listing as its length and its set of
  names. It does not give the order, because directory iteration order is unspecified, nor
  how often a name repeats: "x.bin.bin" and ".binx.bin" both list as "x.bin".
- Storage.ValidName: only the File System standard's rule (no '/') is modelled. Further
  restrictions a browser places on file names are not.
- OPFS primitives (`createWritable`, `getFile`, `navigator.storage.estimate`) are reduced to
  the map they act on. Storage.GetQuota takes the estimate as a parameter.
- `formatBytes` is left out: it is floating-point formatting.
- Character codes are Dafny characters, not UTF-16 code units. A character outside the Basic
  Multilingual Plane is one code here but two in JavaScript.
- `serial0_send` receives any natural number, as the adapter passes values through
  unchecked.
- SerialBridge.XTerm.Clear: `terminal.clear()` is modelled as emptying the written text;
  xterm's exact treatment of the prompt line is not captured.
- The first effect of the terminal component (construction, fit, resize) is left out: it is
  rendering only.
- The callback object is modelled by its identity only; its body is `SerialBridge.ForwardOutput`.
- The built-in profile scripts are written as the values of their trimmed template literals.
  `Profiles.BuiltinScriptTrimmed` proves the trim.
- A restore whose engine starts but rejects the snapshot leaves a started engine that nothing
  references. The model does not track such unreferenced engines.
- The HTTP server, the status bar, the disk manager and its hook, the database provider and
  schema, and the application shell are not part of this model.
