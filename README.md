# firmware-manager GTK widget core, in Dafny

This project models the core of the GTK firmware widget of firmware-manager
(`gtk/src/lib.rs`). It covers four parts:

- **Progress scheduler** (`progress.dfy`): the 100 ms timer callback of
  `progress_handler`. It drains the progress channel into the set of animating
  progress bars, then pulses each bar. `Drain` is the specification of one tick.
  `ProgressHandler.Tick` is the imperative loop, proved against `Drain`.
- **Error-chain flattening** (`errors.dfy`): the `while let Some(error) = cause`
  loop. It turns an error and its causes into one info-bar line. The loop is
  proved to equal `Flattened`, and `Flattened` is proved to be the chain joined
  by `": "`.
- **Confirmation decisions** (`dialogs.dfy`): `fwupd_dialog`,
  `s76_system_dialog`, and the two Thelio I/O click handlers. Each is a pure
  function of the modal's answer and of whether the control's weak references
  are still alive. Each returns the modal it shows, whether the control swaps
  its button for its progress bar, and the messages sent, in order.
- **Signal dispatcher** (`widget.dfy`): the closure attached to the signal
  channel, as the class `FirmwareWidget`. Its fields are:
  - the entity registry: the current scan's entities, the system entities and
    the Thelio I/O keys;
  - `device_widgets`;
  - the shared Thelio I/O state `ThelioData`;
  - the view stack;
  - one ordered log of everything the closure makes happen outside itself:
    progress events, worker commands, reboots and info-bar errors.

  Each signal arm is a method, proved to leave exactly the state that a function
  on a value snapshot of the fields (`State`) defines. `Next` picks that function
  for a signal, `Run` folds it over a sequence of signals, and `Dispatch` is proved
  to step the class as `Next` steps its snapshot. The invariant `Inv` (the class
  invariant `Valid` is `Inv` of the snapshot) covers four things:
  - every control belongs to an allocated entity;
  - the Thelio I/O keys are Thelio controls in increasing order;
  - only the first Thelio board can show its upgrade control;
  - the shared flag and digest are exactly those the group's members define.

`scenarios.dfy` walks a fresh dispatcher, through `Dispatch`, across a few short
signal sequences (an empty scan; two Thelio I/O boards, then an update of the
group; a system firmware update followed by an error; Stop) and proves what the
widget shows and sends at the end of each.

In these respects the model follows the code:

- **Stale signals.** `Scanning` clears only `entities.entities`
  (`gtk/src/lib.rs:218`); `device_widgets`, the system association, the Thelio
  I/O keys and the shared Thelio state are kept. So, as long as the slot of an
  entity from an earlier scan has not been handed out again, a `DeviceUpdated`
  for that entity still updates its control, and still triggers a reboot if the
  entity was associated as system firmware.
- **Thelio flag.** The shared `upgradeable` flag of the Thelio I/O group is only
  ever raised (`gtk/src/lib.rs:289-291`): neither a completed update of the group
  nor a new scan lowers it.
- **Order of sends.** When a dialog goes ahead, the progress bar's `Activate`
  is sent before the worker command (`gtk/src/lib.rs:470-479`).
- **Thelio digest.** A click on a Thelio I/O row reads the shared digest at
  click time (`gtk/src/lib.rs:327-357`). The upgrade button of a board uses the
  digest that board brought at discovery (`gtk/src/lib.rs:302-316`).

## Model

| member | source | states |
|---|---|---|
| Progress.ProgressHandler.Tick | gtk/src/lib.rs:529-558 | One tick leaves the animating set, the still-queued events and the continue flag that `Drain` defines. It pulses every animating bar exactly once when the tick pulses, and nothing otherwise. |
| Progress.PulseAll | gtk/src/lib.rs:553-555 | Every bar of the animating set is pulsed exactly once. |
| Progress.DrainTracksLastEvent | gtk/src/lib.rs:532-537 | Within a tick without Clear, a bar animates afterwards exactly when the last event naming it was an Activate, or none named it and it was animating. |
| Progress.MatchedDeactivateStops | gtk/src/lib.rs:532-537 | A Deactivate not followed by another event for the same bar leaves that bar stopped, whatever Activates came before. |
| Progress.RepeatedActivateIsNoOp | gtk/src/lib.rs:532-534 | Activating the same bar twice in a row acts as once (set insertion). |
| Progress.DeactivateAbsentIsNoOp | gtk/src/lib.rs:535-537 | Deactivating a bar that is not animating changes nothing. |
| Progress.ClearEndsTick | gtk/src/lib.rs:538-541 | A Clear empties the set and ends the tick at once. The tick continues without pulsing, and the events after the Clear stay queued. |
| Progress.DrainWithoutClear | gtk/src/lib.rs:542-557 | Without a Clear the tick consumes the whole queue. It pulses and continues exactly when the channel is still connected. |
| Progress.AnimatesAfterFirst | gtk/src/lib.rs:530-537 | The backward reference definition agrees with processing the first event and then the rest. |
| Progress.AnimatesAfterUnnamedSuffix | gtk/src/lib.rs:532-537 | Events that do not name a bar do not change whether it animates. |
| ErrorChain.Flatten | gtk/src/lib.rs:141-146 | The loop's message is the error's text followed by `": "` and the text of each cause, nearest first. |
| ErrorChain.FlattenedIsJoin | gtk/src/lib.rs:141-146 | That message is the error's text and its causes joined by `": "`, checked against an independent join built from the last part. |
| ErrorChain.FlattenedNests | gtk/src/lib.rs:141-146 | An error without a cause shows its own text. Otherwise it shows its text, `": "`, and its cause's flattened message. |
| ErrorChain.SuffixesAppend | gtk/src/lib.rs:143-145 | Appending a cause appends `": "` and its text to the message. |
| Dialogs.FwupdDialog | gtk/src/lib.rs:449-481 | The modal is skipped exactly for the upgrade button of a device that needs no reboot. The modal lists the releases newest first, with the control's flag and the device's reboot need. The dialog goes ahead exactly when the modal was skipped or accepted. Going ahead sends the Activate first (only while the widgets are alive), then the Fwupd command with the last release. Otherwise nothing is sent. |
| Dialogs.ReleaseLog | gtk/src/lib.rs:456-457 | The log has one entry per release, in reverse order, each with the release's version and description. |
| Dialogs.S76SystemDialog | gtk/src/lib.rs:492-516 | A modal that always warns of a reboot and lists the changelog in order. Only Accept sends anything: the Activate while the widgets are alive, then S76System with the device's digest and newest version. |
| Dialogs.ThelioUpgradeClicked | gtk/src/lib.rs:302-316 | No modal. Always sends the Activate while the widgets are alive, then ThelioIo with the digest this board brought. |
| Dialogs.ThelioClicked | gtk/src/lib.rs:327-357 | A modal without reboot whose one log entry is the newest version, showing the shared flag. Without a shared digest nothing is sent. With one, Accept sends the Activate while alive and then ThelioIo with the shared digest as it is at click time. |
| Dialogs.SendsAtMostOneCommand | gtk/src/lib.rs:468-480 | A cancelled dialog sends no command. A dialog that goes ahead sends exactly one, after the Activate when the widgets are alive. |
| Widget.FirmwareWidget.constructor | gtk/src/lib.rs:94-101 | A fresh dispatcher has no entities and no controls, shows the empty page, and has neither a Thelio flag nor a digest. |
| Widget.FirmwareWidget.Dispatch | gtk/src/lib.rs:103-385 | Each signal keeps the class invariant. On Stop the closure returns Continue(false); after that it is not called again and nothing changes. On any other signal it returns Continue(true) and leaves exactly the state `Next` defines for that signal. |
| Widget.FirmwareWidget.Handle | gtk/src/lib.rs:104-378 | The `match event` leaves exactly the state `Next` defines for the signal. |
| Widget.FirmwareWidget.DeviceUpdated | gtk/src/lib.rs:106-137 | For a Thelio I/O board, every board's control is hidden and labelled, and each board's bar is deactivated in key order. For any other known control, only that control is updated, its flag cleared and its bar deactivated, followed by a reboot if it is system firmware. An unknown entity changes nothing. No other field changes. |
| Widget.FirmwareWidget.UpdateGroup | gtk/src/lib.rs:111-118 | The group's controls are updated as `UpdateEach` defines, and its Deactivates are appended to the output log. |
| Widget.UpdateEach | gtk/src/lib.rs:111-118 | The loop updates exactly the listed controls and sends one Deactivate per key, in key order. |
| Widget.FirmwareWidget.ReportError | gtk/src/lib.rs:139-158 | The flattened message goes to the info bar. A named control gets its button back, and nothing else changes. |
| Widget.FirmwareWidget.FwupdFound | gtk/src/lib.rs:161-214 | A fresh entity is added, associated as system firmware exactly when the device needs a reboot. Its control is shown and its upgrade button wired exactly when the worker reported it upgradeable. The devices page is shown. Nothing else changes. |
| Widget.FirmwareWidget.Scanning | gtk/src/lib.rs:216-224 | The scan's entities are dropped and the found flag is cleared. The scheduler is sent a Clear and the stack is hidden. Controls, system association, Thelio I/O keys and the shared Thelio state are kept. |
| Widget.FirmwareWidget.ScanningComplete | gtk/src/lib.rs:226-231 | The empty page is shown exactly when nothing was found since the scan began; otherwise the view stays as it is. |
| Widget.FirmwareWidget.SystemScheduled | gtk/src/lib.rs:233-235 | A reboot is triggered and nothing else changes. |
| Widget.FirmwareWidget.S76SystemFound | gtk/src/lib.rs:238-280 | A fresh system entity is added. Its control is shown and its upgrade button wired exactly when the installed version differs from the newest one. The devices page is shown. |
| Widget.FirmwareWidget.ThelioIoFound | gtk/src/lib.rs:283-377 | A fresh board joins the group at the end, hidden. The shared flag rises if the board is behind, and the shared digest is replaced if the board brought one. While the flag is up, the first board of the group shows its control. The devices page is shown. |
| Widget.FirmwareWidget.Scan | gtk/src/lib.rs:395 | Sends one Scan command to the worker. |
| Widget.FirmwareWidget.Click | gtk/src/lib.rs:196-208 | A click on a control of the current scan (on its upgrade button only while the button is showing) sends what its wired dialog decides, in order, and swaps the control to its progress bar exactly when the dialog does. |
| Widget.NextKeepsInv | gtk/src/lib.rs:104-378 | Every signal the closure takes without panicking keeps the invariant. |
| Widget.DeviceUpdatedKeepsInv | gtk/src/lib.rs:106-137 | A DeviceUpdated keeps the invariant. |
| Widget.ErrorKeepsInv | gtk/src/lib.rs:139-158 | An Error keeps the invariant. |
| Widget.FoundKeepsInv | gtk/src/lib.rs:161-214 | A non-Thelio device found under the fresh entity keeps the invariant. |
| Widget.ThelioIoKeepsInv | gtk/src/lib.rs:283-377 | A Thelio I/O board found keeps the invariant. |
| Widget.RunThen | gtk/src/lib.rs:103-385 | Running two signal sequences one after the other is running their concatenation, when the first does not stop the closure. |
| Widget.RunKeepsThelioFlag | gtk/src/lib.rs:289-291 | Once up, the shared Thelio I/O flag stays up whatever signals follow. |
| Widget.RunWithinScan | gtk/src/lib.rs:162 | Within a scan, "a device was found" holds exactly when a signal since the scan began found one, and it keeps the devices page shown. |
| Widget.EmptyPageIffNothingFound | gtk/src/lib.rs:216-231 | A scan ends with the stack shown, on the empty page exactly when no signal between Scanning and ScanningComplete found a device. |
| Widget.Deactivations | gtk/src/lib.rs:116-117 | One Deactivate per board, for that board's bar, in key order. |
| Widget.UpdateKeysStep | gtk/src/lib.rs:111-114 | Updating one more key changes that key's control alone. |
| Widget.AnyUpgradeableMeansSomeMember | gtk/src/lib.rs:289-291 | The group is upgradeable exactly when one of its members' installed version differs from the newest one. |
| Widget.GroupStateFrame | gtk/src/lib.rs:289-294 | The group flag and digest depend only on what the members brought at discovery, not on how their controls look. |
| Widget.LooksChangeKeepsInvariants | gtk/src/lib.rs:113-130 | Changing only how controls look, without showing a non-first board, keeps the invariants. |
| Widget.UpdateKeysOnlyLooks | gtk/src/lib.rs:111-118 | Updating controls after a flash changes only how they look. |
| Widget.AddControlKeepsInvariants | gtk/src/lib.rs:211 | Adding a non-Thelio control under a fresh entity keeps the invariants. |
| Widget.JoinedContents | gtk/src/lib.rs:360-373 | A board joining adds exactly its key. Among the old controls, only the first board changes, and only to be shown while the flag is up. |
| Widget.JoinKeepsShape | gtk/src/lib.rs:360-373 | After a join the keys are still increasing Thelio controls, and only the first may be shown. |
| Widget.JoinKeepsState | gtk/src/lib.rs:289-294 | After a join the shared flag and digest are still those the members define. |
| Widget.JoinKeepsInvariants | gtk/src/lib.rs:283-373 | A board joining under a fresh entity keeps all the invariants. |

## Left out

- GTK construction, layout and styling of the widget (`gtk/src/lib.rs:36-91`) are not modelled. Neither are the info bar's close callbacks or the `view_devices` widget internals. A control is reduced to its visible stack, the child it shows, its label text and its upgradeable cell.
- The modal dialog's appearance and `dialog.run()` are not modelled. The answer is an input (`response`). A weak reference that fails to upgrade is the input `alive`.
- `reboot()` and `eprintln!` are side effects. The reboot is recorded as the `Reboot` output; the log line is not modelled.
- The background thread, the channels themselves, `Drop`, the `Quit` command and `event_loop` are not modelled. Sends on a channel are entries in the output log; the progress channel's buffered contents and disconnection are inputs of `Tick`.
- The `Entities` registry behind `entities` is not part of this model. Its slot map frees the current scan's slots on `Scanning` (`entities.entities.clear()`) and hands them out again on the next scan; the model hands out a fresh handle each time, so slot reuse, and a new entry taking over a stale one in `device_widgets` and `entities.thelio_io`, is not modelled.
- `entities.thelio_io` is a `SecondaryMap` iterated in slot order. It is modelled as a sequence in allocation order; the two orders agree only while no slot has been reused.
- Widget.FirmwareWidget.ThelioIoFound: because handles are never reused, after a rescan the boards of earlier scans stay at the head of `thelio`. The first board shown while the flag is up is then the stale first board, never a new one, and a DeviceUpdated for a group board relabels and deactivates the stale boards too.
- fwupd releases are a `BTreeSet`. They are modelled as a sequence in the set's order; the set's ordering and uniqueness are not enforced.
- `Progress.PulseAll`: a `HashSet`'s iteration order is unspecified. The model proves only that every animating bar is pulsed exactly once.
- The `remove` vector of `progress_handler` is never filled, so its drain loop (`gtk/src/lib.rs:549-551`) does nothing and is not modelled.
- `Widget.FirmwareWidget.Dispatch` panics on an `Error` naming an entity with no control, and on an fwupd device without a release. The model requires these cases not to happen (`Handles`) instead of modelling the panic.
- `Widget.FirmwareWidget.Click` requires the clicked control to belong to the current scan. A control from an earlier scan has been removed from the view (`view_devices.clear()`) and cannot be clicked. A click on the upgrade button requires the button to be showing (the control's stack visible, on its button).
