/**
 * The confirmation decisions behind a device's two buttons. The modal dialog's
 * answer and whether the control's widgets are still alive (their weak
 * references upgrade) are inputs; each function returns the modal it shows, if
 * any, and what it sends, in order.
 */
module Dialogs {
  import opened Types

  datatype Response = Accept | Cancel

  /** One changelog line of the modal: a version and its description. */
  datatype LogEntry = LogEntry(version: string, description: string)

  /** The arguments of FirmwareUpdateDialog::new. */
  datatype ModalRequest = ModalRequest(latest: string, log: seq<LogEntry>, upgradeable: bool, reboot: bool)

  /** A message sent on the progress channel or on the worker's command channel. */
  datatype Send = ToProgress(event: ActivateEvent) | ToWorker(command: FirmwareEvent)

  /** What a click does: the modal it runs, whether the control's button is swapped
      for its progress bar, and the messages sent. */
  datatype Effect = Effect(modal: Option<ModalRequest>, swapToProgress: bool, sent: seq<Send>)

  /** The fwupd dialog is skipped only for the upgrade button of a device that does
      not need a reboot. */
  predicate SkipsModal(upgradeButton: bool, needsReboot: bool)
  {
    upgradeButton && !needsReboot
  }

  /** `r` goes ahead with `command` when `proceed` holds and does nothing otherwise;
      going ahead activates the bar first, if the widgets are alive, then sends
      exactly one command. */
  predicate Sends(r: Effect, proceed: bool, bar: ProgressBar, alive: bool, command: FirmwareEvent)
  {
    if proceed then
      && r.swapToProgress == alive
      && r.sent == (if alive then [ToProgress(Activate(bar)), ToWorker(command)] else [ToWorker(command)])
    else
      !r.swapToProgress && r.sent == []
  }

  /** The accepted path shared by all dialogs. */
  function Proceed(modal: Option<ModalRequest>, bar: ProgressBar, alive: bool, command: FirmwareEvent): Effect
  {
    var activation := if alive then [ToProgress(Activate(bar))] else [];
    Effect(modal, alive, activation + [ToWorker(command)])
  }

  /** fwupd releases as the modal lists them: newest (last) first. */
  function ReleaseLog(releases: seq<Release>): (log: seq<LogEntry>)
    ensures |log| == |releases|
    ensures forall i :: 0 <= i < |log| ==>
      log[i] == LogEntry(releases[|releases| - 1 - i].version, releases[|releases| - 1 - i].description)
    decreases |releases|
  {
    if releases == [] then []
    else
      var last := releases[|releases| - 1];
      [LogEntry(last.version, last.description)] + ReleaseLog(releases[..|releases| - 1])
  }

  /** A System76 changelog as the modal lists it, in its own order. */
  function ChangelogLog(changelog: seq<ChangelogEntry>): seq<LogEntry>
  {
    seq(|changelog|, i requires 0 <= i < |changelog| => LogEntry(changelog[i].bios, changelog[i].description))
  }

  /** fwupd_dialog: `upgradeable` is the control's flag when clicked, `upgradeButton`
      tells the upgrade button from the row. The command carries the last release. */
  function FwupdDialog(entity: Entity, device: FwupdDevice, releases: seq<Release>, info: FirmwareInfo,
                       bar: ProgressBar, upgradeable: bool, upgradeButton: bool, response: Response, alive: bool): (r: Effect)
    requires releases != []
    ensures r.modal.None? <==> SkipsModal(upgradeButton, device.needsReboot)
    ensures r.modal.Some? ==> r.modal.value == ModalRequest(info.latest, ReleaseLog(releases), upgradeable, device.needsReboot)
    ensures Sends(r, r.modal.None? || response == Accept, bar, alive, Fwupd(entity, device, releases[|releases| - 1]))
  {
    var modal :=
      if !upgradeButton || device.needsReboot
      then Some(ModalRequest(info.latest, ReleaseLog(releases), upgradeable, device.needsReboot))
      else None;
    if modal.None? || response == Accept
    then Proceed(modal, bar, alive, Fwupd(entity, device, releases[|releases| - 1]))
    else Effect(modal, false, [])
  }

  /** s76_system_dialog: always asks, always warns of a reboot. */
  function S76SystemDialog(entity: Entity, digest: Digest, changelog: seq<ChangelogEntry>, info: FirmwareInfo,
                           bar: ProgressBar, upgradeable: bool, response: Response, alive: bool): (r: Effect)
    ensures r.modal == Some(ModalRequest(info.latest, ChangelogLog(changelog), upgradeable, true))
    ensures Sends(r, response == Accept, bar, alive, S76System(entity, digest, info.latest))
  {
    var modal := Some(ModalRequest(info.latest, ChangelogLog(changelog), upgradeable, true));
    if response == Accept
    then Proceed(modal, bar, alive, S76System(entity, digest, info.latest))
    else Effect(modal, false, [])
  }

  /** The upgrade button of the Thelio I/O board that brought a digest: no modal,
      the digest is the one captured at discovery. */
  function ThelioUpgradeClicked(entity: Entity, digest: Digest, latest: string, bar: ProgressBar, alive: bool): (r: Effect)
    ensures r.modal.None?
    ensures Sends(r, true, bar, alive, ThelioIo(entity, digest, latest))
  {
    Proceed(None, bar, alive, ThelioIo(entity, digest, latest))
  }

  /** A click on a Thelio I/O board's row: a modal without reboot whose only log entry
      is the newest version; on Accept it goes ahead only if the group knows a digest,
      and then uses the group's digest as it is at click time. */
  function ThelioClicked(entity: Entity, latest: string, bar: ProgressBar, shared: ThelioData,
                         response: Response, alive: bool): (r: Effect)
    ensures r.modal == Some(ModalRequest(latest, [LogEntry(latest, "")], shared.upgradeable, false))
    ensures shared.digest.None? ==> !r.swapToProgress && r.sent == []
    ensures shared.digest.Some? ==> Sends(r, response == Accept, bar, alive, ThelioIo(entity, shared.digest.value, latest))
  {
    var modal := Some(ModalRequest(latest, [LogEntry(latest, "")], shared.upgradeable, false));
    match shared.digest
    case Some(digest) =>
      if response == Accept then Proceed(modal, bar, alive, ThelioIo(entity, digest, latest))
      else Effect(modal, false, [])
    case None => Effect(modal, false, [])
  }

  /** The commands an effect sends to the worker. */
  function Commands(sent: seq<Send>): seq<FirmwareEvent>
    decreases |sent|
  {
    if sent == [] then []
    else (if sent[0].ToWorker? then [sent[0].command] else []) + Commands(sent[1..])
  }

  /** Whatever the dialog, a modal answered with Cancel sends nothing, and any effect
      that goes ahead sends exactly one command, after the activation. */
  lemma {:induction false} SendsAtMostOneCommand(r: Effect, proceed: bool, bar: ProgressBar, alive: bool, command: FirmwareEvent)
    requires Sends(r, proceed, bar, alive, command)
    ensures Commands(r.sent) == if proceed then [command] else []
    ensures proceed && alive ==> r.sent[0] == ToProgress(Activate(bar))
  {
    if proceed {
      if alive {
        var tail := r.sent[1..];
        assert tail == [ToWorker(command)];
        assert tail[1..] == [];
        assert Commands(tail) == [command] + Commands(tail[1..]);
      } else {
        assert r.sent[1..] == [];
      }
    }
  }
}
