/** Values shared by the scheduler, the dialogs and the signal dispatcher. */
module Types {

  datatype Option<+T> = None | Some(value: T)

  /** A device handle allocated by the entity registry. */
  type Entity = nat

  /** A progress indicator; the dispatcher gives each device control its own. */
  datatype ProgressBar = ProgressBar(id: nat)

  /** The progress bar belonging to the control of entity `e`. */
  function BarOf(e: Entity): ProgressBar
  {
    ProgressBar(e)
  }

  /** Messages on the progress channel (enum ActivateEvent). */
  datatype ActivateEvent = Activate(bar: ProgressBar) | Deactivate(bar: ProgressBar) | Clear

  /** Opaque System76 firmware digest. */
  datatype Digest = Digest(id: nat)

  /** What a device control displays: name, installed and newest version. */
  datatype FirmwareInfo = FirmwareInfo(name: string, current: string, latest: string)

  /** The fields of an fwupd device the dispatcher reads. */
  datatype FwupdDevice = FwupdDevice(vendor: string, name: string, version: string, needsReboot: bool)

  datatype Release = Release(version: string, description: string)

  /** One entry of a System76 changelog: a BIOS version and its description. */
  datatype ChangelogEntry = ChangelogEntry(bios: string, description: string)

  /** Commands sent to the background worker (enum FirmwareEvent). */
  datatype FirmwareEvent =
    | Scan
    | Fwupd(entity: Entity, device: FwupdDevice, release: Release)
    | S76System(entity: Entity, digest: Digest, latest: string)
    | ThelioIo(entity: Entity, digest: Digest, latest: string)

  /** The state shared by all Thelio I/O boards: the digest to flash and whether
      any board needs it. */
  datatype ThelioData = ThelioData(digest: Option<Digest>, upgradeable: bool)

  /** A device is upgradeable when its installed version differs from the newest one. */
  predicate Upgradeable(info: FirmwareInfo)
  {
    info.current != info.latest
  }
}
