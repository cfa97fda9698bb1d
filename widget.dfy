/**
 * The signal dispatcher of FirmwareWidget: the closure attached to the signal
 * channel, with the entity registry, the device controls, the Thelio I/O group
 * state and the view stack it updates. Widgets are reduced to the state the
 * closure reads and writes; everything the dispatcher sends or triggers is
 * appended, in order, to `outputs`.
 */
module Widget {
  import opened Types
  import ErrorChain
  import opened Dialogs

  /** The two pages of the view stack. */
  datatype Page = EmptyPage | DevicesPage

  /** Which child of a control's inner stack is shown. */
  datatype Child = ButtonChild | ProgressChild

  /** Whether the control was built by the view as a device or as a system entry. */
  datatype Kind = DeviceControl | SystemControl

  /** What a control's click handlers captured at discovery. `upgradeWired` says
      whether the upgrade button got a handler; a Thelio board gets one exactly
      when it brought a digest. */
  datatype Handler =
    | FwupdHandler(device: FwupdDevice, releases: seq<Release>, upgradeWired: bool)
    | S76Handler(digest: Digest, changelog: seq<ChangelogEntry>, upgradeWired: bool)
    | ThelioHandler(boardDigest: Option<Digest>)

  /** The part of a control fixed at discovery. */
  datatype Meta = Meta(kind: Kind, info: FirmwareInfo, handler: Handler)

  /** A device_widgets entry: the control (whether its button/progress stack is
      visible, which child it shows, the label text the dispatcher set) and the
      control's own upgradeable cell. */
  datatype Record = Record(meta: Meta, controlVisible: bool, child: Child, labelText: Option<string>, upgradeable: bool)

  /** What the dispatcher makes happen outside itself. */
  datatype Output =
    | SendProgress(event: ActivateEvent)
    | SendCommand(command: FirmwareEvent)
    | Reboot
    | ShowError(message: string)

  /** Signals from the background worker (enum FirmwareSignal). */
  datatype FirmwareSignal =
    | DeviceUpdated(entity: Entity, latest: string)
    | Error(errorEntity: Option<Entity>, why: ErrorChain.Error)
    | Fwupd(device: FwupdDevice, upgradeable: bool, releases: seq<Release>)
    | Scanning
    | ScanningComplete
    | SystemScheduled
    | S76System(info: FirmwareInfo, digest: Digest, changelog: seq<ChangelogEntry>)
    | ThelioIo(thelioInfo: FirmwareInfo, thelioDigest: Option<Digest>)
    | Stop

  /** The info an fwupd device is shown with: "vendor name", its version, and the
      version of its last release. */
  function FwupdInfo(device: FwupdDevice, releases: seq<Release>): FirmwareInfo
    requires releases != []
  {
    FirmwareInfo(device.vendor + " " + device.name, device.version, releases[|releases| - 1].version)
  }

  /** A control after DeviceUpdated: stack hidden, label set to the new version. */
  function Updated(r: Record, latest: string): Record
  {
    r.(controlVisible := false, labelText := Some(latest))
  }

  /** `w` with the control of every key in `keys` updated to `latest`. */
  function UpdateKeys(w: map<Entity, Record>, keys: seq<Entity>, latest: string): map<Entity, Record>
  {
    map k | k in w :: if k in keys then Updated(w[k], latest) else w[k]
  }

  /** The body of the loop over the group's keys, run on the controls: each key's
      control is updated and its bar deactivated, in key order. */
  method UpdateEach(w: map<Entity, Record>, keys: seq<Entity>, latest: string) returns (r: map<Entity, Record>, sent: seq<Output>)
    requires forall i :: 0 <= i < |keys| ==> keys[i] in w
    ensures r == UpdateKeys(w, keys, latest)
    ensures sent == Deactivations(keys)
  {
    r, sent := w, [];
    var i := 0;
    while i < |keys|
      invariant 0 <= i <= |keys|
      invariant r == UpdateKeys(w, keys[..i], latest)
      invariant sent == Deactivations(keys[..i])
    {
      var k := keys[i];
      assert keys[..i + 1] == keys[..i] + [k];
      UpdateKeysStep(w, keys[..i], k, latest);
      DeactivationsStep(keys[..i], k);
      r := r[k := Updated(r[k], latest)];
      sent := sent + [SendProgress(Deactivate(BarOf(k)))];
      i := i + 1;
    }
    assert keys[..i] == keys;
  }

  /** One Deactivate per key, in key order. */
  function Deactivations(keys: seq<Entity>): (out: seq<Output>)
    ensures |out| == |keys|
    ensures forall i :: 0 <= i < |keys| ==> out[i] == SendProgress(Deactivate(BarOf(keys[i])))
    decreases |keys|
  {
    if keys == [] then []
    else Deactivations(keys[..|keys| - 1]) + [SendProgress(Deactivate(BarOf(keys[|keys| - 1])))]
  }

  /** Updating one more key extends the update by that key's control alone. */
  lemma UpdateKeysStep(w: map<Entity, Record>, keys: seq<Entity>, k: Entity, latest: string)
    requires k in w
    ensures UpdateKeys(w, keys + [k], latest) == UpdateKeys(w, keys, latest)[k := Updated(UpdateKeys(w, keys, latest)[k], latest)]
  {
    assert forall j :: j in keys + [k] <==> j in keys || j == k;
  }

  lemma DeactivationsStep(keys: seq<Entity>, k: Entity)
    ensures Deactivations(keys + [k]) == Deactivations(keys) + [SendProgress(Deactivate(BarOf(k)))]
  {
    assert (keys + [k])[..|keys|] == keys;
  }

  /** The messages of a dialog effect as dispatcher outputs. */
  function Emitted(sent: seq<Send>): seq<Output>
  {
    seq(|sent|, i requires 0 <= i < |sent| =>
      match sent[i]
      case ToProgress(ev) => SendProgress(ev)
      case ToWorker(c) => SendCommand(c))
  }

  /** The group's upgradeable flag as the members define it: some member's installed
      version differs from its newest one. */
  function AnyUpgradeable(keys: seq<Entity>, w: map<Entity, Record>): bool
    decreases |keys|
  {
    if keys == [] then false
    else
      var k := keys[|keys| - 1];
      (k in w && Upgradeable(w[k].meta.info)) || AnyUpgradeable(keys[..|keys| - 1], w)
  }

  /** The group's digest as the members define it: the one brought by the last
      member that brought one. */
  function LatestDigest(keys: seq<Entity>, w: map<Entity, Record>): Option<Digest>
    decreases |keys|
  {
    if keys == [] then None
    else
      var k := keys[|keys| - 1];
      if k in w && w[k].meta.handler.ThelioHandler? && w[k].meta.handler.boardDigest.Some?
      then w[k].meta.handler.boardDigest
      else LatestDigest(keys[..|keys| - 1], w)
  }

  /** The group state depends only on the members' discovery data. */
  lemma {:induction false} GroupStateFrame(keys: seq<Entity>, w1: map<Entity, Record>, w2: map<Entity, Record>)
    requires forall k :: k in keys ==> k in w1 && k in w2 && w1[k].meta == w2[k].meta
    ensures AnyUpgradeable(keys, w1) == AnyUpgradeable(keys, w2)
    ensures LatestDigest(keys, w1) == LatestDigest(keys, w2)
    decreases |keys|
  {
    if keys != [] {
      var init := keys[..|keys| - 1];
      assert forall k :: k in init ==> k in keys;
      GroupStateFrame(init, w1, w2);
    }
  }

  /** The group is upgradeable exactly when one of its members is. */
  lemma {:induction false} AnyUpgradeableMeansSomeMember(keys: seq<Entity>, w: map<Entity, Record>)
    ensures AnyUpgradeable(keys, w) <==>
      exists i :: 0 <= i < |keys| && keys[i] in w && Upgradeable(w[keys[i]].meta.info)
    decreases |keys|
  {
    if keys != [] {
      var init := keys[..|keys| - 1];
      AnyUpgradeableMeansSomeMember(init, w);
      assert forall i :: 0 <= i < |init| ==> init[i] == keys[i];
      if AnyUpgradeable(init, w) {
        var i :| 0 <= i < |init| && init[i] in w && Upgradeable(w[init[i]].meta.info);
        assert keys[i] == init[i];
      }
    }
  }

  /** Every control belongs to an allocated entity, and an fwupd control has a release. */
  ghost predicate ControlsWellFormed(nextEntity: nat, w: map<Entity, Record>)
  {
    && (forall e :: e in w ==> e < nextEntity)
    && (forall e :: e in w && w[e].meta.handler.FwupdHandler? ==> w[e].meta.handler.releases != [])
  }

  /** The Thelio I/O group's keys are Thelio controls in increasing key order, and
      only the first can show its upgrade control. */
  ghost predicate GroupShape(thelio: seq<Entity>, w: map<Entity, Record>)
  {
    && (forall i :: 0 <= i < |thelio| ==> thelio[i] in w && w[thelio[i]].meta.handler.ThelioHandler?)
    && (forall i, j :: 0 <= i < j < |thelio| ==> thelio[i] < thelio[j])
    && (forall i :: 0 < i < |thelio| ==> !w[thelio[i]].controlVisible)
  }

  /** The Thelio I/O group, and the shared flag and digest are those its members define. */
  ghost predicate GroupConsistent(thelio: seq<Entity>, w: map<Entity, Record>, data: ThelioData)
  {
    && GroupShape(thelio, w)
    && data.upgradeable == AnyUpgradeable(thelio, w)
    && data.digest == LatestDigest(thelio, w)
  }

  /** `w2` differs from `w1` only in how controls look, and shows no group control
      other than the first that `w1` did not show. */
  ghost predicate OnlyLooksChanged(thelio: seq<Entity>, w1: map<Entity, Record>, w2: map<Entity, Record>)
  {
    && w1.Keys == w2.Keys
    && (forall k :: k in w1 ==> w2[k].meta == w1[k].meta)
    && (forall i :: 0 < i < |thelio| && thelio[i] in w2 && w2[thelio[i]].controlVisible ==>
          thelio[i] in w1 && w1[thelio[i]].controlVisible)
  }

  lemma LooksChangeKeepsInvariants(nextEntity: nat, thelio: seq<Entity>, w1: map<Entity, Record>, w2: map<Entity, Record>, data: ThelioData)
    requires ControlsWellFormed(nextEntity, w1) && GroupConsistent(thelio, w1, data)
    requires OnlyLooksChanged(thelio, w1, w2)
    ensures ControlsWellFormed(nextEntity, w2) && GroupConsistent(thelio, w2, data)
  {
    GroupStateFrame(thelio, w1, w2);
  }

  /** Updating the controls of some keys changes only how they look and hides them. */
  lemma UpdateKeysOnlyLooks(thelio: seq<Entity>, w: map<Entity, Record>, keys: seq<Entity>, latest: string)
    ensures OnlyLooksChanged(thelio, w, UpdateKeys(w, keys, latest))
  {
  }

  /** A control added under a fresh entity outside the group keeps the invariants. */
  lemma AddControlKeepsInvariants(nextEntity: nat, thelio: seq<Entity>, w: map<Entity, Record>, data: ThelioData, r: Record)
    requires ControlsWellFormed(nextEntity, w) && GroupConsistent(thelio, w, data)
    requires r.meta.handler.FwupdHandler? ==> r.meta.handler.releases != []
    ensures ControlsWellFormed(nextEntity + 1, w[nextEntity := r]) && GroupConsistent(thelio, w[nextEntity := r], data)
  {
    GroupStateFrame(thelio, w, w[nextEntity := r]);
  }

  /** The control of a newly found Thelio I/O board, before the group is looked at. */
  function NewBoard(info: FirmwareInfo, digest: Option<Digest>): Record
  {
    Record(Meta(DeviceControl, info, ThelioHandler(digest)), false, ButtonChild, None, false)
  }

  /** The controls after a board joins the group under the fresh entity `e`: the
      new control hidden, then the first board shown while the flag is up. */
  function Joined(thelio: seq<Entity>, w: map<Entity, Record>, e: Entity, board: Record, flag: bool): map<Entity, Record>
    requires thelio != [] ==> thelio[0] in w
  {
    var keys := thelio + [e];
    var added := w[e := board];
    if flag then added[keys[0] := added[keys[0]].(controlVisible := true)] else added
  }

  /** Joining adds exactly the new key; the new control is shown only when it is the
      first board and the flag is up; of the old controls only the first board's
      changes, and only to be shown while the flag is up. */
  lemma JoinedContents(thelio: seq<Entity>, w: map<Entity, Record>, e: Entity, board: Record, flag: bool)
    requires thelio != [] ==> thelio[0] in w
    requires e !in w
    ensures var w' := Joined(thelio, w, e, board, flag);
      var first := (thelio + [e])[0];
      && w'.Keys == w.Keys + {e}
      && w'[e] == board.(controlVisible := board.controlVisible || (flag && first == e))
      && (forall k :: k in w ==> w'[k] == if flag && k == first then w[k].(controlVisible := true) else w[k])
      && (flag ==> w'[first].controlVisible)
  {
  }

  lemma JoinKeepsShape(nextEntity: nat, thelio: seq<Entity>, w: map<Entity, Record>, info: FirmwareInfo, digest: Option<Digest>, flag: bool)
    requires ControlsWellFormed(nextEntity, w) && GroupShape(thelio, w)
    ensures ControlsWellFormed(nextEntity + 1, Joined(thelio, w, nextEntity, NewBoard(info, digest), flag))
    ensures GroupShape(thelio + [nextEntity], Joined(thelio, w, nextEntity, NewBoard(info, digest), flag))
  {
  }

  lemma JoinKeepsState(nextEntity: nat, thelio: seq<Entity>, w: map<Entity, Record>, data: ThelioData,
                       info: FirmwareInfo, digest: Option<Digest>)
    requires ControlsWellFormed(nextEntity, w) && GroupConsistent(thelio, w, data)
    ensures var w' := Joined(thelio, w, nextEntity, NewBoard(info, digest), data.upgradeable || Upgradeable(info));
      && AnyUpgradeable(thelio + [nextEntity], w') == (data.upgradeable || Upgradeable(info))
      && LatestDigest(thelio + [nextEntity], w') == if digest.Some? then digest else data.digest
  {
    var keys := thelio + [nextEntity];
    var flag := data.upgradeable || Upgradeable(info);
    var added := w[nextEntity := NewBoard(info, digest)];
    var w' := Joined(thelio, w, nextEntity, NewBoard(info, digest), flag);
    GroupStateFrame(thelio, w, added);
    assert forall k :: k in keys ==> k in added && k in w' && added[k].meta == w'[k].meta;
    GroupStateFrame(keys, added, w');
    assert keys[..|keys| - 1] == thelio;
  }

  /** A board joining the group under a fresh entity keeps the invariants, given the
      shared state it leaves behind: the flag raised if it is behind, the digest
      replaced if it brought one, and the first board shown while the flag is up. */
  lemma JoinKeepsInvariants(nextEntity: nat, thelio: seq<Entity>, w: map<Entity, Record>, data: ThelioData,
                            info: FirmwareInfo, digest: Option<Digest>)
    requires ControlsWellFormed(nextEntity, w) && GroupConsistent(thelio, w, data)
    ensures var data' := ThelioData(if digest.Some? then digest else data.digest, data.upgradeable || Upgradeable(info));
      var w' := Joined(thelio, w, nextEntity, NewBoard(info, digest), data'.upgradeable);
      ControlsWellFormed(nextEntity + 1, w') && GroupConsistent(thelio + [nextEntity], w', data')
  {
    JoinKeepsShape(nextEntity, thelio, w, info, digest, data.upgradeable || Upgradeable(info));
    JoinKeepsState(nextEntity, thelio, w, data, info, digest);
  }

  /** The handler wired to a control's upgrade button, if any. */
  function OnUpgradeClick(e: Entity, r: Record, response: Response, alive: bool): Effect
    requires r.meta.handler.FwupdHandler? ==> r.meta.handler.releases != []
  {
    match r.meta.handler
    case FwupdHandler(device, releases, wired) =>
      if wired then FwupdDialog(e, device, releases, r.meta.info, BarOf(e), r.upgradeable, true, response, alive)
      else Effect(None, false, [])
    case S76Handler(digest, changelog, wired) =>
      if wired then S76SystemDialog(e, digest, changelog, r.meta.info, BarOf(e), r.upgradeable, response, alive)
      else Effect(None, false, [])
    case ThelioHandler(digest) =>
      if digest.Some? then ThelioUpgradeClicked(e, digest.value, r.meta.info.latest, BarOf(e), alive)
      else Effect(None, false, [])
  }

  /** The handler wired to a click on the control itself. */
  function OnClick(e: Entity, r: Record, shared: ThelioData, response: Response, alive: bool): Effect
    requires r.meta.handler.FwupdHandler? ==> r.meta.handler.releases != []
  {
    match r.meta.handler
    case FwupdHandler(device, releases, _) =>
      FwupdDialog(e, device, releases, r.meta.info, BarOf(e), r.upgradeable, false, response, alive)
    case S76Handler(digest, changelog, _) =>
      S76SystemDialog(e, digest, changelog, r.meta.info, BarOf(e), r.upgradeable, response, alive)
    case ThelioHandler(_) =>
      ThelioClicked(e, r.meta.info.latest, BarOf(e), shared, response, alive)
  }

  /** Everything the closure reads and writes, as one value. */
  datatype State = State(
    live: set<Entity>, nextEntity: nat, system: set<Entity>, thelio: seq<Entity>,
    widgets: map<Entity, Record>, devicesFound: bool, stackShown: bool, stackPage: Page,
    thelioData: ThelioData, outputs: seq<Output>)

  /** DeviceUpdated: a Thelio I/O board updates the whole group; any other known
      control is updated alone, its flag cleared, and reboots the system if it is
      system firmware; an unknown entity changes nothing. */
  function AfterDeviceUpdated(s: State, entity: Entity, latest: string): State
  {
    if entity in s.thelio then
      s.(widgets := UpdateKeys(s.widgets, s.thelio, latest), outputs := s.outputs + Deactivations(s.thelio))
    else if entity in s.widgets then
      s.(widgets := s.widgets[entity := Updated(s.widgets[entity], latest).(upgradeable := false)],
         outputs := s.outputs + [SendProgress(Deactivate(BarOf(entity)))] + (if entity in s.system then [Reboot] else []))
    else s
  }

  /** Error: the flattened message goes to the info bar; a named control gets its
      button back. */
  function AfterError(s: State, entity: Option<Entity>, why: ErrorChain.Error): State
    requires entity.Some? ==> entity.value in s.widgets
  {
    s.(outputs := s.outputs + [ShowError(ErrorChain.Flattened(why))],
       widgets := match entity
         case None => s.widgets
         case Some(e) => s.widgets[e := s.widgets[e].(child := ButtonChild)])
  }

  /** A device found under the fresh entity: it is live, optionally system firmware,
      gets `control`, and the devices page is shown. */
  function AfterFound(s: State, isSystem: bool, control: Record): State
  {
    var e := s.nextEntity;
    s.(nextEntity := e + 1, live := s.live + {e},
       system := if isSystem then s.system + {e} else s.system,
       widgets := s.widgets[e := control],
       devicesFound := true, stackShown := true, stackPage := DevicesPage)
  }

  /** Fwupd: shown and wired exactly when the worker reported it upgradeable;
      system firmware exactly when it needs a reboot. */
  function AfterFwupd(s: State, device: FwupdDevice, upgradeable: bool, releases: seq<Release>): State
    requires releases != []
  {
    AfterFound(s, device.needsReboot,
      Record(Meta(if device.needsReboot then SystemControl else DeviceControl, FwupdInfo(device, releases),
                  FwupdHandler(device, releases, upgradeable)),
             upgradeable, ButtonChild, None, upgradeable))
  }

  /** S76System: always system firmware, shown and wired exactly when behind. */
  function AfterS76System(s: State, info: FirmwareInfo, digest: Digest, changelog: seq<ChangelogEntry>): State
  {
    AfterFound(s, true,
      Record(Meta(SystemControl, info, S76Handler(digest, changelog, Upgradeable(info))),
             Upgradeable(info), ButtonChild, None, Upgradeable(info)))
  }

  /** ThelioIo: the board joins the group hidden; the flag rises if it is behind, the
      digest is replaced if it brought one, and the first board is shown while the
      flag is up. */
  function AfterThelioIo(s: State, info: FirmwareInfo, digest: Option<Digest>): State
    requires s.thelio != [] ==> s.thelio[0] in s.widgets
  {
    var e := s.nextEntity;
    var data := ThelioData(if digest.Some? then digest else s.thelioData.digest,
                           s.thelioData.upgradeable || Upgradeable(info));
    s.(nextEntity := e + 1, live := s.live + {e}, thelio := s.thelio + [e], thelioData := data,
       widgets := Joined(s.thelio, s.widgets, e, NewBoard(info, digest), data.upgradeable),
       devicesFound := true, stackShown := true, stackPage := DevicesPage)
  }

  /** Scanning: the scan's entities are dropped, the scheduler told to clear, and the
      stack hidden; controls, Thelio I/O keys and group state are kept. */
  function AfterScanning(s: State): State
  {
    s.(live := {}, devicesFound := false, outputs := s.outputs + [SendProgress(Clear)], stackShown := false)
  }

  /** ScanningComplete: the empty page when nothing was found since the scan began. */
  function AfterScanningComplete(s: State): State
  {
    if s.devicesFound then s else s.(stackShown := true, stackPage := EmptyPage)
  }

  /** The signals the closure takes without panicking in state `s`. */
  predicate Admissible(s: State, signal: FirmwareSignal)
  {
    match signal
    case Error(entity, _) => entity.Some? ==> entity.value in s.widgets
    case Fwupd(_, _, releases) => releases != []
    case ThelioIo(_, _) => s.thelio != [] ==> s.thelio[0] in s.widgets
    case _ => true
  }

  /** The state the closure leaves after one signal (Stop changes nothing). */
  function Next(s: State, signal: FirmwareSignal): State
    requires Admissible(s, signal)
  {
    match signal
    case DeviceUpdated(entity, latest) => AfterDeviceUpdated(s, entity, latest)
    case Error(entity, why) => AfterError(s, entity, why)
    case Fwupd(device, upgradeable, releases) => AfterFwupd(s, device, upgradeable, releases)
    case Scanning => AfterScanning(s)
    case ScanningComplete => AfterScanningComplete(s)
    case SystemScheduled => s.(outputs := s.outputs + [Reboot])
    case S76System(info, digest, changelog) => AfterS76System(s, info, digest, changelog)
    case ThelioIo(info, digest) => AfterThelioIo(s, info, digest)
    case Stop => s
  }

  /** The closure run over a sequence of signals: None if one of them would panic.
      After Stop the closure is detached, so later signals are not seen. */
  function Run(s: State, signals: seq<FirmwareSignal>): Option<State>
    decreases |signals|
  {
    if signals == [] then Some(s)
    else if !Admissible(s, signals[0]) then None
    else if signals[0].Stop? then Some(s)
    else Run(Next(s, signals[0]), signals[1..])
  }

  /** Running `a` and then `b` is running `a + b`, as long as `a` does not stop the closure. */
  lemma {:induction false} RunThen(s: State, a: seq<FirmwareSignal>, b: seq<FirmwareSignal>)
    requires forall i :: 0 <= i < |a| ==> !a[i].Stop?
    ensures Run(s, a + b) == (match Run(s, a) case None => None case Some(t) => Run(t, b))
    decreases |a|
  {
    if a == [] {
      assert a + b == b;
    } else {
      assert (a + b)[0] == a[0] && (a + b)[1..] == a[1..] + b;
      assert !a[0].Stop?;
      if Admissible(s, a[0]) {
        RunThen(Next(s, a[0]), a[1..], b);
      }
    }
  }

  /** The shared Thelio I/O flag is never lowered: no signal, not even a completed
      update of the group or a new scan, resets it. */
  lemma {:induction false} RunKeepsThelioFlag(s: State, signals: seq<FirmwareSignal>)
    requires s.thelioData.upgradeable && Run(s, signals).Some?
    ensures Run(s, signals).value.thelioData.upgradeable
    decreases |signals|
  {
    if signals != [] && !signals[0].Stop? {
      RunKeepsThelioFlag(Next(s, signals[0]), signals[1..]);
    }
  }

  /** Signals that neither start a scan nor stop the closure keep "a device was found"
      exactly when one of them finds a device (or one had been found), and a found
      device keeps the devices page shown. */
  lemma {:induction false} RunWithinScan(s: State, rest: seq<FirmwareSignal>)
    requires forall i :: 0 <= i < |rest| ==> !rest[i].Scanning? && !rest[i].Stop?
    requires Run(s, rest).Some?
    requires s.devicesFound ==> s.stackShown && s.stackPage == DevicesPage
    ensures Run(s, rest).value.devicesFound == (s.devicesFound || exists i :: 0 <= i < |rest| && Finds(rest[i]))
    ensures Run(s, rest).value.devicesFound ==> Run(s, rest).value.stackShown && Run(s, rest).value.stackPage == DevicesPage
    decreases |rest|
  {
    if rest != [] {
      var t := Next(s, rest[0]);
      assert t.devicesFound == (s.devicesFound || Finds(rest[0]));
      RunWithinScan(t, rest[1..]);
      assert forall i :: 0 < i < |rest| ==> rest[i] == rest[1..][i - 1];
    }
  }

  /** A scan ends on the empty page exactly when none of the signals between Scanning
      and ScanningComplete found a device; otherwise the devices page stays up. */
  lemma EmptyPageIffNothingFound(s: State, rest: seq<FirmwareSignal>)
    requires forall i :: 0 <= i < |rest| ==> !rest[i].Scanning? && !rest[i].Stop?
    requires Run(s, [FirmwareSignal.Scanning] + rest + [FirmwareSignal.ScanningComplete]).Some?
    ensures var t := Run(s, [FirmwareSignal.Scanning] + rest + [FirmwareSignal.ScanningComplete]).value;
      && t.stackShown
      && (t.stackPage == EmptyPage <==> !exists i :: 0 <= i < |rest| && Finds(rest[i]))
  {
    var a := [FirmwareSignal.Scanning] + rest;
    RunThen(s, a, [FirmwareSignal.ScanningComplete]);
    RunThen(s, [FirmwareSignal.Scanning], rest);
    RunWithinScan(AfterScanning(s), rest);
  }

  /** The dispatcher's invariant: the scan's entities and the system entities have
      controls, every control belongs to an allocated entity, the Thelio I/O group
      agrees with the shared state, and a found device means the devices page is shown. */
  ghost predicate Inv(s: State)
  {
    && s.live <= s.widgets.Keys
    && s.system <= s.widgets.Keys
    && ControlsWellFormed(s.nextEntity, s.widgets)
    && GroupConsistent(s.thelio, s.widgets, s.thelioData)
    && (s.devicesFound ==> s.stackShown && s.stackPage == DevicesPage)
  }

  lemma DeviceUpdatedKeepsInv(s: State, entity: Entity, latest: string)
    requires Inv(s)
    ensures Inv(AfterDeviceUpdated(s, entity, latest))
  {
    if entity in s.thelio {
      UpdateKeysOnlyLooks(s.thelio, s.widgets, s.thelio, latest);
      LooksChangeKeepsInvariants(s.nextEntity, s.thelio, s.widgets, UpdateKeys(s.widgets, s.thelio, latest), s.thelioData);
    } else if entity in s.widgets {
      var w := s.widgets[entity := Updated(s.widgets[entity], latest).(upgradeable := false)];
      LooksChangeKeepsInvariants(s.nextEntity, s.thelio, s.widgets, w, s.thelioData);
    }
  }

  lemma ErrorKeepsInv(s: State, entity: Option<Entity>, why: ErrorChain.Error)
    requires Inv(s) && (entity.Some? ==> entity.value in s.widgets)
    ensures Inv(AfterError(s, entity, why))
  {
    if entity.Some? {
      var e := entity.value;
      LooksChangeKeepsInvariants(s.nextEntity, s.thelio, s.widgets, s.widgets[e := s.widgets[e].(child := ButtonChild)], s.thelioData);
    }
  }

  lemma FoundKeepsInv(s: State, isSystem: bool, control: Record)
    requires Inv(s)
    requires control.meta.handler.FwupdHandler? ==> control.meta.handler.releases != []
    ensures Inv(AfterFound(s, isSystem, control))
  {
    AddControlKeepsInvariants(s.nextEntity, s.thelio, s.widgets, s.thelioData, control);
  }

  lemma ThelioIoKeepsInv(s: State, info: FirmwareInfo, digest: Option<Digest>)
    requires Inv(s)
    ensures Inv(AfterThelioIo(s, info, digest))
  {
    JoinKeepsInvariants(s.nextEntity, s.thelio, s.widgets, s.thelioData, info, digest);
  }

  /** Every signal the closure takes without panicking keeps the invariant. */
  lemma NextKeepsInv(s: State, signal: FirmwareSignal)
    requires Inv(s) && Admissible(s, signal)
    ensures Inv(Next(s, signal))
  {
    match signal
    case DeviceUpdated(entity, latest) => DeviceUpdatedKeepsInv(s, entity, latest);
    case Error(entity, why) => ErrorKeepsInv(s, entity, why);
    case Fwupd(device, upgradeable, releases) =>
      FoundKeepsInv(s, device.needsReboot,
        Record(Meta(if device.needsReboot then SystemControl else DeviceControl, FwupdInfo(device, releases),
                    FwupdHandler(device, releases, upgradeable)),
               upgradeable, ButtonChild, None, upgradeable));
    case S76System(info, digest, changelog) =>
      FoundKeepsInv(s, true,
        Record(Meta(SystemControl, info, S76Handler(digest, changelog, Upgradeable(info))),
               Upgradeable(info), ButtonChild, None, Upgradeable(info)));
    case ThelioIo(info, digest) => ThelioIoKeepsInv(s, info, digest);
    case _ =>
  }

  /** A signal reporting a found device. */
  predicate Finds(signal: FirmwareSignal)
  {
    signal.Fwupd? || signal.S76System? || signal.ThelioIo?
  }

  class FirmwareWidget {
    /** entities.entities: the entities of the current scan. */
    var live: set<Entity>
    /** The next handle the registry hands out; the model hands out a fresh one each time. */
    var nextEntity: nat
    /** Entities associated as system firmware. */
    var system: set<Entity>
    /** entities.thelio_io: the Thelio I/O boards, in key order. */
    var thelio: seq<Entity>
    /** device_widgets. */
    var widgets: map<Entity, Record>
    var devicesFound: bool
    /** The view stack: whether it is shown and which page it shows. */
    var stackShown: bool
    var stackPage: Page
    /** thelio_io_upgradeable, shared by all Thelio I/O click handlers. */
    var thelioData: ThelioData
    var outputs: seq<Output>
    /** False once the closure returned Continue(false). */
    var running: bool

    ghost predicate Valid()
      reads this
    {
      Inv(Snapshot())
    }

    /** The fields the closure reads and writes, as one value. */
    ghost function Snapshot(): State
      reads this
    {
      State(live, nextEntity, system, thelio, widgets, devicesFound, stackShown, stackPage, thelioData, outputs)
    }

    constructor ()
      ensures Valid() && running
      ensures Snapshot() == State({}, 0, {}, [], map[], false, true, EmptyPage, ThelioData(None, false), [])
    {
      live, nextEntity, system, thelio, widgets := {}, 0, {}, [], map[];
      devicesFound := false;
      stackShown, stackPage := true, EmptyPage;
      thelioData := ThelioData(None, false);
      outputs := [];
      running := true;
    }

    /** The signals the closure can take without panicking: an error naming an entity
        needs its control, and an fwupd device needs a release. */
    predicate Handles(signal: FirmwareSignal)
      reads this
    {
      match signal
      case Error(entity, _) => entity.Some? ==> entity.value in widgets
      case Fwupd(_, _, releases) => releases != []
      case _ => true
    }

    /** One call of the closure attached to the signal channel; `cont` is the
        glib::Continue it returns. Once it has returned false it is not called again. */
    method Dispatch(signal: FirmwareSignal) returns (cont: bool)
      requires Valid() && Handles(signal)
      modifies this
      ensures Valid()
      ensures !old(running) ==> !cont && unchanged(this)
      ensures old(running) ==> cont == !signal.Stop? && running == cont
      ensures old(running) ==> Admissible(old(Snapshot()), signal) && Snapshot() == Next(old(Snapshot()), signal)
    {
      if !running {
        return false;
      }
      if signal.Stop? {
        running := false;
        return false;
      }
      ghost var before := Snapshot();
      assert Admissible(before, signal);
      Handle(signal);
      NextKeepsInv(before, signal);
      cont := true;
    }

    /** The `match event` of the closure for every signal but Stop. */
    method Handle(signal: FirmwareSignal)
      requires Valid() && Admissible(Snapshot(), signal) && !signal.Stop?
      modifies this`live, this`nextEntity, this`system, this`thelio, this`widgets, this`devicesFound,
               this`stackShown, this`stackPage, this`thelioData, this`outputs
      ensures Snapshot() == Next(old(Snapshot()), signal)
    {
      match signal {
        case DeviceUpdated(entity, latest) => DeviceUpdated(entity, latest);
        case Error(entity, why) => ReportError(entity, why);
        case Fwupd(device, upgradeable, releases) => FwupdFound(device, upgradeable, releases);
        case Scanning => Scanning();
        case ScanningComplete => ScanningComplete();
        case SystemScheduled => SystemScheduled();
        case S76System(info, digest, changelog) => S76SystemFound(info, digest, changelog);
        case ThelioIo(info, digest) => ThelioIoFound(info, digest);
      }
    }

    /** FirmwareSignal::DeviceUpdated. */
    method DeviceUpdated(entity: Entity, latest: string)
      requires Valid()
      modifies this`widgets, this`outputs
      ensures Snapshot() == AfterDeviceUpdated(old(Snapshot()), entity, latest)
    {
      if entity in thelio {
        UpdateGroup(latest);
      } else if entity in widgets {
        widgets := widgets[entity := Updated(widgets[entity], latest).(upgradeable := false)];
        outputs := outputs + [SendProgress(Deactivate(BarOf(entity)))];
        if entity in system {
          outputs := outputs + [Reboot];
        }
      }
    }

    /** The loop over entities.thelio_io.keys(): every board's control is hidden and
        labelled with the new version, and its progress bar deactivated. */
    method UpdateGroup(latest: string)
      requires forall i :: 0 <= i < |thelio| ==> thelio[i] in widgets
      modifies this`widgets, this`outputs
      ensures widgets == UpdateKeys(old(widgets), thelio, latest)
      ensures outputs == old(outputs) + Deactivations(thelio)
    {
      var w, sent := UpdateEach(widgets, thelio, latest);
      widgets, outputs := w, outputs + sent;
    }

    /** FirmwareSignal::Error: the flattened chain goes to the info bar. */
    method ReportError(entity: Option<Entity>, why: ErrorChain.Error)
      requires Valid()
      requires entity.Some? ==> entity.value in widgets
      modifies this`widgets, this`outputs
      ensures Snapshot() == AfterError(old(Snapshot()), entity, why)
    {
      var message := ErrorChain.Flatten(why);
      outputs := outputs + [ShowError(message)];
      if entity.Some? {
        var e := entity.value;
        widgets := widgets[e := widgets[e].(child := ButtonChild)];
      }
    }

    /** FirmwareSignal::Fwupd: a new control under a fresh entity. */
    method FwupdFound(device: FwupdDevice, upgradeable: bool, releases: seq<Release>)
      requires Valid() && releases != []
      modifies this`live, this`nextEntity, this`system, this`widgets, this`devicesFound, this`stackShown, this`stackPage
      ensures Snapshot() == AfterFwupd(old(Snapshot()), device, upgradeable, releases)
    {
      devicesFound := true;
      var info := FwupdInfo(device, releases);
      var e := nextEntity;
      nextEntity := nextEntity + 1;
      live := live + {e};
      var kind := DeviceControl;
      if device.needsReboot {
        system := system + {e};
        kind := SystemControl;
      }
      var control := Record(Meta(kind, info, FwupdHandler(device, releases, upgradeable)), upgradeable, ButtonChild, None, upgradeable);
      widgets := widgets[e := control];
      stackShown, stackPage := true, DevicesPage;
    }

    /** FirmwareSignal::Scanning. */
    method Scanning()
      requires Valid()
      modifies this`live, this`devicesFound, this`outputs, this`stackShown
      ensures Snapshot() == AfterScanning(old(Snapshot()))
    {
      live := {};
      devicesFound := false;
      outputs := outputs + [SendProgress(Clear)];
      stackShown := false;
    }

    /** FirmwareSignal::ScanningComplete. */
    method ScanningComplete()
      requires Valid()
      modifies this`stackShown, this`stackPage
      ensures Snapshot() == AfterScanningComplete(old(Snapshot()))
    {
      if !devicesFound {
        stackShown, stackPage := true, EmptyPage;
      }
    }

    /** System firmware was scheduled: reboot. */
    method SystemScheduled()
      requires Valid()
      modifies this`outputs
      ensures Snapshot() == old(Snapshot()).(outputs := old(outputs) + [Reboot])
    {
      outputs := outputs + [Reboot];
    }

    /** FirmwareSignal::S76System: always associated as system firmware. */
    method S76SystemFound(info: FirmwareInfo, digest: Digest, changelog: seq<ChangelogEntry>)
      requires Valid()
      modifies this`live, this`nextEntity, this`system, this`widgets, this`devicesFound, this`stackShown, this`stackPage
      ensures Snapshot() == AfterS76System(old(Snapshot()), info, digest, changelog)
    {
      devicesFound := true;
      var e := nextEntity;
      nextEntity := nextEntity + 1;
      live := live + {e};
      system := system + {e};
      var upgradeable := info.current != info.latest;
      var control := Record(Meta(SystemControl, info, S76Handler(digest, changelog, upgradeable)), upgradeable, ButtonChild, None, upgradeable);
      widgets := widgets[e := control];
      stackShown, stackPage := true, DevicesPage;
    }

    /** FirmwareSignal::ThelioIo: the board joins the group and the shared state. */
    method ThelioIoFound(info: FirmwareInfo, digest: Option<Digest>)
      requires thelio != [] ==> thelio[0] in widgets
      modifies this`live, this`nextEntity, this`thelio, this`thelioData, this`widgets, this`devicesFound, this`stackShown, this`stackPage
      ensures Snapshot() == AfterThelioIo(old(Snapshot()), info, digest)
    {
      var e := nextEntity;
      var data := thelioData;
      if info.current != info.latest {
        data := data.(upgradeable := true);
      }
      if digest.Some? {
        data := data.(digest := digest);
      }
      assert data == ThelioData(if digest.Some? then digest else thelioData.digest,
                                thelioData.upgradeable || Upgradeable(info));
      var group := thelio + [e];
      var controls := widgets[e := NewBoard(info, digest)];
      if data.upgradeable {
        var first := group[0];
        controls := controls[first := controls[first].(controlVisible := true)];
      }
      devicesFound, nextEntity, live := true, e + 1, live + {e};
      thelioData, thelio, widgets := data, group, controls;
      stackShown, stackPage := true, DevicesPage;
    }

    /** `Scan` asks the worker for a new scan. */
    method Scan()
      requires Valid()
      modifies this`outputs
      ensures Valid()
      ensures outputs == old(outputs) + [SendCommand(FirmwareEvent.Scan)]
    {
      outputs := outputs + [SendCommand(FirmwareEvent.Scan)];
    }

    /** A click on a control of the current scan, on its upgrade button (which can be
        clicked only while its stack is visible and shows the button) or on the control
        itself; `response` is what the modal would answer, `alive` whether the
        control's weak references still upgrade. */
    method Click(e: Entity, upgradeButton: bool, response: Response, alive: bool)
      requires Valid() && e in live
      requires upgradeButton ==> widgets[e].controlVisible && widgets[e].child == ButtonChild
      modifies this`widgets, this`outputs
      ensures Valid()
      ensures var effect :=
          if upgradeButton then OnUpgradeClick(e, old(widgets)[e], response, alive)
          else OnClick(e, old(widgets)[e], thelioData, response, alive);
        && outputs == old(outputs) + Emitted(effect.sent)
        && widgets == if effect.swapToProgress then old(widgets)[e := old(widgets)[e].(child := ProgressChild)] else old(widgets)
    {
      var effect :=
        if upgradeButton then OnUpgradeClick(e, widgets[e], response, alive)
        else OnClick(e, widgets[e], thelioData, response, alive);
      if effect.swapToProgress {
        widgets := widgets[e := widgets[e].(child := ProgressChild)];
        LooksChangeKeepsInvariants(nextEntity, thelio, old(widgets), widgets, thelioData);
      }
      outputs := outputs + Emitted(effect.sent);
    }
  }
}
