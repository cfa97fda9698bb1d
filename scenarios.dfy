/**
 * Short sequences of signals that walk the dispatcher, through Dispatch, across a
 * scan; each method proves what the firmware widget shows at the end.
 */
module Scenarios {
  import opened Types
  import opened Widget
  import ErrorChain

  /** A scan that finds nothing ends on the empty page, and the scheduler was told
      to clear its bars. */
  method EmptyScanShowsEmptyPage()
  {
    var view := new FirmwareWidget();
    var more := view.Dispatch(FirmwareSignal.Scanning);
    more := view.Dispatch(FirmwareSignal.ScanningComplete);
    assert more && view.stackShown && view.stackPage == EmptyPage;
    assert view.outputs == [SendProgress(Clear)];
  }

  /** One Thelio I/O board, current, bringing digest `d`: the group is not upgradeable
      and flashes `d`. */
  method OneThelioBoard(d: Digest) returns (view: FirmwareWidget, e0: Entity)
    ensures fresh(view) && view.Valid() && view.running
    ensures view.thelio == [e0] && e0 in view.widgets && view.nextEntity == e0 + 1
    ensures view.thelioData == ThelioData(Some(d), false)
  {
    view := new FirmwareWidget();
    var more := view.Dispatch(FirmwareSignal.Scanning);
    e0 := view.nextEntity;
    more := view.Dispatch(FirmwareSignal.ThelioIo(FirmwareInfo("Thelio Io", "1", "1"), Some(d)));
  }

  /** A second board, behind, joins: the group is upgradeable, only the first board
      shows its upgrade control, and the digest brought by the first board is the one
      the group flashes. */
  method TwoThelioBoards(d: Digest) returns (view: FirmwareWidget, e0: Entity, e1: Entity)
    ensures fresh(view) && view.Valid() && view.running
    ensures view.thelio == [e0, e1] && e0 != e1 && e0 in view.widgets && e1 in view.widgets
    ensures view.thelioData == ThelioData(Some(d), true)
    ensures view.widgets[e0].controlVisible && !view.widgets[e1].controlVisible
    ensures view.stackShown && view.stackPage == DevicesPage
  {
    view, e0 := OneThelioBoard(d);
    e1 := view.nextEntity;
    var second := FirmwareInfo("Thelio Io", "0", "1");
    ghost var before := view.widgets;
    var more := view.Dispatch(FirmwareSignal.ThelioIo(second, None));
    JoinedContents([e0], before, e1, NewBoard(second, None), true);
  }

  /** A DeviceUpdated for the second board of the group hides and relabels both
      boards and deactivates both bars, in key order. */
  method ThelioGroupUpdatedTogether(d: Digest)
  {
    var view, e0, e1 := TwoThelioBoards(d);
    ghost var sent := view.outputs;
    var more := view.Dispatch(FirmwareSignal.DeviceUpdated(e1, "1"));
    assert view.thelio == [e0, e1];
    assert !view.widgets[e0].controlVisible && view.widgets[e0].labelText == Some("1");
    assert !view.widgets[e1].controlVisible && view.widgets[e1].labelText == Some("1");
    assert view.outputs == sent + [SendProgress(Deactivate(BarOf(e0))), SendProgress(Deactivate(BarOf(e1)))];
  }

  /** An updated system firmware entry loses its flag and reboots the machine; an error
      naming it gives it its button back. */
  method SystemUpdateReboots(info: FirmwareInfo, d: Digest)
  {
    var view := new FirmwareWidget();
    var more := view.Dispatch(FirmwareSignal.Scanning);
    var e := view.nextEntity;
    more := view.Dispatch(FirmwareSignal.S76System(info, d, []));
    assert e in view.system && view.widgets[e].meta.kind == SystemControl;
    ghost var sent := view.outputs;
    more := view.Dispatch(FirmwareSignal.DeviceUpdated(e, info.latest));
    assert !view.widgets[e].upgradeable;
    assert view.outputs == sent + [SendProgress(Deactivate(BarOf(e))), Reboot];
    var why := ErrorChain.Error("flashing failed", None);
    more := view.Dispatch(FirmwareSignal.Error(Some(e), why));
    assert view.widgets[e].child == ButtonChild;
  }

  /** After Stop the closure is detached: it returns false and nothing changes. */
  method StopDetaches()
  {
    var view := new FirmwareWidget();
    var more := view.Dispatch(FirmwareSignal.Stop);
    assert !more && !view.running;
    ghost var shown := view.Snapshot();
    more := view.Dispatch(FirmwareSignal.Scanning);
    assert !more && view.Snapshot() == shown;
  }
}
