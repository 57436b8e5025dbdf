/** The devices screen: the paired devices filtered by family member, the scan button's
    guard, the low-battery flag and the status label. */
module Devices {
  import Seqs

  datatype Owner = Myself | Father
  datatype DeviceKind = Watch | Scale | Monitor | Band
  datatype Status = Connected | Syncing | Offline

  /** A paired device. The battery level is a percentage. */
  datatype Device = Device(
    id: string,
    name: string,
    kind: DeviceKind,
    status: Status,
    battery: int,
    lastSync: string,
    model: string,
    owner: Owner)

  /** The devices of the selected member, in list order. */
  function FilteredDevices(devices: seq<Device>, member: Owner): (r: seq<Device>)
    ensures forall d | d in r :: d.owner == member
    ensures forall d | d in devices ::
      multiset(r)[d] == if d.owner == member then multiset(devices)[d] else 0
    ensures Seqs.IsSubsequence(r, devices)
  {
    Seqs.Filter(devices, (d: Device) => d.owner == member)
  }

  /** The two member tabs split the list: every device shows under exactly one of them. */
  lemma {:induction false} MembersPartition(devices: seq<Device>)
    ensures |FilteredDevices(devices, Myself)| + |FilteredDevices(devices, Father)| == |devices|
  {
    if devices != [] {
      var d, rest := devices[0], devices[1..];
      assert devices == [d] + rest;
      Seqs.FilterCons(d, rest, (e: Device) => e.owner == Myself);
      Seqs.FilterCons(d, rest, (e: Device) => e.owner == Father);
      MembersPartition(rest);
    }
  }

  /** The red badge and red battery figure. */
  predicate IsLowBattery(d: Device) {
    d.battery <= 20
  }

  /** 20% is still flagged and 21% is not; a device that is flagged stays flagged as its
      battery drains further. */
  lemma LowBatteryThreshold(d: Device, e: Device)
    ensures IsLowBattery(d.(battery := 20)) && !IsLowBattery(d.(battery := 21))
    ensures IsLowBattery(d) && e.battery <= d.battery ==> IsLowBattery(e)
  {
  }

  /** The status chip's text. */
  function StatusLabel(s: Status): (text: string)
    ensures text == "已连接" <==> s == Connected
    ensures text == "同步中" <==> s == Syncing
    ensures text == "离线" <==> s == Offline
  {
    assert |"离线"| == 2 && |"已连接"| == |"同步中"| == 3 && "已连接"[0] != "同步中"[0];
    match s
    case Connected => "已连接"
    case Syncing => "同步中"
    case Offline => "离线"
  }

  class DevicesView {
    /** The device list; the screen has no way to change it. */
    const devices: seq<Device>
    var isScanning: bool
    var selectedMember: Owner

    /** The screen opens on the user's own devices, not scanning. */
    constructor (devices: seq<Device>)
      ensures this.devices == devices && !isScanning && selectedMember == Myself
    {
      this.devices := devices;
      isScanning := false;
      selectedMember := Myself;
    }

    /** The scan button: ignored while a scan is running, otherwise starts one. */
    method ToggleScan()
      modifies this
      ensures isScanning
      ensures selectedMember == old(selectedMember)
    {
      if isScanning {
        return;
      }
      isScanning := true;
    }

    /** A member tab: only which devices are shown changes. */
    method SelectMember(m: Owner)
      modifies this
      ensures selectedMember == m && isScanning == old(isScanning)
    {
      selectedMember := m;
    }

    /** The device count in the header. It is zero exactly when the empty-state card is
        shown, that is when the member owns none of the devices. */
    function DeviceCount(): (n: nat)
      reads this
      ensures n <= |devices|
      ensures n == 0 <==> forall d | d in devices :: d.owner != selectedMember
    {
      var shown := FilteredDevices(devices, selectedMember);
      assert n0: shown != [] ==> shown[0] in devices && shown[0].owner == selectedMember by {
        if shown != [] {
          assert shown[0] in shown;
        }
      }
      assert forall d | d in devices && d.owner == selectedMember :: d in shown by {
        forall d | d in devices && d.owner == selectedMember ensures d in shown {
          assert multiset(shown)[d] == multiset(devices)[d] > 0;
        }
      }
      |shown|
    }
  }
}
