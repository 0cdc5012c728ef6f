/** The host's tap devices and the `ip` commands the driver runs on them (`chdriver/autotuntap.go`). */
module Taps {
  import opened Prelude
  import opened TaskConfig
  import Text

  /** `TaskIDToTapIfaceName`: the tap device of a task. */
  function TapName(taskID: string): string {
    "tap-" + Text.AfterLast(taskID, '/')
  }

  /** The device name is `tap-` and the last component of the task ID. */
  lemma TapNameIs(taskID: string)
    ensures |TapName(taskID)| >= 4 && TapName(taskID)[..4] == "tap-" && '/' !in TapName(taskID)[4..]
    ensures exists head :: taskID == head + TapName(taskID)[4..] && (head == "" || head[|head| - 1] == '/')
  {
    Text.AfterLastSuffix(taskID, '/');
    assert TapName(taskID)[4..] == Text.AfterLast(taskID, '/');
  }

  datatype Device = Device(master: Option<string>, up: bool)

  type Devices = map<string, Device>

  /** Which of the three commands of `Up` or `Down` the host lets through. */
  datatype Permits = Permits(first: bool, second: bool, third: bool)

  const ALL_PERMITTED := Permits(true, true, true)

  /** `Up`: add the device, attach it to the bridge, set it up; stop at the first failure. */
  function UpEffect(devices: Devices, name: string, bridge: string, permits: Permits): (Devices, bool) {
    if name in devices || !permits.first then (devices, false)
    else if !permits.second then (devices[name := Device(None, false)], false)
    else (devices[name := Device(Some(bridge), permits.third)], permits.third)
  }

  /** `Down`: detach the device, set it down, delete it; stop at the first failure. */
  function DownEffect(devices: Devices, name: string, permits: Permits): Devices {
    if name !in devices || !permits.first then devices
    else if !permits.second then devices[name := devices[name].(master := None)]
    else if !permits.third then devices[name := Device(None, false)]
    else devices - {name}
  }

  /** A running virtual machine and the task it was launched for. */
  datatype VM = VM(id: string, pid: int)

  class Host {
    var devices: Devices
    /** The running virtual machines and the command lines they were launched with. */
    var vms: map<VM, seq<string>>

    constructor ()
      ensures devices == map[] && vms == map[]
    {
      devices, vms := map[], map[];
    }

    /** The executor's `Launch`. */
    method Launch(vm: VM, args: seq<string>)
      modifies this`vms
      ensures vms == old(vms)[vm := args]
    {
      vms := vms[vm := args];
    }

    /** SIGKILL. */
    method Kill(vm: VM)
      modifies this`vms
      ensures vms == old(vms) - {vm}
    {
      vms := vms - {vm};
    }

    /** `ip tuntap add`: fails when the device exists. */
    method Add(name: string, permitted: bool) returns (ok: bool)
      modifies this`devices
      ensures ok <==> permitted && name !in old(devices)
      ensures devices == if ok then old(devices)[name := Device(None, false)] else old(devices)
    {
      ok := permitted && name !in devices;
      if ok { devices := devices[name := Device(None, false)]; }
    }

    /** `ip link set` on a device: fails when the device does not exist. */
    method Set(name: string, change: Device -> Device, permitted: bool) returns (ok: bool)
      modifies this`devices
      ensures ok <==> permitted && name in old(devices)
      ensures devices == if ok then old(devices)[name := change(old(devices)[name])] else old(devices)
    {
      ok := permitted && name in devices;
      if ok { devices := devices[name := change(devices[name])]; }
    }

    /** `ip tuntap del`: fails when the device does not exist. */
    method Remove(name: string, permitted: bool) returns (ok: bool)
      modifies this`devices
      ensures ok <==> permitted && name in old(devices)
      ensures devices == if ok then old(devices) - {name} else old(devices)
    {
      ok := permitted && name in devices;
      if ok { devices := devices - {name}; }
    }

    method Up(name: string, bridge: string, permits: Permits) returns (ok: bool)
      modifies this`devices
      ensures ok <==> name !in old(devices) && permits.first && permits.second && permits.third
      ensures ok ==> name in devices && devices[name].master == Some(bridge) && devices[name].up
      ensures name !in old(devices) && permits.first && !ok ==>
                name in devices && !devices[name].up
                && devices[name].master == if permits.second then Some(bridge) else None
      ensures (devices, ok) == UpEffect(old(devices), name, bridge, permits)
    {
      ghost var was := devices;
      ok := Add(name, permits.first);
      if !ok { return; }
      ok := Set(name, (d: Device) => d.(master := Some(bridge)), permits.second);
      if !ok { return; }
      assert devices == was[name := Device(Some(bridge), false)];
      ok := Set(name, (d: Device) => d.(up := true), permits.third);
      assert devices == was[name := Device(Some(bridge), permits.third)];
    }

    method Down(name: string, permits: Permits) returns (ok: bool)
      modifies this`devices
      ensures ok ==> name !in devices
      ensures name in old(devices) && permits.first && !ok ==>
                name in devices && devices[name].master == None
                && devices[name].up == (old(devices)[name].up && !permits.second)
      ensures devices == DownEffect(old(devices), name, permits)
      ensures ok <==> name in old(devices) && permits == ALL_PERMITTED
    {
      ok := Set(name, (d: Device) => d.(master := None), permits.first);
      if !ok { return; }
      ok := Set(name, (d: Device) => d.(up := false), permits.second);
      if !ok { return; }
      ok := Remove(name, permits.third);
    }

    /** The loop of `StartTask` over the networks of the task. */
    method UpAll(nets: seq<Network>, name: string, permits: nat -> Permits) returns (ok: bool)
      modifies this`devices
      ensures (devices, ok) == UpAllEffect(old(devices), nets, name, permits)
    {
      ok := true;
      for i := 0 to |nets|
        invariant (devices, true) == UpAllEffect(old(devices), nets[..i], name, permits)
      {
        assert nets[..i + 1][..i] == nets[..i];
        if nets[i].autoTuntap {
          ok := Up(name, nets[i].bridge, permits(i));
          if !ok {
            UpAllStops(old(devices), nets, name, permits, i);
            return;
          }
        }
      }
      assert nets[..|nets|] == nets;
      ok := true;
    }

    /** The deferred loop of `DestroyTask`, which ignores failures. */
    method DownAll(nets: seq<Network>, name: string, permits: nat -> Permits)
      modifies this`devices
      ensures devices == DownAllEffect(old(devices), nets, name, permits)
    {
      for i := 0 to |nets|
        invariant devices == DownAllEffect(old(devices), nets[..i], name, permits)
      {
        assert nets[..i + 1][..i] == nets[..i];
        if nets[i].autoTuntap { var _ := Down(name, permits(i)); }
      }
      assert nets[..|nets|] == nets;
    }
  }

  function UpAllEffect(devices: Devices, nets: seq<Network>, name: string, permits: nat -> Permits): (Devices, bool) {
    if nets == [] then (devices, true)
    else
      var k := |nets| - 1;
      var before := UpAllEffect(devices, nets[..k], name, permits);
      if before.1 && nets[k].autoTuntap then UpEffect(before.0, name, nets[k].bridge, permits(k)) else before
  }

  function DownAllEffect(devices: Devices, nets: seq<Network>, name: string, permits: nat -> Permits): Devices {
    if nets == [] then devices
    else
      var k := |nets| - 1;
      var before := DownAllEffect(devices, nets[..k], name, permits);
      if nets[k].autoTuntap then DownEffect(before, name, permits(k)) else before
  }

  /** Does a task ask the driver for a tap device? */
  predicate Auto(nets: seq<Network>) {
    exists i :: 0 <= i < |nets| && nets[i].autoTuntap
  }

  lemma {:induction false} UpAllStops(devices: Devices, nets: seq<Network>, name: string, permits: nat -> Permits,
      i: nat)
    requires i < |nets| && !UpAllEffect(devices, nets[..i + 1], name, permits).1
    ensures UpAllEffect(devices, nets, name, permits) == UpAllEffect(devices, nets[..i + 1], name, permits)
  {
    if |nets| == i + 1 {
      assert nets[..i + 1] == nets;
    } else {
      var front := nets[..|nets| - 1];
      assert front[..i + 1] == nets[..i + 1];
      UpAllStops(devices, front, name, permits, i);
    }
  }

  /** Bringing a task's taps up touches only its own device. */
  lemma {:induction false} UpAllOwnDevice(devices: Devices, nets: seq<Network>, name: string, permits: nat -> Permits)
    ensures var after := UpAllEffect(devices, nets, name, permits).0;
            && (after.Keys == devices.Keys || after.Keys == devices.Keys + {name})
            && (forall n :: n in devices ==> after[n] == devices[n])
  {
    if nets != [] { UpAllOwnDevice(devices, nets[..|nets| - 1], name, permits); }
  }

  /** The host lets the first `auto-tuntap` network create its device. */
  predicate TapCreated(nets: seq<Network>, permits: nat -> Permits) {
    exists i :: 0 <= i < |nets| && nets[i].autoTuntap && permits(i).first
                && forall j :: 0 <= j < i ==> !nets[j].autoTuntap
  }

  /** Exactly one network asks for a tap, and the host lets all its commands through. */
  predicate SingleTapUp(nets: seq<Network>, permits: nat -> Permits) {
    exists i :: 0 <= i < |nets| && nets[i].autoTuntap && permits(i) == ALL_PERMITTED
                && forall j :: 0 <= j < |nets| && j != i ==> !nets[j].autoTuntap
  }

  lemma AutoSnoc(nets: seq<Network>)
    requires nets != []
    ensures Auto(nets) <==> Auto(nets[..|nets| - 1]) || nets[|nets| - 1].autoTuntap
  {
    var front := nets[..|nets| - 1];
    if Auto(front) {
      var i :| 0 <= i < |front| && front[i].autoTuntap;
      assert nets[i].autoTuntap;
    }
    if Auto(nets) {
      var i :| 0 <= i < |nets| && nets[i].autoTuntap;
      if i < |front| { assert front[i].autoTuntap; }
    }
  }

  lemma TapCreatedSnoc(nets: seq<Network>, permits: nat -> Permits)
    requires nets != []
    ensures var k := |nets| - 1;
            TapCreated(nets, permits) <==>
              TapCreated(nets[..k], permits) || (!Auto(nets[..k]) && nets[k].autoTuntap && permits(k).first)
  {
    var k := |nets| - 1;
    var front := nets[..k];
    if TapCreated(front, permits) {
      var i :| 0 <= i < |front| && front[i].autoTuntap && permits(i).first
               && forall j :: 0 <= j < i ==> !front[j].autoTuntap;
      forall j | 0 <= j < i ensures !nets[j].autoTuntap { assert !front[j].autoTuntap; }
      assert nets[i].autoTuntap;
    } else if !Auto(front) && nets[k].autoTuntap && permits(k).first {
      forall j | 0 <= j < k ensures !nets[j].autoTuntap { assert !front[j].autoTuntap; }
    }
    if TapCreated(nets, permits) {
      var i :| 0 <= i < |nets| && nets[i].autoTuntap && permits(i).first
               && forall j :: 0 <= j < i ==> !nets[j].autoTuntap;
      if i < k { assert front[i].autoTuntap; } else { assert forall j :: 0 <= j < k ==> front[j] == nets[j]; }
    }
  }

  lemma SingleTapUpSnoc(nets: seq<Network>, permits: nat -> Permits)
    requires nets != []
    ensures var k := |nets| - 1;
            SingleTapUp(nets, permits) <==>
              if nets[k].autoTuntap then !Auto(nets[..k]) && permits(k) == ALL_PERMITTED
              else SingleTapUp(nets[..k], permits)
  {
    var k := |nets| - 1;
    var front := nets[..k];
    assert forall j :: 0 <= j < k ==> front[j] == nets[j];
    if nets[k].autoTuntap {
      if SingleTapUp(nets, permits) {
        var i :| 0 <= i < |nets| && nets[i].autoTuntap && permits(i) == ALL_PERMITTED
                 && forall j :: 0 <= j < |nets| && j != i ==> !nets[j].autoTuntap;
        assert i == k;
      }
    } else {
      if SingleTapUp(front, permits) {
        var i :| 0 <= i < |front| && front[i].autoTuntap && permits(i) == ALL_PERMITTED
                 && forall j :: 0 <= j < |front| && j != i ==> !front[j].autoTuntap;
        assert nets[i].autoTuntap;
      }
      if SingleTapUp(nets, permits) {
        var i :| 0 <= i < |nets| && nets[i].autoTuntap && permits(i) == ALL_PERMITTED
                 && forall j :: 0 <= j < |nets| && j != i ==> !nets[j].autoTuntap;
        assert front[i].autoTuntap;
      }
    }
  }

  /** A start gets through its tap step exactly when no network asks for a tap, or exactly one does,
      no device has the name yet and the host lets all its commands through; a device of that name
      exists afterwards exactly when one did before or the host let the first such network create it. */
  lemma {:induction false} UpAllExactly(devices: Devices, nets: seq<Network>, name: string, permits: nat -> Permits)
    ensures var (after, ok) := UpAllEffect(devices, nets, name, permits);
            && (ok <==> !Auto(nets) || (name !in devices && SingleTapUp(nets, permits)))
            && (name in after <==> name in devices || TapCreated(nets, permits))
  {
    if nets != [] {
      var front := nets[..|nets| - 1];
      UpAllExactly(devices, front, name, permits);
      AutoSnoc(nets);
      TapCreatedSnoc(nets, permits);
      SingleTapUpSnoc(nets, permits);
      SingleIsCreated(front, permits);
    }
  }

  lemma SingleIsCreated(nets: seq<Network>, permits: nat -> Permits)
    ensures SingleTapUp(nets, permits) ==> TapCreated(nets, permits) && Auto(nets)
    ensures TapCreated(nets, permits) ==> Auto(nets)
  {
  }

  /** Some network that asks for a tap gets all three commands of its clean-up through. */
  predicate DownWorks(nets: seq<Network>, permits: nat -> Permits) {
    exists i :: 0 <= i < |nets| && nets[i].autoTuntap && permits(i) == ALL_PERMITTED
  }

  /** Taking a task's taps down touches only its own device, and removes it exactly when some network
      of the task gets its clean-up through. */
  lemma {:induction false} DownAllExactly(devices: Devices, nets: seq<Network>, name: string, permits: nat -> Permits)
    ensures var after := DownAllEffect(devices, nets, name, permits);
            && (forall n :: n != name ==> (n in after <==> n in devices) && (n in devices ==> after[n] == devices[n]))
            && (name in after <==> name in devices && !DownWorks(nets, permits))
  {
    if nets != [] {
      var k := |nets| - 1;
      var front := nets[..k];
      DownAllExactly(devices, front, name, permits);
      if DownWorks(front, permits) {
        var i :| 0 <= i < |front| && front[i].autoTuntap && permits(i) == ALL_PERMITTED;
        assert nets[i].autoTuntap;
      }
      if DownWorks(nets, permits) {
        var i :| 0 <= i < |nets| && nets[i].autoTuntap && permits(i) == ALL_PERMITTED;
        if i < k { assert front[i].autoTuntap; }
      }
    }
  }

  /** A start that gets through its tap step has the task's device up on the bridge of the network that
      asked for it. */
  lemma {:induction false} UpAllBridged(devices: Devices, nets: seq<Network>, name: string, permits: nat -> Permits,
                                        i: nat)
    requires i < |nets| && nets[i].autoTuntap && UpAllEffect(devices, nets, name, permits).1
    ensures var after := UpAllEffect(devices, nets, name, permits).0;
            name in after && after[name].up && after[name].master == Some(nets[i].bridge)
  {
    var k := |nets| - 1;
    var front := nets[..k];
    if nets[k].autoTuntap {
      UpAllExactly(devices, front, name, permits);
      SingleIsCreated(front, permits);
      assert forall j :: 0 <= j < k ==> front[j] == nets[j];
    } else {
      UpAllBridged(devices, front, name, permits, i);
    }
  }

  /** A clean-up that is not let at any device leaves all devices as they are. */
  lemma {:induction false} DownAllBarred(devices: Devices, nets: seq<Network>, name: string, permits: nat -> Permits)
    requires forall i :: 0 <= i < |nets| && nets[i].autoTuntap ==> !permits(i).first
    ensures DownAllEffect(devices, nets, name, permits) == devices
  {
    if nets != [] { DownAllBarred(devices, nets[..|nets| - 1], name, permits); }
  }

  /** The device `name` is up, on the bridge of each network that asks for it. */
  predicate Bridged(devices: Devices, name: string, nets: seq<Network>) {
    forall i :: 0 <= i < |nets| && nets[i].autoTuntap ==>
      name in devices && devices[name].up && devices[name].master == Some(nets[i].bridge)
  }

  lemma UpAllBridges(devices: Devices, nets: seq<Network>, name: string, permits: nat -> Permits)
    ensures var (after, ok) := UpAllEffect(devices, nets, name, permits); ok ==> Bridged(after, name, nets)
  {
    if UpAllEffect(devices, nets, name, permits).1 {
      var after := UpAllEffect(devices, nets, name, permits).0;
      forall i | 0 <= i < |nets| && nets[i].autoTuntap
        ensures name in after && after[name].up && after[name].master == Some(nets[i].bridge)
      {
        UpAllBridged(devices, nets, name, permits, i);
      }
    }
  }
}
