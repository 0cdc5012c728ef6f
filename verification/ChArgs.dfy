/** The command line of cloud-hypervisor (`buildCHArgs` in `chdriver/cloudhypervisor.go`). */
module ChArgs {
  import opened Prelude
  import opened Text
  import opened TaskConfig
  import opened Resources
  import Taps

  function OnOff(b: bool): string {
    if b then "on" else "off"
  }

  /** `entry` with `text` appended when `wanted`. */
  function Append(entry: string, wanted: bool, text: string): string {
    if wanted then entry + text else entry
  }

  function DiskArg(disk: Disk): string {
    var path := "path=" + disk.path;
    var typed := Append(path, disk.imageType != "", ",image_type=" + disk.imageType);
    var guarded := Append(typed, disk.readonly, ",readonly=on");
    Append(guarded, disk.ephemeralOverlay, if disk.reflinkCopy then ",direct=on" else ",backing_files=on")
  }

  function NetArg(net: Network, taskID: string): string {
    Append("tap=" + (if net.autoTuntap then Taps.TapName(taskID) else net.tap), net.mac != "", ",mac=" + net.mac)
  }

  function BalloonArg(b: Balloon): string {
    ("size=" + b.size) + ("," + ("deflate_on_oom=" + OnOff(b.deflateOnOom)))
    + ("," + ("free_page_reporting=" + OnOff(b.freePageReporting)))
  }

  const DEFAULT_BALLOON := Balloon(true, "0", true, true)

  function BalloonOf(cfg: Config): Balloon {
    match cfg.balloon case None => DEFAULT_BALLOON case Some(b) => b
  }

  function DiskArgs(disks: seq<Disk>): (args: seq<string>)
    ensures |args| == |disks|
    ensures forall i :: 0 <= i < |disks| ==> args[i] == DiskArg(disks[i])
  {
    seq(|disks|, i requires 0 <= i < |disks| => DiskArg(disks[i]))
  }

  function NetArgs(nets: seq<Network>, taskID: string): (args: seq<string>)
    ensures |args| == |nets|
    ensures forall i :: 0 <= i < |nets| ==> args[i] == NetArg(nets[i], taskID)
  {
    seq(|nets|, i requires 0 <= i < |nets| => NetArg(nets[i], taskID))
  }

  /** A flag with one value, absent when the value is empty. */
  function AddFlag(args: seq<string>, name: string, value: string): seq<string> {
    if value != "" then args + [name, value] else args
  }

  /** A flag with a list of values, absent when the list is empty. */
  function AddList(args: seq<string>, name: string, values: seq<string>): seq<string> {
    if |values| > 0 then args + ([name] + values) else args
  }

  function AddMemory(args: seq<string>, guest: GuestMemory): seq<string> {
    if guest.Sized? then args + ["--memory", "size=" + Itoa(guest.bytes)] else args
  }

  function AddBalloon(args: seq<string>, b: Balloon): seq<string> {
    if b.enabled then args + ["--balloon", BalloonArg(b)] else args
  }

  /** The flags up to the guest kernel. */
  function KernelArgs(cfg: Config, socketBase: string): seq<string> {
    var a0 := ["--api-socket", "path=" + socketBase + ".sock"];
    AddFlag(AddFlag(a0, "--serial", cfg.serial), "--kernel", cfg.payload.kernel)
  }

  /** The flags up to the command line of the guest kernel. */
  function PayloadArgs(cfg: Config, socketBase: string): seq<string> {
    var a2 := KernelArgs(cfg, socketBase);
    AddFlag(AddFlag(a2, "--initramfs", cfg.payload.initramfs), "--cmdline", cfg.payload.cmdline)
  }

  /** The whole list, refused when the allocation cannot hold the smallest guest. */
  function Args(cfg: Config, resources: Option<Allocation>, socketBase: string, taskID: string)
    : Result<seq<string>, int>
  {
    if Guest(resources).TooSmall? then Err(Guest(resources).mem)
    else
      var a4 := PayloadArgs(cfg, socketBase);
      var a5 := AddList(a4, "--disk", DiskArgs(cfg.disk));
      var a6 := AddList(a5, "--net", NetArgs(cfg.network, taskID));
      var a7 := a6 + ["--cpus", "boot=" + Itoa(Vcpus(resources))];
      var a8 := AddMemory(a7, Guest(resources));
      var a9 := AddFlag(a8, "--console", cfg.console);
      Ok(AddBalloon(a9, BalloonOf(cfg)))
  }

  method DiskEntry(disk: Disk) returns (entry: string)
    ensures entry == DiskArg(disk)
  {
    entry := "path=" + disk.path;
    if disk.imageType != "" { entry := entry + (",image_type=" + disk.imageType); }
    if disk.readonly { entry := entry + ",readonly=on"; }
    if disk.ephemeralOverlay {
      if disk.reflinkCopy { entry := entry + ",direct=on"; } else { entry := entry + ",backing_files=on"; }
    }
  }

  method NetEntry(net: Network, taskID: string) returns (entry: string)
    ensures entry == NetArg(net, taskID)
  {
    if net.autoTuntap {
      entry := "tap=" + Taps.TapName(taskID);
      if net.mac != "" { entry := entry + (",mac=" + net.mac); }
    } else {
      entry := "tap=" + net.tap;
      if net.mac != "" { entry := entry + (",mac=" + net.mac); }
    }
  }

  method DeviceArgs(disks: seq<Disk>, nets: seq<Network>, taskID: string)
    returns (diskArgs: seq<string>, networkArgs: seq<string>)
    ensures diskArgs == DiskArgs(disks)
    ensures networkArgs == NetArgs(nets, taskID)
  {
    diskArgs := [];
    for i := 0 to |disks|
      invariant diskArgs == DiskArgs(disks[..i])
    {
      var entry := DiskEntry(disks[i]);
      diskArgs := diskArgs + [entry];
    }
    networkArgs := [];
    for i := 0 to |nets|
      invariant networkArgs == NetArgs(nets[..i], taskID)
    {
      var entry := NetEntry(nets[i], taskID);
      networkArgs := networkArgs + [entry];
    }
  }

  method AppendFlag(args: seq<string>, name: string, value: string) returns (r: seq<string>)
    ensures r == AddFlag(args, name, value)
  {
    r := args;
    if value != "" { r := r + [name, value]; }
  }

  method PayloadFlags(cfg: Config, socketBase: string) returns (args: seq<string>)
    ensures args == PayloadArgs(cfg, socketBase)
  {
    args := ["--api-socket", "path=" + socketBase + ".sock"];
    args := AppendFlag(args, "--serial", cfg.serial);
    args := AppendFlag(args, "--kernel", cfg.payload.kernel);
    args := AppendFlag(args, "--initramfs", cfg.payload.initramfs);
    args := AppendFlag(args, "--cmdline", cfg.payload.cmdline);
  }

  method BuildCHArgs(cfg: Config, resources: Option<Allocation>, socketBase: string, taskID: string)
    returns (r: Result<seq<string>, int>)
    ensures r == Args(cfg, resources, socketBase, taskID)
  {
    var args := PayloadFlags(cfg, socketBase);
    var diskArgs, networkArgs := DeviceArgs(cfg.disk, cfg.network, taskID);
    if |diskArgs| > 0 { args := args + (["--disk"] + diskArgs); }
    if |networkArgs| > 0 { args := args + (["--net"] + networkArgs); }
    args := args + ["--cpus", "boot=" + Itoa(Vcpus(resources))];
    var memBytes := MemoryBytes(resources);
    if memBytes > 0 {
      var guestBytes := memBytes - OVERHEAD_BYTES;
      if guestBytes < MIN_GUEST_BYTES { return Err(memBytes); }
      args := args + ["--memory", "size=" + Itoa(guestBytes)];
    }
    args := AppendFlag(args, "--console", cfg.console);
    var balloon := BalloonOf(cfg);
    if balloon.enabled { args := args + ["--balloon", BalloonArg(balloon)]; }
    r := Ok(args);
  }
}
