/** A reader for the command line that `BuildCHArgs` writes: flags with one value take one item,
    `--disk` and `--net` take the items up to the next flag, and device items are comma lists. */
module ChArgsReader {
  import opened Prelude
  import opened Text
  import opened TaskConfig
  import opened Resources
  import opened ChArgs
  import Taps

  datatype DiskSetting = DiskSetting(path: string, imageType: string, readonly: bool, direct: bool, backing: bool)

  datatype NetSetting = NetSetting(tap: string, mac: string)

  datatype BalloonSetting = BalloonSetting(size: string, deflateOnOom: bool, freePageReporting: bool)

  /** What a command line asks for; the empty string stands for an absent flag. */
  datatype Settings = Settings(
    socket: string,
    serial: string,
    kernel: string,
    initramfs: string,
    cmdline: string,
    disks: seq<DiskSetting>,
    nets: seq<NetSetting>,
    cpus: Option<nat>,
    memory: Option<nat>,
    console: string,
    balloon: Option<BalloonSetting>)

  const NOTHING := Settings("", "", "", "", "", [], [], None, None, "", None)

  // ---- Device items ------------------------------------------------------------------------

  function After(item: string, key: string): Option<string> {
    if HasPrefix(item, key) then Some(item[|key|..]) else None
  }

  function ReadDiskField(d: DiskSetting, field: string): Option<DiskSetting> {
    if field == "readonly=on" then Some(d.(readonly := true))
    else if field == "direct=on" then Some(d.(direct := true))
    else if field == "backing_files=on" then Some(d.(backing := true))
    else match After(field, "image_type=")
      case Some(t) => Some(d.(imageType := t))
      case None => None
  }

  /** The first field is the path, the others refine it in order. */
  function ReadDiskFields(fields: seq<string>): Option<DiskSetting>
    requires |fields| > 0
  {
    if |fields| == 1 then
      match After(fields[0], "path=")
      case None => None
      case Some(path) => Some(DiskSetting(path, "", false, false, false))
    else
      match ReadDiskFields(fields[..|fields| - 1])
      case None => None
      case Some(d) => ReadDiskField(d, fields[|fields| - 1])
  }

  function ReadDisk(item: string): Option<DiskSetting> {
    ReadDiskFields(Split(item, ','))
  }

  function ReadNet(item: string): Option<NetSetting> {
    var fields := Split(item, ',');
    match After(fields[0], "tap=")
    case None => None
    case Some(tap) =>
      if |fields| == 1 then Some(NetSetting(tap, ""))
      else if |fields| > 2 then None
      else match After(fields[1], "mac=")
        case None => None
        case Some(mac) => Some(NetSetting(tap, mac))
  }

  function ReadOnOff(field: string, key: string): Option<bool> {
    if field == key + "on" then Some(true) else if field == key + "off" then Some(false) else None
  }

  function ReadBalloon(item: string): Option<BalloonSetting> {
    var fields := Split(item, ',');
    if |fields| != 3 then None
    else
      var size, deflate, fpr :=
        After(fields[0], "size="), ReadOnOff(fields[1], "deflate_on_oom="),
        ReadOnOff(fields[2], "free_page_reporting=");
      if size.None? || deflate.None? || fpr.None? then None
      else Some(BalloonSetting(size.value, deflate.value, fpr.value))
  }

  // ---- The item list -----------------------------------------------------------------------

  datatype Flag = ApiSocket | Serial | Kernel | Initramfs | Cmdline | DiskList | NetList | Cpus | Memory | Console
                | Ballooning

  function FlagOf(item: string): Option<Flag> {
    match item
    case "--api-socket" => Some(ApiSocket)
    case "--serial" => Some(Serial)
    case "--kernel" => Some(Kernel)
    case "--initramfs" => Some(Initramfs)
    case "--cmdline" => Some(Cmdline)
    case "--disk" => Some(DiskList)
    case "--net" => Some(NetList)
    case "--cpus" => Some(Cpus)
    case "--memory" => Some(Memory)
    case "--console" => Some(Console)
    case "--balloon" => Some(Ballooning)
    case _ => None
  }

  /** What the next item may be: a flag, the value of a flag, or one more item of a list. */
  datatype Mode = Top | Value(flag: Flag) | Disks | Nets | Bad

  datatype Reading = Reading(mode: Mode, s: Settings) {
    predicate Ready() {
      mode.Top? || mode.Disks? || mode.Nets?
    }
  }

  function SetValue(s: Settings, flag: Flag, value: string): Option<Settings> {
    match flag
    case ApiSocket => (match After(value, "path=") case None => None case Some(p) => Some(s.(socket := p)))
    case Serial => Some(s.(serial := value))
    case Kernel => Some(s.(kernel := value))
    case Initramfs => Some(s.(initramfs := value))
    case Cmdline => Some(s.(cmdline := value))
    case Console => Some(s.(console := value))
    case Cpus => (match After(value, "boot=")
                  case None => None
                  case Some(t) => match Atoi(t) case None => None case Some(n) => Some(s.(cpus := Some(n))))
    case Memory => (match After(value, "size=")
                    case None => None
                    case Some(t) => match Atoi(t) case None => None case Some(n) => Some(s.(memory := Some(n))))
    case Ballooning => (match ReadBalloon(value) case None => None case Some(b) => Some(s.(balloon := Some(b))))
    case DiskList => None
    case NetList => None
  }

  function Next(r: Reading, item: string): Reading {
    if r.mode.Bad? then r
    else if r.mode.Value? then
      match SetValue(r.s, r.mode.flag, item)
      case None => Reading(Bad, r.s)
      case Some(s) => Reading(Top, s)
    else if HasPrefix(item, "--") then
      match FlagOf(item)
      case None => Reading(Bad, r.s)
      case Some(DiskList) => Reading(Disks, r.s)
      case Some(NetList) => Reading(Nets, r.s)
      case Some(f) => Reading(Value(f), r.s)
    else if r.mode.Disks? then
      match ReadDisk(item)
      case None => Reading(Bad, r.s)
      case Some(d) => Reading(Disks, r.s.(disks := r.s.disks + [d]))
    else if r.mode.Nets? then
      match ReadNet(item)
      case None => Reading(Bad, r.s)
      case Some(n) => Reading(Nets, r.s.(nets := r.s.nets + [n]))
    else Reading(Bad, r.s)
  }

  function ReadItems(items: seq<string>): Reading {
    if items == [] then Reading(Top, NOTHING)
    else Next(ReadItems(items[..|items| - 1]), items[|items| - 1])
  }

  function ReadArgs(items: seq<string>): Option<Settings> {
    if ReadItems(items).Ready() then Some(ReadItems(items).s) else None
  }

  // ---- What a configuration asks for ---------------------------------------------------------

  function AskedDisk(disk: Disk): DiskSetting {
    DiskSetting(disk.path, disk.imageType, disk.readonly,
      disk.ephemeralOverlay && disk.reflinkCopy, disk.ephemeralOverlay && !disk.reflinkCopy)
  }

  function AskedNet(net: Network, taskID: string): NetSetting {
    NetSetting(if net.autoTuntap then Taps.TapName(taskID) else net.tap, net.mac)
  }

  function AskedDisks(disks: seq<Disk>): (r: seq<DiskSetting>)
    ensures |r| == |disks| && forall i :: 0 <= i < |r| ==> r[i] == AskedDisk(disks[i])
  {
    seq(|disks|, i requires 0 <= i < |disks| => AskedDisk(disks[i]))
  }

  function AskedNets(nets: seq<Network>, taskID: string): (r: seq<NetSetting>)
    ensures |r| == |nets| && forall i :: 0 <= i < |r| ==> r[i] == AskedNet(nets[i], taskID)
  {
    seq(|nets|, i requires 0 <= i < |nets| => AskedNet(nets[i], taskID))
  }

  function AskedBalloon(b: Balloon): Option<BalloonSetting> {
    if b.enabled then Some(BalloonSetting(b.size, b.deflateOnOom, b.freePageReporting)) else None
  }

  function Asked(cfg: Config, resources: Option<Allocation>, socketBase: string, taskID: string): Settings {
    Settings(
      socketBase + ".sock", cfg.serial, cfg.payload.kernel, cfg.payload.initramfs, cfg.payload.cmdline,
      AskedDisks(cfg.disk), AskedNets(cfg.network, taskID),
      Some(Vcpus(resources)),
      if Guest(resources).Sized? then Some(Guest(resources).bytes) else None,
      cfg.console,
      AskedBalloon(BalloonOf(cfg)))
  }

  predicate CommaFreeDisk(d: DiskSetting) { ',' !in d.path && ',' !in d.imageType }

  predicate CommaFreeNet(n: NetSetting) { ',' !in n.tap && ',' !in n.mac }

  /** No value that is printed inside a comma list contains a comma. */
  predicate CommaFree(s: Settings) {
    && (forall i :: 0 <= i < |s.disks| ==> CommaFreeDisk(s.disks[i]))
    && (forall i :: 0 <= i < |s.nets| ==> CommaFreeNet(s.nets[i]))
    && (s.balloon.Some? ==> ',' !in s.balloon.value.size)
  }

  // ---- Reading one device item back ------------------------------------------------------------

  /** Appending one field appends one part to the split. */
  lemma SplitAppend(entry: string, field: string)
    requires ',' !in field
    ensures Split(entry + ("," + field), ',') == Split(entry, ',') + [field]
  {
    assert entry + ("," + field) == entry + [','] + field;
    SplitConcat(entry, field, ',');
    SplitPlain(field, ',');
  }

  /** Reading an item with one more field is reading the item and then the field. */
  lemma ReadDiskAppend(entry: string, field: string)
    requires ',' !in field
    ensures ReadDisk(entry + ("," + field)) ==
            match ReadDisk(entry) { case None => None case Some(d) => ReadDiskField(d, field) }
  {
    SplitAppend(entry, field);
    assert (Split(entry, ',') + [field])[..|Split(entry, ',')|] == Split(entry, ',');
  }

  lemma ReadDiskPath(path: string)
    requires ',' !in path
    ensures ReadDisk("path=" + path) == Some(DiskSetting(path, "", false, false, false))
  {
    SplitPlain("path=" + path, ',');
    assert ("path=" + path)[5..] == path;
  }

  lemma ReadDiskType(d: DiskSetting, t: string)
    ensures ReadDiskField(d, "image_type=" + t) == Some(d.(imageType := t))
  {
    var field := "image_type=" + t;
    assert field[0] == 'i';
    assert field[11..] == t;
  }

  /** A printed disk reads back as what was asked for. */
  lemma ReadDiskArg(disk: Disk)
    requires CommaFreeDisk(AskedDisk(disk))
    ensures ReadDisk(DiskArg(disk)) == Some(AskedDisk(disk))
  {
    var path := "path=" + disk.path;
    var d0 := DiskSetting(disk.path, "", false, false, false);
    ReadDiskPath(disk.path);
    var typed := Append(path, disk.imageType != "", ",image_type=" + disk.imageType);
    var d1 := d0.(imageType := disk.imageType);
    assert ReadDisk(typed) == Some(d1) by {
      if disk.imageType != "" {
        var field := "image_type=" + disk.imageType;
        assert ",image_type=" + disk.imageType == "," + field;
        ReadDiskAppend(path, field);
        ReadDiskType(d0, disk.imageType);
      }
    }
    var guarded := Append(typed, disk.readonly, ",readonly=on");
    var d2 := d1.(readonly := disk.readonly);
    assert ReadDisk(guarded) == Some(d2) by {
      assert ",readonly=on" == "," + "readonly=on";
      if disk.readonly { ReadDiskAppend(typed, "readonly=on"); }
    }
    if disk.ephemeralOverlay {
      if disk.reflinkCopy { ReadDirect(guarded, d2); } else { ReadBacking(guarded, d2); }
    }
  }

  lemma ReadDirect(entry: string, d: DiskSetting)
    requires ReadDisk(entry) == Some(d)
    ensures ReadDisk(entry + ",direct=on") == Some(d.(direct := true))
  {
    assert ",direct=on" == "," + "direct=on";
    ReadDiskAppend(entry, "direct=on");
  }

  lemma ReadBacking(entry: string, d: DiskSetting)
    requires ReadDisk(entry) == Some(d)
    ensures ReadDisk(entry + ",backing_files=on") == Some(d.(backing := true))
  {
    assert ",backing_files=on" == "," + "backing_files=on";
    ReadDiskAppend(entry, "backing_files=on");
  }

  lemma ReadNetArg(net: Network, taskID: string)
    requires CommaFreeNet(AskedNet(net, taskID))
    ensures ReadNet(NetArg(net, taskID)) == Some(AskedNet(net, taskID))
  {
    var tap := AskedNet(net, taskID).tap;
    var entry := "tap=" + tap;
    SplitPlain(entry, ',');
    assert entry[4..] == tap;
    if net.mac != "" {
      var field := "mac=" + net.mac;
      assert ",mac=" + net.mac == "," + field;
      SplitAppend(entry, field);
      assert field[4..] == net.mac;
    }
  }

  lemma ReadOnOffOf(b: bool, key: string)
    ensures ReadOnOff(key + OnOff(b), key) == Some(b)
  {
    assert (key + "on")[|key| + 1] == 'n' && (key + "off")[|key| + 1] == 'f';
  }

  lemma BalloonFields(b: Balloon)
    requires ',' !in b.size
    ensures Split(BalloonArg(b), ',') ==
            ["size=" + b.size, "deflate_on_oom=" + OnOff(b.deflateOnOom),
             "free_page_reporting=" + OnOff(b.freePageReporting)]
  {
    var size := "size=" + b.size;
    var deflate := "deflate_on_oom=" + OnOff(b.deflateOnOom);
    SplitPlain(size, ',');
    SplitAppend(size, deflate);
    SplitAppend(size + ("," + deflate), "free_page_reporting=" + OnOff(b.freePageReporting));
  }

  lemma ReadBalloonArg(b: Balloon)
    requires ',' !in b.size
    ensures ReadBalloon(BalloonArg(b)) == Some(BalloonSetting(b.size, b.deflateOnOom, b.freePageReporting))
  {
    BalloonFields(b);
    assert ("size=" + b.size)[5..] == b.size;
    ReadOnOffOf(b.deflateOnOom, "deflate_on_oom=");
    ReadOnOffOf(b.freePageReporting, "free_page_reporting=");
  }

  // ---- Reading the list back ---------------------------------------------------------------

  lemma ReadOne(items: seq<string>, item: string)
    ensures ReadItems(items + [item]) == Next(ReadItems(items), item)
  {
    assert (items + [item])[..|items|] == items;
  }

  /** A flag followed by its value. */
  lemma ReadFlag(items: seq<string>, name: string, value: string, flag: Flag)
    requires ReadItems(items).Ready()
    requires HasPrefix(name, "--") && FlagOf(name) == Some(flag) && !flag.DiskList? && !flag.NetList?
    ensures ReadItems(items + [name, value]) ==
            match SetValue(ReadItems(items).s, flag, value) {
              case None => Reading(Bad, ReadItems(items).s)
              case Some(s) => Reading(Top, s)
            }
  {
    ReadOne(items, name);
    ReadOne(items + [name], value);
    assert items + [name, value] == items + [name] + [value];
  }

  lemma ReadAddFlag(items: seq<string>, name: string, value: string, flag: Flag, s: Settings)
    requires ReadItems(items).Ready()
    requires HasPrefix(name, "--") && FlagOf(name) == Some(flag) && !flag.DiskList? && !flag.NetList?
    requires value == "" ==> s == ReadItems(items).s
    requires value != "" ==> SetValue(ReadItems(items).s, flag, value) == Some(s)
    ensures ReadItems(AddFlag(items, name, value)).Ready() && ReadItems(AddFlag(items, name, value)).s == s
  {
    if value != "" { ReadFlag(items, name, value, flag); }
  }

  lemma DeviceItemsAreNotFlags(disk: Disk, net: Network, taskID: string)
    ensures !HasPrefix(DiskArg(disk), "--")
    ensures !HasPrefix(NetArg(net, taskID), "--")
  {
    assert DiskArg(disk)[0] == 'p';
    assert NetArg(net, taskID)[0] == 't';
    assert "--"[0] == '-';
  }

  lemma ReadOneDisk(items: seq<string>, arg: string, disk: DiskSetting)
    requires ReadItems(items).mode.Disks? && !HasPrefix(arg, "--") && ReadDisk(arg) == Some(disk)
    ensures ReadItems(items + [arg]) == Reading(Disks, ReadItems(items).s.(disks := ReadItems(items).s.disks + [disk]))
  {
    ReadOne(items, arg);
  }

  lemma ReadOneNet(items: seq<string>, arg: string, net: NetSetting)
    requires ReadItems(items).mode.Nets? && !HasPrefix(arg, "--") && ReadNet(arg) == Some(net)
    ensures ReadItems(items + [arg]) == Reading(Nets, ReadItems(items).s.(nets := ReadItems(items).s.nets + [net]))
  {
    ReadOne(items, arg);
  }

  predicate AreDisks(args: seq<string>, disks: seq<DiskSetting>) {
    && |args| == |disks|
    && forall i :: 0 <= i < |args| ==> !HasPrefix(args[i], "--") && ReadDisk(args[i]) == Some(disks[i])
  }

  predicate AreNets(args: seq<string>, nets: seq<NetSetting>) {
    && |args| == |nets|
    && forall i :: 0 <= i < |args| ==> !HasPrefix(args[i], "--") && ReadNet(args[i]) == Some(nets[i])
  }

  lemma TakeNext<T>(before: seq<T>, more: seq<T>, k: nat)
    requires 0 < k <= |more|
    ensures before + more[..k] == before + more[..k - 1] + [more[k - 1]]
  {
  }

  /** List items that each read back to a disk read back to those disks, in order. */
  lemma {:induction false} ReadDiskItems(items: seq<string>, args: seq<string>, disks: seq<DiskSetting>, k: nat)
    requires ReadItems(items).mode.Disks? && AreDisks(args, disks) && k <= |args|
    ensures ReadItems(items + args[..k]) == Reading(Disks,
        ReadItems(items).s.(disks := ReadItems(items).s.disks + disks[..k]))
  {
    if k == 0 {
      assert items + args[..0] == items && ReadItems(items).s.disks + disks[..0] == ReadItems(items).s.disks;
    } else {
      ReadDiskItems(items, args, disks, k - 1);
      ReadOneDisk(items + args[..k - 1], args[k - 1], disks[k - 1]);
      TakeNext(items, args, k);
      TakeNext(ReadItems(items).s.disks, disks, k);
    }
  }

  /** List items that each read back to a network read back to those networks, in order. */
  lemma {:induction false} ReadNetItems(items: seq<string>, args: seq<string>, nets: seq<NetSetting>, k: nat)
    requires ReadItems(items).mode.Nets? && AreNets(args, nets) && k <= |args|
    ensures ReadItems(items + args[..k]) == Reading(Nets,
        ReadItems(items).s.(nets := ReadItems(items).s.nets + nets[..k]))
  {
    if k == 0 {
      assert items + args[..0] == items && ReadItems(items).s.nets + nets[..0] == ReadItems(items).s.nets;
    } else {
      ReadNetItems(items, args, nets, k - 1);
      ReadOneNet(items + args[..k - 1], args[k - 1], nets[k - 1]);
      TakeNext(items, args, k);
      TakeNext(ReadItems(items).s.nets, nets, k);
    }
  }

  /** A list flag switches the reader to that list. */
  lemma EnterList(items: seq<string>, name: string, flag: Flag)
    requires ReadItems(items).Ready() && HasPrefix(name, "--") && FlagOf(name) == Some(flag)
    requires flag.DiskList? || flag.NetList?
    ensures ReadItems(items + [name]) == Reading(if flag.DiskList? then Disks else Nets, ReadItems(items).s)
  {
    ReadOne(items, name);
  }

  lemma ListFlagNames()
    ensures HasPrefix("--disk", "--") && FlagOf("--disk") == Some(DiskList)
    ensures HasPrefix("--net", "--") && FlagOf("--net") == Some(NetList)
  {
  }

  lemma ListAssoc(items: seq<string>, name: string, values: seq<string>)
    ensures items + ([name] + values) == items + [name] + values
  {
  }

  lemma DiskArgsRead(disks: seq<Disk>)
    requires forall i :: 0 <= i < |disks| ==> CommaFreeDisk(AskedDisk(disks[i]))
    ensures AreDisks(DiskArgs(disks), AskedDisks(disks))
  {
    forall i | 0 <= i < |disks|
      ensures !HasPrefix(DiskArgs(disks)[i], "--") && ReadDisk(DiskArgs(disks)[i]) == Some(AskedDisks(disks)[i])
    {
      DeviceItemsAreNotFlags(disks[i], Network("", "", false, ""), "");
      ReadDiskArg(disks[i]);
    }
  }

  lemma NetArgsRead(nets: seq<Network>, taskID: string)
    requires forall i :: 0 <= i < |nets| ==> CommaFreeNet(AskedNet(nets[i], taskID))
    ensures AreNets(NetArgs(nets, taskID), AskedNets(nets, taskID))
  {
    forall i | 0 <= i < |nets|
      ensures !HasPrefix(NetArgs(nets, taskID)[i], "--")
          && ReadNet(NetArgs(nets, taskID)[i]) == Some(AskedNets(nets, taskID)[i])
    {
      DeviceItemsAreNotFlags(Disk("", "", false, false, false), nets[i], taskID);
      ReadNetArg(nets[i], taskID);
    }
  }

  lemma ReadDiskList(items: seq<string>, args: seq<string>, disks: seq<DiskSetting>)
    requires ReadItems(items).Ready() && ReadItems(items).s.disks == [] && AreDisks(args, disks)
    ensures ReadItems(items + (["--disk"] + args)) == Reading(Disks, ReadItems(items).s.(disks := disks))
  {
    ListFlagNames();
    EnterList(items, "--disk", DiskList);
    ReadDiskItems(items + ["--disk"], args, disks, |args|);
    assert args[..|args|] == args && [] + disks[..|args|] == disks;
    ListAssoc(items, "--disk", args);
  }

  lemma ReadNetList(items: seq<string>, args: seq<string>, nets: seq<NetSetting>)
    requires ReadItems(items).Ready() && ReadItems(items).s.nets == [] && AreNets(args, nets)
    ensures ReadItems(items + (["--net"] + args)) == Reading(Nets, ReadItems(items).s.(nets := nets))
  {
    ListFlagNames();
    EnterList(items, "--net", NetList);
    ReadNetItems(items + ["--net"], args, nets, |args|);
    assert args[..|args|] == args && [] + nets[..|args|] == nets;
    ListAssoc(items, "--net", args);
  }

  lemma ReadAddDisks(items: seq<string>, disks: seq<Disk>)
    requires ReadItems(items).Ready() && ReadItems(items).s.disks == []
    requires forall i :: 0 <= i < |disks| ==> CommaFreeDisk(AskedDisk(disks[i]))
    ensures ReadItems(AddList(items, "--disk", DiskArgs(disks))).Ready()
    ensures ReadItems(AddList(items, "--disk", DiskArgs(disks))).s == ReadItems(items).s.(disks := AskedDisks(disks))
  {
    DiskArgsRead(disks);
    if disks != [] { ReadDiskList(items, DiskArgs(disks), AskedDisks(disks)); } else { assert AskedDisks(disks) == []; }
  }

  lemma ReadAddNets(items: seq<string>, nets: seq<Network>, taskID: string)
    requires ReadItems(items).Ready() && ReadItems(items).s.nets == []
    requires forall i :: 0 <= i < |nets| ==> CommaFreeNet(AskedNet(nets[i], taskID))
    ensures ReadItems(AddList(items, "--net", NetArgs(nets, taskID))).Ready()
    ensures ReadItems(AddList(items, "--net", NetArgs(nets, taskID))).s
        == ReadItems(items).s.(nets := AskedNets(nets, taskID))
  {
    NetArgsRead(nets, taskID);
    if nets != [] {
      ReadNetList(items, NetArgs(nets, taskID), AskedNets(nets, taskID));
    } else {
      assert AskedNets(nets, taskID) == [];
    }
  }

  lemma ReadSocket(socketBase: string)
    ensures ReadItems(["--api-socket", "path=" + socketBase + ".sock"])
        == Reading(Top, NOTHING.(socket := socketBase + ".sock"))
  {
    var value := "path=" + socketBase + ".sock";
    ReadFlag([], "--api-socket", value, ApiSocket);
    assert [] + ["--api-socket", value] == ["--api-socket", value];
    assert value[5..] == socketBase + ".sock";
  }

  lemma ReadCpus(items: seq<string>, n: nat)
    requires ReadItems(items).Ready()
    ensures ReadItems(items + ["--cpus", "boot=" + Itoa(n)]) == Reading(Top, ReadItems(items).s.(cpus := Some(n)))
  {
    ReadFlag(items, "--cpus", "boot=" + Itoa(n), Cpus);
    assert ("boot=" + Itoa(n))[5..] == Itoa(n);
    AtoiItoa(n);
  }

  lemma ReadAddMemory(items: seq<string>, guest: GuestMemory)
    requires ReadItems(items).Ready() && ReadItems(items).s.memory == None
    ensures var r := ReadItems(AddMemory(items, guest));
            r.Ready() && r.s == ReadItems(items).s.(memory := if guest.Sized? then Some(guest.bytes) else None)
  {
    if guest.Sized? {
      ReadFlag(items, "--memory", "size=" + Itoa(guest.bytes), Memory);
      assert ("size=" + Itoa(guest.bytes))[5..] == Itoa(guest.bytes);
      AtoiItoa(guest.bytes);
    }
  }

  lemma ReadAddBalloon(items: seq<string>, b: Balloon)
    requires ReadItems(items).Ready() && ReadItems(items).s.balloon == None
    requires b.enabled ==> ',' !in b.size
    ensures var r := ReadItems(AddBalloon(items, b));
            r.Ready() && r.s == ReadItems(items).s.(balloon := AskedBalloon(b))
  {
    if b.enabled {
      ReadFlag(items, "--balloon", BalloonArg(b), Ballooning);
      ReadBalloonArg(b);
    }
  }

  /** The flags up to the guest kernel. */
  lemma ReadKernel(cfg: Config, socketBase: string)
    ensures ReadItems(KernelArgs(cfg, socketBase)).Ready()
    ensures ReadItems(KernelArgs(cfg, socketBase)).s
            == NOTHING.(socket := socketBase + ".sock", serial := cfg.serial, kernel := cfg.payload.kernel)
  {
    var a0 := ["--api-socket", "path=" + socketBase + ".sock"];
    ReadSocket(socketBase);
    var s1 := NOTHING.(socket := socketBase + ".sock", serial := cfg.serial);
    ReadAddFlag(a0, "--serial", cfg.serial, Serial, s1);
    ReadAddFlag(AddFlag(a0, "--serial", cfg.serial), "--kernel", cfg.payload.kernel, Kernel,
        s1.(kernel := cfg.payload.kernel));
  }

  /** The flags up to the command line of the guest kernel. */
  lemma ReadPayload(cfg: Config, socketBase: string)
    ensures ReadItems(PayloadArgs(cfg, socketBase)).Ready()
    ensures ReadItems(PayloadArgs(cfg, socketBase)).s
            == NOTHING.(socket := socketBase + ".sock", serial := cfg.serial, kernel := cfg.payload.kernel,
                        initramfs := cfg.payload.initramfs, cmdline := cfg.payload.cmdline)
  {
    var a2 := KernelArgs(cfg, socketBase);
    ReadKernel(cfg, socketBase);
    var s3 := ReadItems(a2).s.(initramfs := cfg.payload.initramfs);
    ReadAddFlag(a2, "--initramfs", cfg.payload.initramfs, Initramfs, s3);
    ReadAddFlag(AddFlag(a2, "--initramfs", cfg.payload.initramfs), "--cmdline", cfg.payload.cmdline, Cmdline,
                s3.(cmdline := cfg.payload.cmdline));
  }

  /** The devices after any list that has set none yet. */
  lemma ReadDevices(items: seq<string>, cfg: Config, taskID: string)
    requires ReadItems(items).Ready() && ReadItems(items).s.disks == [] && ReadItems(items).s.nets == []
    requires forall i :: 0 <= i < |cfg.disk| ==> CommaFreeDisk(AskedDisk(cfg.disk[i]))
    requires forall i :: 0 <= i < |cfg.network| ==> CommaFreeNet(AskedNet(cfg.network[i], taskID))
    ensures var withDisks := AddList(items, "--disk", DiskArgs(cfg.disk));
            var r := ReadItems(AddList(withDisks, "--net", NetArgs(cfg.network, taskID)));
            && r.Ready()
            && r.s == ReadItems(items).s.(disks := AskedDisks(cfg.disk), nets := AskedNets(cfg.network, taskID))
  {
    ReadAddDisks(items, cfg.disk);
    ReadAddNets(AddList(items, "--disk", DiskArgs(cfg.disk)), cfg.network, taskID);
  }

  /** Processors, memory, console and balloon after any list that has set none of them. */
  lemma ReadMachine(items: seq<string>, cfg: Config, resources: Option<Allocation>)
    requires ReadItems(items).Ready()
    requires ReadItems(items).s.memory == None && ReadItems(items).s.balloon == None && ReadItems(items).s.console == ""
    requires BalloonOf(cfg).enabled ==> ',' !in BalloonOf(cfg).size
    ensures
      var a8 := AddMemory(items + ["--cpus", "boot=" + Itoa(Vcpus(resources))], Guest(resources));
      var r := ReadItems(AddBalloon(AddFlag(a8, "--console", cfg.console), BalloonOf(cfg)));
      r.Ready() &&
      r.s == ReadItems(items).s.(
        cpus := Some(Vcpus(resources)),
        memory := if Guest(resources).Sized? then Some(Guest(resources).bytes) else None,
        console := cfg.console,
        balloon := AskedBalloon(BalloonOf(cfg)))
  {
    ReadCpus(items, Vcpus(resources));
    var a7 := items + ["--cpus", "boot=" + Itoa(Vcpus(resources))];
    ReadAddMemory(a7, Guest(resources));
    var a8 := AddMemory(a7, Guest(resources));
    ReadAddFlag(a8, "--console", cfg.console, Console, ReadItems(a8).s.(console := cfg.console));
    ReadAddBalloon(AddFlag(a8, "--console", cfg.console), BalloonOf(cfg));
  }

  /** For a configuration whose comma-list values hold no comma, the printed list reads back as
      exactly what the configuration asks for, disks and networks in order. */
  lemma ReadBack(cfg: Config, resources: Option<Allocation>, socketBase: string, taskID: string)
    requires !Guest(resources).TooSmall?
    requires CommaFree(Asked(cfg, resources, socketBase, taskID))
    ensures ReadArgs(Args(cfg, resources, socketBase, taskID).value) == Some(Asked(cfg, resources, socketBase, taskID))
  {
    var asked := Asked(cfg, resources, socketBase, taskID);
    ReadPayload(cfg, socketBase);
    var a4 := PayloadArgs(cfg, socketBase);
    forall i | 0 <= i < |cfg.disk| ensures CommaFreeDisk(AskedDisk(cfg.disk[i])) {
      assert CommaFreeDisk(asked.disks[i]);
    }
    forall i | 0 <= i < |cfg.network| ensures CommaFreeNet(AskedNet(cfg.network[i], taskID)) {
      assert CommaFreeNet(asked.nets[i]);
    }
    ReadDevices(a4, cfg, taskID);
    var a5 := AddList(a4, "--disk", DiskArgs(cfg.disk));
    ReadMachine(AddList(a5, "--net", NetArgs(cfg.network, taskID)), cfg, resources);
  }

  // ---- The reader never yields a comma -------------------------------------------------------

  lemma {:induction false} ReadDiskCommaFree(fields: seq<string>)
    requires |fields| > 0 && forall i :: 0 <= i < |fields| ==> ',' !in fields[i]
    ensures ReadDiskFields(fields).Some? ==> CommaFreeDisk(ReadDiskFields(fields).value)
  {
    if |fields| > 1 { ReadDiskCommaFree(fields[..|fields| - 1]); }
  }

  lemma DeviceValuesCommaFree(item: string)
    ensures ReadDisk(item).Some? ==> CommaFreeDisk(ReadDisk(item).value)
    ensures ReadNet(item).Some? ==> CommaFreeNet(ReadNet(item).value)
    ensures ReadBalloon(item).Some? ==> ',' !in ReadBalloon(item).value.size
  {
    SplitPartsFree(item, ',');
    ReadDiskCommaFree(Split(item, ','));
  }

  lemma SetValueCommaFree(s: Settings, flag: Flag, value: string)
    requires CommaFree(s)
    ensures SetValue(s, flag, value).Some? ==> CommaFree(SetValue(s, flag, value).value)
  {
    DeviceValuesCommaFree(value);
  }

  lemma {:induction false} ReadItemsCommaFree(items: seq<string>)
    ensures CommaFree(ReadItems(items).s)
  {
    if items != [] {
      var n := |items| - 1;
      var before := ReadItems(items[..n]);
      ReadItemsCommaFree(items[..n]);
      DeviceValuesCommaFree(items[n]);
      if before.mode.Value? { SetValueCommaFree(before.s, before.mode.flag, items[n]); }
    }
  }

  /** Printing loses nothing exactly when no value that goes into a comma list contains a comma. */
  lemma ReadBackExactly(cfg: Config, resources: Option<Allocation>, socketBase: string, taskID: string)
    requires !Guest(resources).TooSmall?
    ensures ReadArgs(Args(cfg, resources, socketBase, taskID).value) == Some(Asked(cfg, resources, socketBase, taskID))
      <==> CommaFree(Asked(cfg, resources, socketBase, taskID))
  {
    ReadItemsCommaFree(Args(cfg, resources, socketBase, taskID).value);
    if CommaFree(Asked(cfg, resources, socketBase, taskID)) {
      ReadBack(cfg, resources, socketBase, taskID);
    }
  }

  /** What is read back, field by field: every flag carries the setting of its name, devices come in order,
      and without a balloon of its own a task gets an empty one that deflates on demand. */
  lemma SettingsInFull(cfg: Config, resources: Option<Allocation>, socketBase: string, taskID: string)
    requires !Guest(resources).TooSmall?
    requires CommaFree(Asked(cfg, resources, socketBase, taskID))
    ensures ReadArgs(Args(cfg, resources, socketBase, taskID).value).Some?
    ensures var s := ReadArgs(Args(cfg, resources, socketBase, taskID).value).value;
            && s.socket == socketBase + ".sock" && s.serial == cfg.serial && s.console == cfg.console
            && s.kernel == cfg.payload.kernel && s.initramfs == cfg.payload.initramfs
            && s.cmdline == cfg.payload.cmdline
    ensures var s := ReadArgs(Args(cfg, resources, socketBase, taskID).value).value;
            && |s.disks| == |cfg.disk|
            && (forall i :: 0 <= i < |s.disks| ==>
                 && s.disks[i].path == cfg.disk[i].path && s.disks[i].imageType == cfg.disk[i].imageType
                 && s.disks[i].readonly == cfg.disk[i].readonly
                 && (s.disks[i].direct <==> cfg.disk[i].ephemeralOverlay && cfg.disk[i].reflinkCopy)
                 && (s.disks[i].backing <==> cfg.disk[i].ephemeralOverlay && !cfg.disk[i].reflinkCopy))
    ensures var s := ReadArgs(Args(cfg, resources, socketBase, taskID).value).value;
            && |s.nets| == |cfg.network|
            && (forall i :: 0 <= i < |s.nets| ==>
                 && s.nets[i].mac == cfg.network[i].mac
                 && (cfg.network[i].autoTuntap ==> s.nets[i].tap == "tap-" + AfterLast(taskID, '/'))
                 && (!cfg.network[i].autoTuntap ==> s.nets[i].tap == cfg.network[i].tap))
    ensures var s := ReadArgs(Args(cfg, resources, socketBase, taskID).value).value;
            && s.cpus == Some(Vcpus(resources))
            && (cfg.balloon.None? ==>
                 s.balloon.Some? && s.balloon.value.size == "0"
                 && s.balloon.value.deflateOnOom && s.balloon.value.freePageReporting)
            && (cfg.balloon.Some? ==> (s.balloon.Some? <==> cfg.balloon.value.enabled))
            && (cfg.balloon.Some? && cfg.balloon.value.enabled ==>
                 && s.balloon.value.size == cfg.balloon.value.size
                 && s.balloon.value.deflateOnOom == cfg.balloon.value.deflateOnOom
                 && s.balloon.value.freePageReporting == cfg.balloon.value.freePageReporting)
  {
    ReadBack(cfg, resources, socketBase, taskID);
  }

  /** The memory that is read back: the allocation less 512 MB, and none for no allocation. */
  lemma PrintedMemory(cfg: Config, a: Allocation, socketBase: string, taskID: string)
    requires a.memoryMB < 0x800_0000_0000 && (a.memoryMB == 0 || 768 <= a.memoryMB)
    requires CommaFree(Asked(cfg, Some(a), socketBase, taskID))
    ensures Args(cfg, Some(a), socketBase, taskID).Ok?
    ensures ReadArgs(Args(cfg, Some(a), socketBase, taskID).value).Some?
    ensures ReadArgs(Args(cfg, Some(a), socketBase, taskID).value).value.memory
            == if a.memoryMB == 0 then None else Some((a.memoryMB - 512) * 1024 * 1024)
  {
    GuestAcceptance(a);
    ReadBack(cfg, Some(a), socketBase, taskID);
  }
}
