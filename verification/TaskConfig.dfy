/** The task configuration records of `chdriver/driver.go` and the image metadata of `chdriver/oci_payload.go`. */
module TaskConfig {
  import opened Prelude

  datatype Payload = Payload(kernel: string, initramfs: string, cmdline: string)

  datatype Disk = Disk(
    path: string,
    imageType: string,
    readonly: bool,
    ephemeralOverlay: bool,
    reflinkCopy: bool)

  datatype Network = Network(mac: string, tap: string, autoTuntap: bool, bridge: string)

  datatype CloudInit = CloudInit(userData: string, metaData: string)

  datatype Balloon = Balloon(enabled: bool, size: string, deflateOnOom: bool, freePageReporting: bool)

  /** A task's driver configuration; the empty string and `None` are Go's zero values. */
  datatype Config = Config(
    payload: Payload,
    disk: seq<Disk>,
    console: string,
    network: seq<Network>,
    cloudInit: Option<CloudInit>,
    ociImage: string,
    serial: string,
    balloon: Option<Balloon>)

  const EMPTY_CONFIG := Config(Payload("", "", ""), [], "", [], None, "", "", None)

  /** The `config` object of an image's metadata.json. */
  datatype Metadata = Metadata(
    payload: Option<Payload>,
    disk: seq<Disk>,
    console: Option<string>,
    network: seq<Network>,
    cloudInit: Option<CloudInit>,
    serial: string)
}
