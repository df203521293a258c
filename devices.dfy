/** The two enumerations the hardware pages (consoles, controllers, TVs) share: the PlayStation
    generation of a device and its operational status. */
module Devices {

  datatype Platform = PS4 | PS5 {
    function Label(): string {
      match this
      case PS4 => "PS4"
      case PS5 => "PS5"
    }
  }

  datatype DeviceStatus = Available | InUse | Maintenance | Offline {
    function Label(): string {
      match this
      case Available => "Available"
      case InUse => "In Use"
      case Maintenance => "Maintenance"
      case Offline => "Offline"
    }
  }

  /** The stat cards' "maintenance" bucket: a device under maintenance or offline. */
  predicate OutOfService(s: DeviceStatus) {
    s == Maintenance || s == Offline
  }
}
