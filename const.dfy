/** The integration's constants (const.py). */
module Const {
  /** The integration domain: key of its slot in the host's data and prefix of unique ids. */
  const Domain: string := "sunenergyxt"
  /** Zeroconf host names of the device start with this ... */
  const HostPrefix: string := "SunEnergyXT_AIO_"
  /** ... and end with this. */
  const HostSuffix: string := ".local"
}
