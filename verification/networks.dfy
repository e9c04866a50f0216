/** The network registry entries the core reads. */
module Networks {

  /** A supported network; only the fields the core reads are kept. */
  datatype NetworkInfo = NetworkInfo(chainId: string, route: string, name: string)

  /** The one network the registry defines. */
  const FantomNetworkInfo: NetworkInfo := NetworkInfo("20250", "", "Fantom")
}
