/** The URL prefix of the active network's pages. */
module RoutePrefix {
  import opened Networks
  import opened Strings

  /** `"/"` for the default network, otherwise the lower-cased route between slashes. */
  function NetworkPrefix(activeNetwork: NetworkInfo, defaultNetwork: NetworkInfo): (prefix: string)
    ensures activeNetwork == defaultNetwork ==> prefix == "/"
    ensures activeNetwork != defaultNetwork ==> prefix == "/" + ToLower(activeNetwork.route) + "/"
  {
    if activeNetwork == defaultNetwork then "/" else "/" + ToLower(activeNetwork.route) + "/"
  }

  /** The prefix always begins and ends with a slash; off the default network it
      is two characters longer than the route. */
  lemma PrefixIsSlashDelimited(activeNetwork: NetworkInfo, defaultNetwork: NetworkInfo)
    ensures var prefix := NetworkPrefix(activeNetwork, defaultNetwork);
      |prefix| >= 1 && prefix[0] == '/' && prefix[|prefix| - 1] == '/' &&
      (activeNetwork != defaultNetwork ==> |prefix| == |activeNetwork.route| + 2)
  {
  }

  /** The route segment of the prefix is the route lower-cased: it holds no
      upper-case letter and lower-casing it again changes nothing. */
  lemma PrefixSegmentIsLowerCase(activeNetwork: NetworkInfo, defaultNetwork: NetworkInfo)
    requires activeNetwork != defaultNetwork
    ensures var prefix := NetworkPrefix(activeNetwork, defaultNetwork);
      var segment := prefix[1..|prefix| - 1];
      segment == ToLower(activeNetwork.route) && NoUpper(segment) && ToLower(segment) == segment
  {
  }

  /** Fantom's empty route gives `"//"` whenever Fantom is not the default network. */
  lemma FantomPrefix(defaultNetwork: NetworkInfo)
    requires defaultNetwork != FantomNetworkInfo
    ensures NetworkPrefix(FantomNetworkInfo, defaultNetwork) == "//"
  {
  }
}
