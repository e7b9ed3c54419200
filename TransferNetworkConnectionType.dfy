/** TransferNetworkConnectionType.kt: the enum and its lenient parser. */
module TransferNetworkConnectionType {
  datatype ConnectionType = Any | Wifi | Mobile

  /** The constant's `name`, as Enum.valueOf expects it. */
  function Name(c: ConnectionType): string {
    match c
    case Any => "ANY"
    case Wifi => "WIFI"
    case Mobile => "MOBILE"
  }

  /** `getConnectionType`: `valueOf`, which is exact and case-sensitive;
      anything that names no constant becomes ANY instead of failing. */
  function GetConnectionType(connectionType: string): (c: ConnectionType)
    ensures Name(c) == connectionType || (c == Any && connectionType !in {"ANY", "WIFI", "MOBILE"})
  {
    if connectionType == "WIFI" then Wifi
    else if connectionType == "MOBILE" then Mobile
    else Any
  }

  /** Parsing a constant's own name gives the constant back. */
  lemma GetConnectionTypeOfName(c: ConnectionType)
    ensures GetConnectionType(Name(c)) == c
  {
    match c
    case Any =>
    case Wifi =>
    case Mobile =>
  }

  /** Exactly three strings parse to something other than a fallback. */
  lemma GetConnectionTypeFallback(s: string)
    ensures GetConnectionType(s) == Any <==> s != "WIFI" && s != "MOBILE"
  {
  }
}
