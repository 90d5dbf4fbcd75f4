/** The driver catalogue shown to the user. */
module DriverConstants {

  const FL: string := "FL驱动"
  const RECOMMENDED_SUFFIX: string := " (推荐)"

  /** Drivers offered in the selection list, in display order. */
  const SUPPORTED_DRIVERS: seq<string> := [FL, "FT驱动", "QX11.4", "QX10", "QX8"]

  /** The driver preselected when nothing is stored. */
  const DEFAULT_DRIVER: string := FL

  const DRIVER_DESCRIPTIONS: map<string, string> := map[
    FL := "推荐驱动，兼容性最好，适用于大部分设备",
    "FT驱动" := "高性能驱动，适用于高端设备",
    "QX11.4" := "QX系列最新版本，功能全面",
    "QX10" := "QX系列稳定版本，性能均衡",
    "QX8" := "QX系列轻量版本，资源占用低"
  ]

  /** `isRecommendedDriver` tests for the literal "FL驱动", which is the default driver. */
  predicate IsRecommendedDriver(driverName: string)
    ensures IsRecommendedDriver(driverName) <==> driverName == DEFAULT_DRIVER
  {
    driverName == "FL驱动"
  }

  /** Only the recommended driver is decorated; every other name, known or not, is shown as is. */
  function GetDriverDisplayName(driverName: string): (r: string)
    ensures IsRecommendedDriver(driverName) ==> r == driverName + RECOMMENDED_SUFFIX
    ensures !IsRecommendedDriver(driverName) ==> r == driverName
  {
    match driverName
    case "FL驱动" => "FL驱动 (推荐)"
    case "FT驱动" => "FT驱动"
    case "QX11.4" => "QX11.4"
    case "QX10" => "QX10"
    case "QX8" => "QX8"
    case _ => driverName
  }

  lemma DefaultIsSupported()
    ensures DEFAULT_DRIVER in SUPPORTED_DRIVERS
    ensures forall i, j :: 0 <= i < j < |SUPPORTED_DRIVERS| ==> SUPPORTED_DRIVERS[i] != SUPPORTED_DRIVERS[j]
  {
  }

  lemma EverySupportedDriverIsDescribed()
    ensures forall d :: d in SUPPORTED_DRIVERS ==> d in DRIVER_DESCRIPTIONS
    ensures DRIVER_DESCRIPTIONS.Keys == set d | d in SUPPORTED_DRIVERS
  {
  }

  /** Exactly one supported driver is recommended, and it is the default. */
  lemma RecommendedIsUniqueDefault()
    ensures (set d | d in SUPPORTED_DRIVERS && IsRecommendedDriver(d)) == {DEFAULT_DRIVER}
  {
  }

  /** The display name is never shorter than the name and gives the name back as its prefix. */
  lemma DisplayNameExtendsName(driverName: string)
    ensures GetDriverDisplayName(driverName)[..|driverName|] == driverName
    ensures |GetDriverDisplayName(driverName)| > |driverName| <==> IsRecommendedDriver(driverName)
  {
  }
}
