/** The four ordered risk bands shared by the detailed assessment and the overview card. */
module RiskLevel {

  datatype Level = Low | Moderate | High | Extreme {

    /** Position of the band in the order Low < Moderate < High < Extreme. */
    function Rank(): nat {
      match this
      case Low => 0
      case Moderate => 1
      case High => 2
      case Extreme => 3
    }

    /** The label the views display for the band. */
    function Name(): string {
      match this
      case Low => "Low"
      case Moderate => "Moderate"
      case High => "High"
      case Extreme => "Extreme"
    }
  }
}
