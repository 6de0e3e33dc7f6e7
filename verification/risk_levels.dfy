/** The three-level risk scale the relay reports to the identity provider. */
module RiskLevels {

  datatype RiskLevel = Low | Medium | High
  {
    /** The wire name of the level: "low", "medium" or "high". */
    function Name(): (s: string)
      ensures s == "low" <==> this == Low
      ensures s == "medium" <==> this == Medium
      ensures s == "high" <==> this == High
    {
      match this
      case Low => "low"
      case Medium => "medium"
      case High => "high"
    }
  }

  /** Distinct levels have distinct wire names. */
  lemma NamesDistinct(a: RiskLevel, b: RiskLevel)
    ensures a.Name() == b.Name() <==> a == b
  {
  }
}
