/**
 * Display helpers of the multimodal results view: confidence colour and
 * badge, severity colour, the description of a diagnosis, and the
 * recommendations block.
 */
module MultimodalResults {
  import opened Wrappers
  import opened Thresholds
  import Text
  import MultimodalRoute

  function ConfidenceColour(confidence: real): (c: Colour)
    ensures c == Green <==> BandOf(confidence) == High
    ensures c == Yellow <==> BandOf(confidence) == Medium
    ensures c == Red <==> BandOf(confidence) == Low
  {
    if confidence >= 0.8 then Green
    else if confidence >= 0.6 then Yellow
    else Red
  }

  function ConfidenceBadge(confidence: real): (badge: string)
    ensures badge == "High Confidence" <==> BandOf(confidence) == High
    ensures badge == "Medium Confidence" <==> BandOf(confidence) == Medium
    ensures badge == "Low Confidence" <==> BandOf(confidence) == Low
  {
    if confidence >= 0.8 then "High Confidence"
    else if confidence >= 0.6 then "Medium Confidence"
    else "Low Confidence"
  }

  /** The badge always agrees with the colour. */
  lemma BadgeAgreesWithColour(confidence: real)
    ensures ConfidenceBadge(confidence) == "High Confidence" <==> ConfidenceColour(confidence) == Green
    ensures ConfidenceBadge(confidence) == "Medium Confidence" <==> ConfidenceColour(confidence) == Yellow
    ensures ConfidenceBadge(confidence) == "Low Confidence" <==> ConfidenceColour(confidence) == Red
  {
  }

  /** Every combined confidence the route produces is shown Yellow or Green, never Red. */
  lemma CombinedNeverRed(d: MultimodalRoute.FusionDraws)
    requires MultimodalRoute.ValidDraws(d)
    ensures ConfidenceColour(MultimodalRoute.Combined(d)) != Red
  {
    MultimodalRoute.CombinedBounds(d);
  }

  /** Case-insensitive four-level severity colour; any other text is gray. */
  function SeverityColour(severity: string): (c: Colour)
    ensures c != Gray <==> Text.ToLower(severity) in ["none", "mild", "moderate", "severe"]
  {
    var s := Text.ToLower(severity);
    if s == "none" then Green
    else if s == "mild" then Yellow
    else if s == "moderate" then Orange
    else if s == "severe" then Red
    else Gray
  }

  /** Only the lower-cased text matters. */
  lemma SeverityColourIgnoresCase(severity: string)
    ensures SeverityColour(severity) == SeverityColour(Text.ToLower(severity))
  {
    Text.ToLowerIdempotent(severity);
  }

  /** The four severities the route writes get the four distinct colours. */
  lemma SeverityColourOfRouteNames()
    ensures SeverityColour(MultimodalRoute.Severity.None.Name()) == Green
    ensures SeverityColour(MultimodalRoute.Severity.Mild.Name()) == Yellow
    ensures SeverityColour(MultimodalRoute.Severity.Moderate.Name()) == Orange
    ensures SeverityColour(MultimodalRoute.Severity.Severe.Name()) == Red
  {
    assert Text.ToLower("None") == "none";
    assert Text.ToLower("Mild") == "mild";
    assert Text.ToLower("Moderate") == "moderate";
    assert Text.ToLower("Severe") == "severe";
  }

  const UnknownCondition: string := "Unknown condition"

  /** The description table keyed by the route's six type names. */
  function Described(t: MultimodalRoute.Diagnosis): (d: string)
    ensures d != UnknownCondition && d != ""
  {
    match t
    case Normal => "No color vision deficiency detected"
    case Protanopia => "Complete absence of L-cones (red-blind)"
    case Deuteranopia => "Complete absence of M-cones (green-blind)"
    case Tritanopia => "Complete absence of S-cones (blue-blind)"
    case Protanomaly => "Reduced sensitivity of L-cones (red-weak)"
    case Deuteranomaly => "Reduced sensitivity of M-cones (green-weak)"
  }

  /** The diagnosis a type name spells, if any. */
  function ParseDiagnosis(name: string): (t: Option<MultimodalRoute.Diagnosis>)
    ensures t.Some? ==> t.value.Name() == name
    ensures forall d: MultimodalRoute.Diagnosis :: d.Name() == name ==> t == Some(d)
  {
    if name == "Normal" then Some(MultimodalRoute.Normal)
    else if name == "Protanopia" then Some(MultimodalRoute.Protanopia)
    else if name == "Deuteranopia" then Some(MultimodalRoute.Deuteranopia)
    else if name == "Tritanopia" then Some(MultimodalRoute.Tritanopia)
    else if name == "Protanomaly" then Some(MultimodalRoute.Protanomaly)
    else if name == "Deuteranomaly" then Some(MultimodalRoute.Deuteranomaly)
    else None
  }

  /**
   * The value a property read on an object literal yields: one of its own
   * string values, a member every object inherits, or undefined.
   */
  datatype PropertyValue = OwnString(s: string) | Inherited(key: string) | Undefined

  /** Members every plain object inherits from Object.prototype. */
  const InheritedKeys: set<string> := {
    "constructor", "hasOwnProperty", "isPrototypeOf", "propertyIsEnumerable", "toLocaleString",
    "toString", "valueOf", "__proto__", "__defineGetter__", "__defineSetter__",
    "__lookupGetter__", "__lookupSetter__"}

  /** `descriptions[type] || "Unknown condition"`, as written: a plain-object lookup. */
  function TypeDescriptionAsWritten(name: string): (v: PropertyValue)
    ensures ParseDiagnosis(name).Some? ==> v == OwnString(Described(ParseDiagnosis(name).value))
    ensures ParseDiagnosis(name).None? ==> (v == Inherited(name) <==> name in InheritedKeys)
    ensures ParseDiagnosis(name).None? && name !in InheritedKeys ==> v == OwnString(UnknownCondition)
  {
    var t := ParseDiagnosis(name);
    if t.Some? then OwnString(Described(t.value))
    else if name in InheritedKeys then Inherited(name)
    else OwnString(UnknownCondition)
  }

  /** The lookup hands back an inherited member, not a string, for the type name "constructor". */
  lemma InheritedKeyEscapesFallback()
    ensures TypeDescriptionAsWritten("constructor") == Inherited("constructor")
    ensures TypeDescriptionAsWritten("constructor") != OwnString(UnknownCondition)
  {
    assert "constructor" in InheritedKeys;
  }

  /** The description looked up among the table's own six keys only. */
  function TypeDescription(name: string): (d: string)
    ensures d == UnknownCondition <==> ParseDiagnosis(name).None?
    ensures ParseDiagnosis(name).Some? ==> d == Described(ParseDiagnosis(name).value)
  {
    var t := ParseDiagnosis(name);
    if t.Some? then Described(t.value) else UnknownCondition
  }

  /** Distinct types have distinct descriptions, and the corrected lookup agrees with the written one on them. */
  lemma DescriptionsDistinct(a: MultimodalRoute.Diagnosis, b: MultimodalRoute.Diagnosis)
    ensures a != b ==> Described(a) != Described(b)
    ensures TypeDescription(a.Name()) == Described(a)
    ensures TypeDescriptionAsWritten(a.Name()) == OwnString(TypeDescription(a.Name()))
  {
    assert ParseDiagnosis(a.Name()) == Some(a);
  }

  datatype Recommendation = Recommendation(title: string, text: string)

  /** One all-clear item for "Normal"; the two follow-up items for anything else. */
  function Recommendations(name: string): (r: seq<Recommendation>)
    ensures name == "Normal" <==> |r| == 1
    ensures name == "Normal" ==> r[0].text == "No further testing required"
    ensures name != "Normal" ==> |r| == 2 && r[0].title == "Additional Testing" && r[1].title == "Patient Counseling"
  {
    if name == "Normal" then [Recommendation("Normal Color Vision", "No further testing required")]
    else [Recommendation("Additional Testing", "Consider Ishihara plates for confirmation"),
          Recommendation("Patient Counseling", "Discuss occupational implications")]
  }
}
