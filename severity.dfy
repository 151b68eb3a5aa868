/**
 * The severity conversions of `web/src/utils/severity.js`: a severity name,
 * in any case and with surrounding blanks, to the level 1 (most severe) to
 * 5 shown on the pages, and a level back to the name the API takes.
 */
module Severity {
  import opened Wrappers
  import opened Text
  import opened Values

  /** The names `severityToNumber` knows, lower-cased; "critical" is an alias of "fatal". */
  const NameLevels: map<string, nat> :=
    map["fatal" := 1, "critical" := 1, "high" := 2, "medium" := 3, "low" := 4, "tips" := 5]

  /** The name `numberToSeverity` gives each level. */
  const LevelNames: map<int, string> :=
    map[1 := "Fatal", 2 := "High", 3 := "Medium", 4 := "Low", 5 := "Tips"]

  /** `String(severity).toLowerCase().trim()`. */
  function SeverityKey(severity: Value): string {
    Strip(Lower(JsString(severity)))
  }

  /** `severityToNumber(severity)`: the level of a known name, nothing for a falsy or unknown value. */
  function SeverityToNumber(severity: Value): (level: Option<nat>)
    ensures level.Some? <==> JsTruthy(severity) && SeverityKey(severity) in NameLevels
    ensures level.Some? ==> 1 <= level.value <= 5 && level.value == NameLevels[SeverityKey(severity)]
  {
    if !JsTruthy(severity) then None
    else
      var key := SeverityKey(severity);
      if key in NameLevels then Some(NameLevels[key]) else None
  }

  /** `numberToSeverity(level)`: the name of a level from 1 to 5, nothing for any other value. */
  function NumberToSeverity(level: Value): (name: Option<string>)
    ensures name.Some? <==> level.Int? && 1 <= level.i <= 5
  {
    if level.Int? && 1 <= level.i <= 5 then Some(LevelNames[level.i]) else None
  }

  /** Every level's name converts back to that level. */
  lemma LevelRoundTrip(level: int)
    requires 1 <= level <= 5
    ensures NumberToSeverity(Int(level)).Some?
    ensures SeverityToNumber(Str(NumberToSeverity(Int(level)).value)) == Some(level as nat)
  {
    var name := LevelNames[level];
    var lowered := LoweredName(level);
    StripOfStripped(lowered);
    var key := SeverityKey(Str(name));
    assert key == lowered;
    assert JsTruthy(Str(name));
    assert SeverityToNumber(Str(name)) == Some(NameLevels[key]);
  }

  /** The lower-cased name of each level, as `severityToNumber` looks it up. */
  lemma LoweredName(level: int) returns (lowered: string)
    requires 1 <= level <= 5
    ensures lowered == Lower(LevelNames[level])
    ensures lowered in NameLevels && NameLevels[lowered] == level && IsStripped(lowered)
    ensures |LevelNames[level]| == |lowered| > 0
  {
    lowered := Lower(LevelNames[level]);
    if level == 1 {
      assert lowered[0] == 'f' && lowered[1] == 'a' && lowered[2] == 't' && lowered[3] == 'a' && lowered[4] == 'l';
      assert lowered == "fatal";
    } else if level == 2 {
      assert lowered[0] == 'h' && lowered[1] == 'i' && lowered[2] == 'g' && lowered[3] == 'h';
      assert lowered == "high";
    } else if level == 3 {
      assert lowered[0] == 'm' && lowered[1] == 'e' && lowered[2] == 'd' && lowered[3] == 'i' && lowered[4] == 'u' && lowered[5] == 'm';
      assert lowered == "medium";
    } else if level == 4 {
      assert lowered[0] == 'l' && lowered[1] == 'o' && lowered[2] == 'w';
      assert lowered == "low";
    } else {
      assert lowered[0] == 't' && lowered[1] == 'i' && lowered[2] == 'p' && lowered[3] == 's';
      assert lowered == "tips";
    }
  }

  /**
   * A name read as a level and written back gives the canonical name of
   * that level, which reads as the same level: "critical" comes back as
   * "Fatal", "HIGH " as "High".
   */
  lemma NameRoundTrip(severity: Value)
    requires SeverityToNumber(severity).Some?
    ensures var level := SeverityToNumber(severity).value;
            && NumberToSeverity(Int(level)).Some?
            && SeverityToNumber(Str(NumberToSeverity(Int(level)).value)) == Some(level)
  {
    LevelRoundTrip(SeverityToNumber(severity).value);
  }

  /** Lower-casing a severity name does not change its level. */
  lemma CaseInsensitive(s: string)
    ensures SeverityToNumber(Str(Lower(s))) == SeverityToNumber(Str(s))
  {
    assert Lower(Lower(s)) == Lower(s);
  }
}
