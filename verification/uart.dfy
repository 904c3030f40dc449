/**
 * The cushion's telemetry line and what the monitor makes of it.
 *
 * A notification from the cushion's receive (Rx) characteristic carries one
 * ASCII line `T=<temp> W=<weight>`.  The line is split on spaces, the
 * `T=` / `W=` prefixes are deleted (case-insensitively, everywhere in the
 * token), the weight decides whether a baby is in the seat, and the
 * temperature, after the app's own conversion, decides the heat alert.
 */
module Uart {
  import opened Wrappers
  import opened SwiftText
  import opened Temperature

  /** Weight readings below this many sensor units mean a baby is in the seat. */
  const WeightThreshold: int := 3000

  /** The temperature and weight texts cut out of one payload line. */
  datatype Fields = Fields(temp: string, weight: string)

  /** The result of Swift code that may stop the app at run time. */
  datatype Outcome<T> = Returned(value: T) | Trapped

  /**
   * The split exactly as written: the empty line gives `notConnected` and
   * "No"; otherwise token 1 is read without a bounds check, so a line
   * without a space stops the app.
   */
  function SplitPayloadAsWritten(line: string, notConnected: string): Outcome<Fields> {
    if line == "" then Returned(Fields(notConnected, "No"))
    else
      var tokens := Components(line, ' ');
      if |tokens| < 2 then Trapped
      else Returned(Fields(RemoveMatches(tokens[0], 'T'), RemoveMatches(tokens[1], 'W')))
  }

  /** A line holding only a temperature stops the app. */
  lemma OneTokenPayloadTraps(notConnected: string)
    ensures SplitPayloadAsWritten("T=25", notConnected) == Trapped
  {
    ComponentsOfUnseparated("T=25", ' ');
  }

  /**
   * The split the monitor uses: as written, except that a missing weight
   * token reads as the empty text (so no baby is detected) instead of
   * stopping the app.  It agrees with the written split wherever that one
   * returns.
   */
  function SplitPayload(line: string, notConnected: string): (f: Fields)
    ensures SplitPayloadAsWritten(line, notConnected).Returned? ==>
      f == SplitPayloadAsWritten(line, notConnected).value
    ensures line == "" ==> f == Fields(notConnected, "No")
  {
    if line == "" then Fields(notConnected, "No")
    else
      var tokens := Components(line, ' ');
      var weightToken := if |tokens| >= 2 then tokens[1] else "";
      Fields(RemoveMatches(tokens[0], 'T'), RemoveMatches(weightToken, 'W'))
  }

  /** The corrected split reads a temperature-only line as "no weight". */
  lemma OneTokenPayloadCorrected(notConnected: string)
    ensures SplitPayload("T=25", notConnected) == Fields("25", "")
    ensures !BabyInSeat(SplitPayload("T=25", notConnected).weight)
  {
    ComponentsOfUnseparated("T=25", ' ');
    assert MatchesPrefix("T=25", 'T');
    assert "T=25"[2..] == "25";
    RemoveMatchesNoMatch("25", 'T');
  }

  /** The line the cushion sends for a temperature text and a weight text. */
  function EncodePayload(temp: string, weight: string): string {
    "T=" + temp + " W=" + weight
  }

  /** Splitting recovers both texts from a well-formed line. */
  lemma SplitEncoded(temp: string, weight: string, notConnected: string)
    requires ' ' !in temp && ' ' !in weight
    requires NoMatch(temp, 'T') && NoMatch(weight, 'W')
    ensures SplitPayload(EncodePayload(temp, weight), notConnected) == Fields(temp, weight)
  {
    var a := "T=" + temp;
    var b := "W=" + weight;
    assert EncodePayload(temp, weight) == a + [' '] + b;
    assert ' ' !in a by {
      forall i | 0 <= i < |a| ensures a[i] != ' ' {
        if i >= 2 { assert a[i] == temp[i - 2]; }
      }
    }
    assert ' ' !in b by {
      forall i | 0 <= i < |b| ensures b[i] != ' ' {
        if i >= 2 { assert b[i] == weight[i - 2]; }
      }
    }
    ComponentsAfterFirstSeparator(a, b, ' ');
    ComponentsOfUnseparated(b, ' ');
    assert MatchesPrefix(a, 'T') && a[2..] == temp;
    assert MatchesPrefix(b, 'W') && b[2..] == weight;
    RemoveMatchesNoMatch(temp, 'T');
    RemoveMatchesNoMatch(weight, 'W');
  }

  /** `if let weight = Int(text), weight < 3000`. */
  predicate BabyInSeat(weight: string) {
    match ParseInt(weight)
    case Some(w) => w < WeightThreshold
    case None => false
  }

  /** For every integer weight the seat is occupied exactly below 3000; 3000 itself is empty. */
  lemma BabyInSeatThreshold(w: int)
    requires InIntRange(w)
    ensures BabyInSeat(IntToString(w)) <==> w < WeightThreshold
  {
    ParseIntToString(w);
  }

  /** What one payload line produces: the two label texts, the seat flag and the alert decision. */
  datatype Reading = Reading(tempText: string, weightText: string, babyInSeat: bool, heatAlert: bool)

  /**
   * The rest of the update handler, given the split texts: the
   * temperature goes through the app's conversion `convert`; it is shown
   * (with the unit applied) only when the split did not give "invalid" and
   * the sensor is enabled; the heat alert fires iff the converted text is an
   * `Int` above `maxTemp`, the baby is in the seat and the sensor is enabled.
   */
  function Assess(fields: Fields, convert: string -> string, fahrenheit: bool, tempEnabled: bool,
                  maxTemp: int, notConnected: string): (r: Reading)
    ensures r.babyInSeat <==> BabyInSeat(fields.weight)
    ensures r.weightText == (if r.babyInSeat then "Yes" else "No")
    ensures r.heatAlert <==>
      && ParseInt(convert(fields.temp)).Some?
      && ParseInt(convert(fields.temp)).value > maxTemp
      && r.babyInSeat
      && tempEnabled
    ensures !tempEnabled ==> r.tempText == notConnected && !r.heatAlert
    // with the sensor enabled, "invalid" shows the not-connected text; anything else shows the
    // converted reading in the chosen unit: `˚F` appended, or converted on to Celsius
    ensures tempEnabled && fields.temp == "invalid" ==> r.tempText == notConnected
    ensures tempEnabled && fields.temp != "invalid" && fahrenheit ==>
      r.tempText == convert(fields.temp) + [DegreeRing, 'F']
    ensures tempEnabled && fields.temp != "invalid" && !fahrenheit ==>
      r.tempText == FahrenheitToCelsius(convert(fields.temp))
    ensures !r.babyInSeat ==> !r.heatAlert
  {
    var converted := convert(fields.temp);
    var tempText :=
      if fields.temp != "invalid" && tempEnabled then
        (if fahrenheit then converted + [DegreeRing, 'F'] else FahrenheitToCelsius(converted))
      else notConnected;
    var inSeat := BabyInSeat(fields.weight);
    var heat := match ParseInt(converted)
      case Some(t) => t > maxTemp && inSeat && tempEnabled
      case None => false;
    Reading(tempText, if inSeat then "Yes" else "No", inSeat, heat)
  }

  /**
   * End to end for a well-formed line with integer readings: the seat flag
   * is the weight threshold and the heat alert is the rule, whenever the
   * app's conversion turns the temperature `t` into the Fahrenheit `f`.
   */
  lemma AssessEncoded(t: int, w: int, f: int, convert: string -> string, fahrenheit: bool,
                      tempEnabled: bool, maxTemp: int, notConnected: string)
    requires InIntRange(w) && InIntRange(f)
    requires convert(IntToString(t)) == IntToString(f)
    ensures var r := Assess(SplitPayload(EncodePayload(IntToString(t), IntToString(w)), notConnected),
                            convert, fahrenheit, tempEnabled, maxTemp, notConnected);
      && (r.babyInSeat <==> w < WeightThreshold)
      && (r.heatAlert <==> f > maxTemp && w < WeightThreshold && tempEnabled)
  {
    IntToStringPlain(t, 'T');
    IntToStringPlain(w, 'W');
    SplitEncoded(IntToString(t), IntToString(w), notConnected);
    BabyInSeatThreshold(w);
    ParseIntToString(f);
  }
}
