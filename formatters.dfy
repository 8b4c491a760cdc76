/**
 * Display helpers: status labels and colours, the cycle colour palette,
 * string truncation with an ellipsis, capitalisation, and the area guard of
 * the productivity formatter. Number formatting itself is locale machinery
 * and is not part of this model.
 */
module Formatters {

  import opened Entities
  import Strings
  import FinancialCalculations

  const FALLBACK_COLOR: string := "#757575"

  /** The badge colour of a stored status text; grey for anything else. */
  function GetStatusColor(status: string): (color: string)
    ensures status !in {"active", "reform", "rotation", "new"} ==> color == FALLBACK_COLOR
    ensures |color| == 7 && color[0] == '#'
  {
    if status == "active" then "#4CAF50"
    else if status == "reform" then "#FF9800"
    else if status == "rotation" then "#2196F3"
    else if status == "new" then "#9C27B0"
    else FALLBACK_COLOR
  }

  /** The Portuguese label of a stored status text; any other text is shown as it is. */
  function GetStatusLabel(status: string): (shown: string)
    ensures status !in {"active", "reform", "rotation", "new"} ==> shown == status
  {
    if status == "active" then "Ativo"
    else if status == "reform" then "Reforma"
    else if status == "rotation" then "Rotação"
    else if status == "new" then "Novo"
    else status
  }

  /** The four statuses get four distinct labels and four distinct non-grey colours. */
  lemma StatusDisplayDistinct(a: PlotStatus, b: PlotStatus)
    ensures a != b ==> GetStatusLabel(StatusName(a)) != GetStatusLabel(StatusName(b))
    ensures a != b ==> GetStatusColor(StatusName(a)) != GetStatusColor(StatusName(b))
    ensures GetStatusColor(StatusName(a)) != FALLBACK_COLOR
  {
  }

  const CYCLE_COLORS: seq<string> := ["#9C27B0", "#4CAF50", "#8BC34A", "#CDDC39", "#FF9800", "#FF5722"]

  /** The palette entry of cycles 0..5; grey for any other cycle (an undefined entry is falsy). */
  function GetCycleColor(cycle: int): (color: string)
    ensures 0 <= cycle < |CYCLE_COLORS| ==> color == CYCLE_COLORS[cycle]
    ensures !(0 <= cycle < |CYCLE_COLORS|) ==> color == FALLBACK_COLOR
  {
    if 0 <= cycle < |CYCLE_COLORS| && CYCLE_COLORS[cycle] != "" then CYCLE_COLORS[cycle] else FALLBACK_COLOR
  }

  /** The productivity shown for a harvest: tonnage per hectare, or 0 when the area is not positive. */
  function DisplayedProductivity(tonnage: real, area: real): (r: real)
    ensures area > 0.0 ==> r * area == tonnage
    ensures area <= 0.0 ==> r == 0.0
  {
    FinancialCalculations.PerHectare(tonnage, area)
  }

  /** `substring(0, end)`: a negative end counts as 0, an end past the text as its length. */
  function Substring(s: string, end: int): (r: string)
    ensures |r| == if end < 0 then 0 else if end > |s| then |s| else end
    ensures r == s[..|r|]
  {
    if end < 0 then "" else if end > |s| then s else s[..end]
  }

  /** The text itself when it fits, otherwise its first `maxLength - 3` characters and "...". */
  function TruncateString(s: string, maxLength: int): (r: string)
    ensures |s| <= maxLength ==> r == s
    ensures |s| > maxLength ==> 3 <= |r| <= |s| + 3 && r == s[..|r| - 3] + "..."
    ensures |s| > maxLength && maxLength >= 3 ==> |r| == maxLength
    ensures |s| > maxLength && maxLength < 3 ==> r == "..."
  {
    if |s| <= maxLength then s else Substring(s, maxLength - 3) + "..."
  }

  /** Truncating a truncated text again (with room for the ellipsis) changes nothing. */
  lemma TruncateIdempotent(s: string, maxLength: int)
    requires maxLength >= 3
    ensures TruncateString(TruncateString(s, maxLength), maxLength) == TruncateString(s, maxLength)
  {
  }

  /** The first character upper-cased and the rest lower-cased. */
  function CapitalizeFirstLetter(s: string): (r: string)
    ensures |r| == |s|
    ensures |s| > 0 ==> r[0] == Strings.UpperChar(s[0])
    ensures forall i :: 1 <= i < |s| ==> r[i] == Strings.LowerChar(s[i])
  {
    Strings.Upper(s[..if |s| == 0 then 0 else 1]) + Strings.Lower(if |s| == 0 then "" else s[1..])
  }

  lemma UpperLowerFixed(c: char)
    ensures Strings.UpperChar(Strings.UpperChar(c)) == Strings.UpperChar(c)
    ensures Strings.LowerChar(Strings.LowerChar(c)) == Strings.LowerChar(c)
  {
  }

  /** Capitalising twice is capitalising once. */
  lemma CapitalizeIdempotent(s: string)
    ensures CapitalizeFirstLetter(CapitalizeFirstLetter(s)) == CapitalizeFirstLetter(s)
  {
    var once := CapitalizeFirstLetter(s);
    var twice := CapitalizeFirstLetter(once);
    forall i | 0 <= i < |s| ensures twice[i] == once[i] {
      UpperLowerFixed(s[i]);
    }
  }
}
