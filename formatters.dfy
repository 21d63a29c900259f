/** The small display helpers: month names, text truncation and the guard in front of
    currency formatting. */
module Formatters {
  import opened Common

  /** Month names, January first. */
  const MonthNames: seq<string> := [
    "Janeiro", "Fevereiro", "Março", "Abril", "Maio", "Junho",
    "Julho", "Agosto", "Setembro", "Outubro", "Novembro", "Dezembro"
  ]

  /** `months[month - 1] || ''`: the name of a month 1 to 12, and the empty string for
      any other number. */
  function GetMonthName(month: int): (name: string)
    ensures 1 <= month <= 12 <==> name != ""
    ensures 1 <= month <= 12 ==> name == MonthNames[month - 1]
  {
    if 1 <= month <= 12 then MonthNames[month - 1] else ""
  }

  /** The names of the first and last months and of the month with a cedilla. */
  lemma MonthNameExamples()
    ensures GetMonthName(1) == "Janeiro" && GetMonthName(3) == "Março" && GetMonthName(12) == "Dezembro"
    ensures GetMonthName(0) == "" && GetMonthName(13) == ""
  {
  }

  /** Distinct months have distinct names. */
  lemma {:induction false} MonthNamesDistinct(a: int, b: int)
    requires 1 <= a <= 12 && 1 <= b <= 12 && a != b
    ensures GetMonthName(a) != GetMonthName(b)
  {
    var x, y := GetMonthName(a), GetMonthName(b);
    if |x| == |y| {
      assert x[0] != y[0] || x[1] != y[1] || x[2] != y[2] || x[3] != y[3];
    }
  }

  /** The `maxLength` used when none is given. */
  const DefaultMaxLength: int := 50

  /** `truncateText(text, maxLength)`: empty for a missing or empty text, the text itself
      when it fits, otherwise its first `maxLength` characters (none when negative)
      followed by an ellipsis. */
  function TruncateText(text: Option<string>, maxLength: int): (r: string)
    ensures text.None? || text.value == "" ==> r == ""
    ensures text.Some? && text.value != "" && |text.value| <= maxLength ==> r == text.value
    ensures text.Some? && text.value != "" && |text.value| > maxLength ==>
      |r| == MaxInt(maxLength, 0) + 3 && r[..|r| - 3] == text.value[..MaxInt(maxLength, 0)]
      && r[|r| - 3..] == "..."
  {
    match text
    case None => ""
    case Some(t) =>
      if t == "" then ""
      else if |t| <= maxLength then t
      else t[..MaxInt(maxLength, 0)] + "..."
  }

  function MaxInt(a: int, b: int): int {
    if a >= b then a else b
  }

  /** With the default length, a truncated text is 53 characters long and begins with the
      first 50 of the original. */
  lemma DefaultTruncation(t: string)
    requires |t| > DefaultMaxLength
    ensures |TruncateText(Some(t), DefaultMaxLength)| == 53
    ensures TruncateText(Some(t), DefaultMaxLength)[..50] == t[..50]
  {
  }

  /** Truncation never lengthens a text by more than the ellipsis, and keeps a
      text that fits. */
  lemma TruncationBound(t: string, maxLength: int)
    requires maxLength >= 0
    ensures |TruncateText(Some(t), maxLength)| <= maxLength + 3
    ensures |TruncateText(Some(t), maxLength)| <= |t|
            || |TruncateText(Some(t), maxLength)| == maxLength + 3
  {
  }

  /** The text shown for a missing or not-a-number amount. */
  const ZeroCurrency: string := "R$ 0,00"

  /** `formatCurrency`: the real formatting is the locale's (`format`); a missing or
      not-a-number value (`None`) never reaches it. */
  function FormatCurrency(value: Option<real>, format: real -> string): (r: string)
    ensures value.None? ==> r == ZeroCurrency
    ensures value.Some? ==> r == format(value.value)
  {
    match value
    case None => ZeroCurrency
    case Some(v) => format(v)
  }
}
