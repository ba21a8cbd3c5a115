/**
 * The date picker of the balance-sheet page: the English ordinal suffix of the
 * day, the button label, and the selection handler that closes the popover.
 */
module Calendar {
  import opened Wrappers
  import opened Text

  /** `getOrdinal(n)`: 4 to 20 take "th"; otherwise the last digit (JavaScript `%`) decides. */
  function Ordinal(n: int): (r: string)
    ensures r in {"st", "nd", "rd", "th"}
    ensures 3 < n < 21 ==> r == "th"
    ensures n < 0 ==> r == "th"
  {
    if n > 3 && n < 21 then "th"
    else
      var last := JsRem(n, 10);
      if last == 1 then "st"
      else if last == 2 then "nd"
      else if last == 3 then "rd"
      else "th"
  }

  /** The suffix English gives a day of the month, listed day by day. */
  function EnglishSuffix(day: int): string {
    if day in {1, 21, 31} then "st"
    else if day in {2, 22} then "nd"
    else if day in {3, 23} then "rd"
    else "th"
  }

  /** For every day of a month, the rule agrees with the English list. */
  lemma OrdinalOfDays(day: int)
    requires 1 <= day <= 31
    ensures Ordinal(day) == EnglishSuffix(day)
  {
  }

  /** The month name comes from the locale and is an input here. */
  datatype PickedDate = PickedDate(day: nat, monthName: string, year: nat)

  /** The button label: `"<day><suffix> <month>, <year>"`, or `"Select date"` with no date. */
  function Label(date: Option<PickedDate>): (r: string)
    ensures date.None? ==> r == "Select date"
    ensures date.Some? ==>
              var d := date.value; var day := NatToString(d.day);
              && |r| >= |day| + 3 + |NatToString(d.year)|
              && r[..|day|] == day
              && r[|day|..|day| + 2] == Ordinal(d.day)
              && r[|day| + 2] == ' '
              && r[|r| - |NatToString(d.year)|..] == NatToString(d.year)
    ensures date.Some? ==>
              r == NatToString(date.value.day) + Ordinal(date.value.day) + " " + date.value.monthName + ", "
                   + NatToString(date.value.year)
  {
    match date
    case None => "Select date"
    case Some(d) =>
      NatToString(d.day) + Ordinal(d.day) + " " + d.monthName + ", " + NatToString(d.year)
  }

  class Picker {
    var open: bool

    constructor ()
      ensures !open
    {
      open := false;
    }

    method Toggle(wanted: bool)
      modifies this
      ensures open == wanted
    {
      open := wanted;
    }

    /** Choosing a day hands it to `onDateChange` and closes the popover. */
    method Select(date: Option<PickedDate>) returns (changedTo: Option<PickedDate>)
      modifies this
      ensures changedTo == date && !open
    {
      changedTo := date;
      open := false;
    }
  }
}
