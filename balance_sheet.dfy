/**
 * The balance-sheet page: the `YYYY-MM-DD` key of the chosen date, the fetch
 * effect (no request without a date, no request without a token), the
 * `netWorth` normalisation, and the liabilities-ledger section.
 */
module BalanceSheet {
  import opened Wrappers
  import opened Text

  /** A calendar date as the page reads it: full year, month index 0-11, day of month. */
  datatype CalendarDate = CalendarDate(year: nat, monthIndex: nat, day: nat)

  /** `String(n).padStart(2, '0')`. */
  function TwoDigits(n: nat): (r: string)
    ensures n < 100 ==> |r| == 2 && AllDigits(r) && JsNumber(r) == Some(n)
    ensures n >= 100 ==> r == NatToString(n)
  {
    var s := NatToString(n);
    var r := PadStart(s, 2, '0');
    assert n < 100 ==> |r| == 2 && AllDigits(r) && JsNumber(r) == Some(n) by {
      if n < 10 {
        assert s == [DigitChar(n)];
        assert r == "0" + s;
        assert r[..|r| - 1] == "0";
        assert DigitsValue("0") == 0 by { assert "0"[..0] == []; }
        DigitValueOfDigitChar(n);
        assert DigitsValue(r) == n;
      } else if n < 100 {
        ReadBackNatToString(n);
        assert |NatToString(n / 10)| == 1;
      }
    }
    r
  }

  /** `asOnDate`: year, month number and day joined with `-`. */
  function DateKey(d: CalendarDate): (k: string)
    ensures k == NatToString(d.year) + "-" + TwoDigits(d.monthIndex + 1) + "-" + TwoDigits(d.day)
  {
    var y, m, dd := NatToString(d.year), TwoDigits(d.monthIndex + 1), TwoDigits(d.day);
    JoinThree(y, m, dd, "-");
    Join([y, m, dd], "-")
  }

  /** The key splits back into the year, the month number and the day. */
  lemma DateKeyFields(d: CalendarDate)
    requires d.monthIndex < 12 && 1 <= d.day <= 31
    ensures var k := DateKey(d); var n := |k|;
            && n == |NatToString(d.year)| + 6
            && k[n - 6] == '-' && k[n - 3] == '-'
            && JsNumber(k[..n - 6]) == Some(d.year)
            && JsNumber(k[n - 5..n - 3]) == Some(d.monthIndex + 1)
            && JsNumber(k[n - 2..]) == Some(d.day)
  {
    var y, m, dd := NatToString(d.year), TwoDigits(d.monthIndex + 1), TwoDigits(d.day);
    assert |m| == 2 && JsNumber(m) == Some(d.monthIndex + 1);
    assert |dd| == 2 && JsNumber(dd) == Some(d.day);
    ReadBackNatToString(d.year);
    var k := y + "-" + m + "-" + dd;
    assert k == DateKey(d);
    var n := |y| + 6;
    assert |k| == n;
    assert k[..n - 6] == y;
    assert k[n - 5..n - 3] == m;
    assert k[n - 2..] == dd;
  }

  /** The `netWorth` field of the reply, as JSON. */
  datatype JsonValue = JNumber(n: int) | JString(s: string) | JBool(b: bool) | JNull | JAbsent

  /** `typeof data.netWorth === 'number' ? data.netWorth : null`. */
  function NormalizeNetWorth(v: JsonValue): (r: Option<int>)
    ensures r.Some? <==> v.JNumber?
    ensures r.Some? ==> r.value == v.n
  {
    match v
    case JNumber(n) => Some(n)
    case _ => None
  }

  datatype AccountBalance = AccountBalance(accountId: string, accountName: string, balanceAmount: int)

  datatype SheetData = SheetData(
    savings: seq<AccountBalance>,
    investments: seq<AccountBalance>,
    assetLedgers: seq<AccountBalance>,
    assetsWorth: int,
    creditCards: seq<AccountBalance>,
    liabilityLedgers: Option<seq<AccountBalance>>,
    liabilitiesWorth: int)

  datatype Row = DashRow | AccountRow(account: AccountBalance)

  /** The rows of a list: one `"-"` row when it is empty. */
  function Rows(accounts: seq<AccountBalance>): (r: seq<Row>)
    ensures |r| == if accounts == [] then 1 else |accounts|
    ensures accounts == [] ==> r == [DashRow]
    ensures accounts != [] ==> forall i :: 0 <= i < |r| ==> r[i] == AccountRow(accounts[i])
  {
    if accounts == [] then [DashRow] else seq(|accounts|, i requires 0 <= i < |accounts| => AccountRow(accounts[i]))
  }

  /** The liabilities-ledger section appears only when the field is an array. */
  function LiabilityLedgerSection(sheet: SheetData): (r: Option<seq<Row>>)
    ensures r.Some? <==> sheet.liabilityLedgers.Some?
    ensures r.Some? ==> r.value == Rows(sheet.liabilityLedgers.value)
  {
    match sheet.liabilityLedgers
    case Some(ls) => Some(Rows(ls))
    case None => None
  }

  /**
   * The balance-sheet reply: a 2xx status with a body, another status, or a
   * rejection with its error's `message` (a thrown value that is not an
   * `Error` has none: the empty message).
   */
  datatype Reply = Ok(sheet: Option<SheetData>, netWorth: JsonValue) | Status(code: nat) | Rejected(message: string)

  const DefaultFailure := "Failed to fetch balance sheet"

  /** The message a failed request shows: `err.message || "Failed to fetch balance sheet"`. */
  function FailureMessage(reply: Reply): (msg: string)
    requires !reply.Ok?
    ensures msg != ""
    ensures reply.Status? ==> msg == "API error: " + NatToString(reply.code)
    ensures reply.Rejected? && reply.message != "" ==> msg == reply.message
    ensures reply.Rejected? && reply.message == "" ==> msg == DefaultFailure
  {
    match reply
    case Status(code) => "API error: " + NatToString(code)
    case Rejected(message) => if message != "" then message else DefaultFailure
  }

  class View {
    var loading: bool
    var error: Option<string>
    var balanceSheet: Option<SheetData>
    var netWorth: Option<int>

    constructor ()
      ensures !loading && error.None? && balanceSheet.None? && netWorth.None?
    {
      loading, error, balanceSheet, netWorth := false, None, None, None;
    }

    /**
     * The fetch effect for one `date`. Returns the `asOnDate` requested (none
     * when no request was made) and the message shown on failure.
     */
    method Refresh(date: Option<CalendarDate>, token: Option<string>, reply: Reply)
      returns (requested: Option<string>, failure: Option<string>)
      modifies this
      ensures date.None? ==> requested.None? && failure.None?
                             && loading == old(loading) && error == old(error)
                             && balanceSheet == old(balanceSheet) && netWorth == old(netWorth)
      ensures date.Some? ==> !loading && error.None?
      ensures date.Some? && (token.None? || token.value == "") ==>
                requested.None? && failure == Some("Not authenticated")
                && balanceSheet.None? && netWorth == old(netWorth)
      ensures requested.Some? <==> date.Some? && token.Some? && token.value != ""
      ensures requested.Some? ==> requested.value == DateKey(date.value)
      ensures requested.Some? && reply.Ok? ==>
                failure.None? && balanceSheet == reply.sheet && netWorth == NormalizeNetWorth(reply.netWorth)
      // a request that fails reports it, drops the sheet and keeps the last net worth
      ensures requested.Some? && !reply.Ok? ==>
                failure == Some(FailureMessage(reply)) && balanceSheet.None? && netWorth == old(netWorth)
      // any failure drops the sheet but keeps the last net worth
      ensures failure.Some? ==> balanceSheet.None? && netWorth == old(netWorth)
    {
      requested, failure := None, None;
      if date.None? {
        return;
      }
      loading := true;
      error := None;
      if token.None? || token.value == "" {
        failure := Some("Not authenticated");
        balanceSheet := None;
      } else {
        var asOnDate := DateKey(date.value);
        requested := Some(asOnDate);
        match reply {
          case Ok(sheet, worth) =>
            balanceSheet := sheet;
            netWorth := NormalizeNetWorth(worth);
          case Status(_) =>
            failure := Some(FailureMessage(reply));
            balanceSheet := None;
          case Rejected(_) =>
            failure := Some(FailureMessage(reply));
            balanceSheet := None;
        }
      }
      loading := false;
    }
  }
}
