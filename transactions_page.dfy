/**
 * The transaction ledger: page-number pagination over a server-side total,
 * normalisation of the list response, and the per-cell display rules for the
 * amount sign, the transaction type and the optional text columns.
 */
module TransactionsPage {
  import opened Wrappers
  import opened Text

  datatype Transaction = Transaction(
    transactionId: string,
    date: string,
    description: string,
    amount: int,
    transactionType: Option<string>,
    category: string,
    subcategory: Option<string>,
    remarks: Option<string>)

  const PageSize: int := 15

  /** `Math.ceil(total / pageSize)`; Dafny's `/` floors for a positive divisor. */
  function TotalPages(total: int): (n: int)
    ensures (n - 1) * PageSize < total <= n * PageSize
    ensures total == 0 ==> n == 0
  {
    -((-total) / PageSize)
  }

  /** The page count in the footer: `totalPages || 1`. */
  function DisplayedPageCount(total: int): (n: int)
    ensures n != 0
    ensures TotalPages(total) != 0 ==> n == TotalPages(total)
    ensures total >= 0 ==> n >= 1
    ensures TotalPages(total) == 0 ==> n == 1
  {
    var t := TotalPages(total);
    if t == 0 then 1 else t
  }

  function Max(a: int, b: int): int {
    if a >= b then a else b
  }

  /** The list response: `json.data || []` and `json.total || 0`. */
  function NormalizeResponse(data: Option<seq<Transaction>>, total: Option<int>): (r: (seq<Transaction>, int))
    ensures r.0 == data.GetOr([]) && r.1 == total.GetOr(0)
    ensures data.None? ==> r.0 == []
    ensures total.None? ==> r.1 == 0
  {
    (data.GetOr([]), total.GetOr(0))
  }

  /** The amount cell: a negative amount gets `"- "` before its magnitude. */
  function AmountText(amount: int): (r: string)
    ensures amount < 0 ==> |r| > 2 && r[..2] == "- " && JsNumber(r[2..]) == Some(-amount)
    ensures amount >= 0 ==> JsNumber(r) == Some(amount)
    ensures (|r| >= 2 && r[..2] == "- ") <==> amount < 0
  {
    ReadBackNatToString(if amount < 0 then -amount else amount);
    if amount < 0 then "- " + NatToString(-amount) else NatToString(amount)
  }

  datatype TypeCell = Income | Expense | Transfer | Dash

  /** The type cell: matched case-insensitively; anything else, or nothing, is `"-"`. */
  function TypeOf(transactionType: Option<string>): (c: TypeCell)
    ensures c == Income <==> transactionType.Some? && ToLower(transactionType.value) == "income"
    ensures c == Expense <==> transactionType.Some? && ToLower(transactionType.value) == "expense"
    ensures c == Transfer <==> transactionType.Some? && ToLower(transactionType.value) == "transfer"
  {
    var v := ToLower(transactionType.GetOr(""));
    if v == "income" then Income
    else if v == "expense" then Expense
    else if v == "transfer" then Transfer
    else Dash
  }

  /** Classification ignores letter case. */
  lemma TypeOfIgnoresCase(t: string)
    ensures TypeOf(Some(t)) == TypeOf(Some(ToLower(t)))
  {
  }

  /** `value || "-"` for the subcategory and remarks cells. */
  function OrDash(v: Option<string>): (r: string)
    ensures r != ""
    ensures r == "-" || v == Some(r)
    ensures v.Some? && v.value != "" ==> r == v.value
  {
    if v.Some? && v.value != "" then v.value else "-"
  }

  class Ledger {
    var page: int
    var total: int
    var rows: seq<Transaction>

    /** Previous is enabled iff the page before is still a page (pages start at 1). */
    function CanPrev(): (b: bool)
      reads this
      ensures b <==> page - 1 >= 1
    {
      page > 1
    }

    /** Next is enabled iff some transaction lies beyond the rows of the current page. */
    function CanNext(): (b: bool)
      reads this
      ensures b <==> page * PageSize < total
    {
      page < TotalPages(total)
    }

    /** For a fixed total, the page stays between 1 and the displayed page count. */
    predicate InRange()
      reads this
    {
      1 <= page <= Max(1, TotalPages(total))
    }

    constructor ()
      ensures page == 1 && total == 0 && rows == []
      ensures InRange() && !CanPrev() && !CanNext()
    {
      page, total, rows := 1, 0, [];
    }

    /** The Previous button: one page back, and nothing when it is disabled. */
    method Prev()
      modifies this`page
      ensures page == if old(CanPrev()) then old(page) - 1 else old(page)
      ensures old(InRange()) ==> InRange()
    {
      if CanPrev() {
        page := page - 1;
      }
    }

    /** The Next button: one page on, and nothing when it is disabled. */
    method Next()
      modifies this`page
      ensures page == if old(CanNext()) then old(page) + 1 else old(page)
      ensures old(InRange()) ==> InRange()
    {
      if CanNext() {
        page := page + 1;
      }
    }

    /** A 2xx list response; any other outcome leaves the table as it was. */
    method Loaded(ok: bool, data: Option<seq<Transaction>>, newTotal: Option<int>)
      modifies this`rows, this`total
      ensures ok ==> (rows, total) == NormalizeResponse(data, newTotal)
      ensures !ok ==> rows == old(rows) && total == old(total)
    {
      if ok {
        rows := data.GetOr([]);
        total := newTotal.GetOr(0);
      }
    }
  }
}
