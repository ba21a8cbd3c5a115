/**
 * The dialog that resolves a raw statement transaction: the account-type
 * lookup behind the amount colour, the type/category/subcategory cascade with
 * its resets, the transfer-target toggle, the Resolve enable rule and the
 * request payload with its optional fields.
 */
module ResolveDialog {
  import opened Wrappers
  import opened Text
  import opened Lookup

  datatype AccountOption = AccountOption(id: string, name: string, productName: Option<string>, accountType: Option<string>)

  /** One entry of the `type-categories` reply; either list may be missing. */
  datatype TypeEntry = TypeEntry(category: Option<seq<string>>, subcategory: Option<seq<string>>)

  function OptionId(a: AccountOption): string {
    a.id
  }

  /**
   * `resolvedAccountType`: the matching account's `accountType` when
   * `accountId` is truthy and that type is a non-empty string, else the
   * `accountType` prop when it is a string, else `''`.
   */
  function ResolvedAccountType(accounts: seq<AccountOption>, accountId: Option<string>, prop: Option<string>): (r: string)
    ensures (accountId.Some? && accountId.value != "" && FindById(accounts, OptionId, accountId.value).Some?
             && FindById(accounts, OptionId, accountId.value).value.accountType.Some?
             && FindById(accounts, OptionId, accountId.value).value.accountType.value != "")
            ==> r == FindById(accounts, OptionId, accountId.value).value.accountType.value
    ensures r == "" || (exists a :: a in accounts && a.accountType == Some(r)) || prop == Some(r)
    ensures r == "" ==> prop.None? || prop == Some("")
    // when no account type wins, the prop (or '') is used
    ensures !(accountId.Some? && accountId.value != "" && FindById(accounts, OptionId, accountId.value).Some?
              && FindById(accounts, OptionId, accountId.value).value.accountType.Some?
              && FindById(accounts, OptionId, accountId.value).value.accountType.value != "")
            ==> r == prop.GetOr("")
  {
    var fromAccounts :=
      if accountId.Some? && accountId.value != "" then
        match FindById(accounts, OptionId, accountId.value)
        case Some(acc) => acc.accountType.GetOr("")
        case None => ""
      else "";
    if fromAccounts == "" && prop.Some? then prop.value else fromAccounts
  }

  datatype Colour = Green | Red

  /** The amount colour: credit cards (any letter case) show charges in red; other accounts show credits in green. */
  function AmountColour(accountType: string, amount: int): (c: Colour)
    ensures ToLower(accountType) != "creditcard" ==> (c == Green <==> amount >= 0)
    ensures ToLower(accountType) == "creditcard" ==> (c == Red <==> amount >= 0)
  {
    if ToLower(accountType) == "creditcard" then
      (if amount >= 0 then Red else Green)
    else
      (if amount >= 0 then Green else Red)
  }

  /** Credit cards use the opposite colour of every other account type, for every amount. */
  lemma CreditCardColourFlipped(other: string, amount: int)
    requires ToLower(other) != "creditcard"
    ensures AmountColour("CreditCard", amount) != AmountColour(other, amount)
  {
  }

  /** The request body of a resolve. */
  datatype Payload = Payload(
    rawTransactionId: string,
    date: string,
    description: string,
    amount: int,
    transactionType: string,
    category: string,
    accountId: string,
    subcategory: Option<string>,
    remarks: Option<string>,
    transferTargetAccountId: Option<string>)

  /** The JSON object keys a payload can carry. */
  datatype Field =
    | RawTransactionIdKey | DateKey | DescriptionKey | AmountKey | TransactionTypeKey | CategoryKey | AccountIdKey
    | SubcategoryKey | RemarksKey | TransferTargetKey

  const BaseKeys: set<Field> :=
    {RawTransactionIdKey, DateKey, DescriptionKey, AmountKey, TransactionTypeKey, CategoryKey, AccountIdKey}

  /** The keys the payload serialises to. */
  function PayloadKeys(p: Payload): set<Field> {
    BaseKeys
      + (if p.subcategory.Some? then {SubcategoryKey} else {})
      + (if p.remarks.Some? then {RemarksKey} else {})
      + (if p.transferTargetAccountId.Some? then {TransferTargetKey} else {})
  }

  /** The payload for the given choices: the seven base fields, and each optional field only when it is set. */
  function PayloadFor(rawTransactionId: string, date: string, description: string, amount: int,
                      selectedType: string, selectedCategory: string, accountId: string,
                      selectedSubcategory: string, remarks: string, transferTarget: string): (p: Payload)
    ensures p.rawTransactionId == rawTransactionId && p.date == date && p.description == description
    ensures p.amount == amount && p.transactionType == selectedType && p.category == selectedCategory
    ensures p.accountId == accountId
    ensures SubcategoryKey in PayloadKeys(p) <==> selectedSubcategory != ""
    ensures RemarksKey in PayloadKeys(p) <==> remarks != ""
    ensures TransferTargetKey in PayloadKeys(p) <==> selectedType == "transfer" && transferTarget != ""
    ensures p.subcategory.Some? ==> p.subcategory.value == selectedSubcategory
    ensures p.remarks.Some? ==> p.remarks.value == remarks
    ensures p.transferTargetAccountId.Some? ==> p.transferTargetAccountId.value == transferTarget
    ensures BaseKeys <= PayloadKeys(p)
  {
    Payload(rawTransactionId, date, description, amount, selectedType, selectedCategory, accountId,
            if selectedSubcategory != "" then Some(selectedSubcategory) else None,
            if remarks != "" then Some(remarks) else None,
            if selectedType == "transfer" && transferTarget != "" then Some(transferTarget) else None)
  }

  /** The payload, built as the source builds it: the base object, then each optional field in turn. */
  method BuildPayload(rawTransactionId: string, date: string, description: string, amount: int,
                      selectedType: string, selectedCategory: string, accountId: string,
                      selectedSubcategory: string, remarks: string, transferTarget: string)
    returns (p: Payload)
    ensures p == PayloadFor(rawTransactionId, date, description, amount, selectedType, selectedCategory,
                            accountId, selectedSubcategory, remarks, transferTarget)
  {
    p := Payload(rawTransactionId, date, description, amount, selectedType, selectedCategory, accountId, None, None, None);
    if selectedSubcategory != "" {
      p := p.(subcategory := Some(selectedSubcategory));
    }
    if remarks != "" {
      p := p.(remarks := Some(remarks));
    }
    if selectedType == "transfer" && transferTarget != "" {
      p := p.(transferTargetAccountId := Some(transferTarget));
    }
  }

  /** Clicking a transfer-target account: the selected one is cleared, any other is selected. */
  function ToggleTarget(current: string, clicked: string): (r: string)
    ensures r == "" || r == clicked
    ensures clicked != "" ==> (r == "" <==> current == clicked)
  {
    if clicked == current then "" else clicked
  }

  /** Two clicks on the same unselected account leave the selection cleared. */
  lemma ToggleTwice(current: string, clicked: string)
    requires clicked != "" && current != clicked
    ensures ToggleTarget(ToggleTarget(current, clicked), clicked) == ""
  {
  }

  const OkMin := 200
  const OkMax := 299

  class Dialog {
    var typeCategories: Option<map<string, TypeEntry>>
    var selectedType: string
    var selectedCategory: string
    var selectedSubcategory: string
    var remarks: string
    var transferTargetAccountId: string
    var submitting: bool

    constructor ()
      ensures typeCategories.None? && !submitting
      ensures selectedType == "" && selectedCategory == "" && selectedSubcategory == ""
      ensures remarks == "" && transferTargetAccountId == ""
    {
      typeCategories := None;
      selectedType, selectedCategory, selectedSubcategory := "", "", "";
      remarks, transferTargetAccountId, submitting := "", "", false;
    }

    /** The categories shown: none until a type is chosen. */
    function Categories(): (r: seq<string>)
      reads this
      ensures selectedType == "" || typeCategories.None? ==> r == []
      ensures typeCategories.Some? && selectedType != "" && selectedType in typeCategories.value ==>
                r == typeCategories.value[selectedType].category.GetOr([])
      ensures typeCategories.Some? && selectedType !in typeCategories.value ==> r == []
    {
      if typeCategories.None? || selectedType == "" then []
      else if selectedType !in typeCategories.value then []
      else typeCategories.value[selectedType].category.GetOr([])
    }

    /** The subcategories shown: none until both a type and a category are chosen; they come from the type's entry. */
    function Subcategories(): (r: seq<string>)
      reads this
      ensures selectedType == "" || selectedCategory == "" || typeCategories.None? ==> r == []
      ensures r != [] ==> typeCategories.Some? && selectedType in typeCategories.value
                          && typeCategories.value[selectedType].subcategory == Some(r)
      ensures typeCategories.Some? && selectedType != "" && selectedCategory != "" && selectedType in typeCategories.value ==>
                r == typeCategories.value[selectedType].subcategory.GetOr([])
    {
      if typeCategories.None? || selectedType == "" || selectedCategory == "" then []
      else if selectedType !in typeCategories.value then []
      else typeCategories.value[selectedType].subcategory.GetOr([])
    }

    /** The Resolve button's enable rule. */
    function CanResolve(): (b: bool)
      reads this
      ensures b <==> selectedType != "" && selectedCategory != "" && (Subcategories() == [] || selectedSubcategory != "")
                     && !submitting
    {
      selectedType != "" && selectedCategory != "" && (|Subcategories()| == 0 || selectedSubcategory != "") && !submitting
    }

    /** Opening the dialog clears every choice and loads the type catalogue (`None` when that fails). */
    method Open(fetched: Option<map<string, TypeEntry>>)
      modifies this
      ensures selectedType == "" && selectedCategory == "" && selectedSubcategory == ""
      ensures remarks == "" && transferTargetAccountId == ""
      ensures typeCategories == fetched && submitting == old(submitting)
      ensures Categories() == [] && Subcategories() == [] && !CanResolve()
    {
      selectedType := "";
      selectedCategory := "";
      selectedSubcategory := "";
      remarks := "";
      transferTargetAccountId := "";
      typeCategories := fetched;
    }

    /** Choosing a type resets category, subcategory and transfer target. */
    method ChooseType(t: string)
      modifies this
      ensures selectedType == t && selectedCategory == "" && selectedSubcategory == "" && transferTargetAccountId == ""
      ensures remarks == old(remarks) && typeCategories == old(typeCategories) && submitting == old(submitting)
      ensures Subcategories() == [] && !CanResolve()
    {
      selectedType := t;
      selectedCategory := "";
      selectedSubcategory := "";
      transferTargetAccountId := "";
    }

    /** Choosing a category resets subcategory and transfer target. */
    method ChooseCategory(c: string)
      modifies this
      ensures selectedCategory == c && selectedSubcategory == "" && transferTargetAccountId == ""
      ensures selectedType == old(selectedType) && remarks == old(remarks)
      ensures typeCategories == old(typeCategories) && submitting == old(submitting)
    {
      selectedCategory := c;
      selectedSubcategory := "";
      transferTargetAccountId := "";
    }

    method ChooseSubcategory(sc: string)
      modifies this`selectedSubcategory
      ensures selectedSubcategory == sc
    {
      selectedSubcategory := sc;
    }

    method SetRemarks(text: string)
      modifies this`remarks
      ensures remarks == text
    {
      remarks := text;
    }

    method ClickTarget(accountId: string)
      modifies this`transferTargetAccountId
      ensures transferTargetAccountId == ToggleTarget(old(transferTargetAccountId), accountId)
    {
      transferTargetAccountId := if accountId == transferTargetAccountId then "" else accountId;
    }

    /**
     * The Resolve click handler. It checks the choices and `accountId` (not
     * `submitting`), sends the payload, and closes the dialog on a 2xx reply.
     */
    method Resolve(rawTransactionId: string, date: string, description: string, amount: int,
                   accountId: Option<string>, status: int)
      returns (payload: Option<Payload>, closed: bool)
      modifies this`submitting
      ensures payload.Some? <==> selectedType != "" && selectedCategory != ""
                                 && (Subcategories() == [] || selectedSubcategory != "")
                                 && accountId.Some? && accountId.value != ""
      ensures payload.None? ==> !closed && submitting == old(submitting)
      ensures payload.Some? ==> !submitting
      ensures payload.Some? ==> payload.value.accountId == accountId.value
                                && payload.value.transactionType == selectedType
                                && payload.value.category == selectedCategory
      ensures closed <==> payload.Some? && OkMin <= status <= OkMax
      // the payload is exactly what the current choices describe
      ensures payload.Some? ==>
                payload.value == PayloadFor(rawTransactionId, date, description, amount, selectedType, selectedCategory,
                                            accountId.value, selectedSubcategory, remarks, transferTargetAccountId)
      // an enabled Resolve button, given an account id, always sends
      ensures old(CanResolve()) && accountId.Some? && accountId.value != "" ==> payload.Some?
    {
      closed := false;
      if selectedType == "" || selectedCategory == "" || (|Subcategories()| > 0 && selectedSubcategory == "")
         || accountId.None? || accountId.value == "" {
        return None, false;
      }
      submitting := true;
      var p := BuildPayload(rawTransactionId, date, description, amount, selectedType, selectedCategory,
                            accountId.value, selectedSubcategory, remarks, transferTargetAccountId);
      payload := Some(p);
      closed := OkMin <= status <= OkMax;
      submitting := false;
    }
  }
}
