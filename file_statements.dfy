/**
 * The statement-file page: which accounts can take uploads, the file-type
 * check and `accept` string of the upload form, the upload submit with its
 * per-account cache invalidation, the per-tab file lists, the file
 * reselection after a transaction is resolved, and the ticket icon.
 */
module FileStatements {
  import opened Wrappers
  import opened Text
  import opened Lookup

  datatype Account = Account(
    id: string,
    name: string,
    accountType: string,
    isStatementExtracted: Option<bool>,
    fileFormatsAllowed: Option<seq<string>>)

  datatype RawFile = RawFile(
    fileKey: string,
    uploadedFileName: string,
    resolvedTransactionsCount: Option<int>,
    totalTransactionsCount: Option<int>)

  datatype RawTransaction = RawTransaction(rawTransactionId: string, description: string, amount: int, status: string)

  /** `a.isStatementExtracted` is truthy. */
  predicate Extracted(a: Account) {
    a.isStatementExtracted == Some(true)
  }

  /** `accounts.filter(a => a.isStatementExtracted)`. */
  function Uploadable(accounts: seq<Account>): (r: seq<Account>)
    ensures |r| <= |accounts|
    ensures forall a :: a in r <==> a in accounts && Extracted(a)
  {
    if accounts == [] then []
    else (if Extracted(accounts[0]) then [accounts[0]] else []) + Uploadable(accounts[1..])
  }

  /** The filter keeps the original order: it distributes over concatenation. */
  lemma {:induction false} UploadableAppend(xs: seq<Account>, ys: seq<Account>)
    ensures Uploadable(xs + ys) == Uploadable(xs) + Uploadable(ys)
    decreases |xs|
  {
    if xs == [] {
      assert xs + ys == ys;
    } else {
      assert (xs + ys)[1..] == xs[1..] + ys;
      UploadableAppend(xs[1..], ys);
    }
  }

  function AccountId(a: Account): string {
    a.id
  }

  /** The position of the last `.` in a file name. */
  function LastDot(s: string): (i: Option<nat>)
    ensures i.Some? ==> i.value < |s| && s[i.value] == '.' && '.' !in s[i.value + 1..]
    ensures i.None? ==> '.' !in s
    decreases |s|
  {
    if s == [] then None
    else if s[|s| - 1] == '.' then Some(|s| - 1)
    else
      var r := LastDot(s[..|s| - 1]);
      assert s == s[..|s| - 1] + [s[|s| - 1]];
      if r.Some? then
        assert s[r.value + 1..] == s[..|s| - 1][r.value + 1..] + [s[|s| - 1]];
        r
      else r
  }

  /** `name.split(".").pop()`: the text after the last dot, or the whole name when there is no dot. */
  function RawExtension(name: string): (ext: string)
    ensures '.' !in ext
    ensures ext == name || (|ext| < |name| && name[|name| - |ext| - 1] == '.' && name[|name| - |ext|..] == ext)
    ensures ext == name <==> '.' !in name
  {
    match LastDot(name)
    case None => name
    case Some(i) => name[i + 1..]
  }

  /** The extension the upload form compares, lower-cased. */
  function Extension(name: string): (ext: string)
    ensures '.' !in ext && |ext| <= |name|
    ensures ToLower(ext) == ext
    ensures '.' !in name ==> ext == ToLower(name)
  {
    var raw := RawExtension(name);
    ToLowerIdempotent(raw);
    var ext := ToLower(raw);
    assert '.' !in ext by {
      forall i | 0 <= i < |ext| ensures ext[i] != '.' {
        assert raw[i] != '.';
      }
    }
    ext
  }

  /** Appending `"." + ext` to any base name gives back `ext` as the extension. */
  lemma ExtensionOfDottedName(base: string, ext: string)
    requires '.' !in ext
    ensures RawExtension(base + "." + ext) == ext
    ensures Extension(base + "." + ext) == ToLower(ext)
  {
    var name := base + "." + ext;
    var r := RawExtension(name);
    assert name[|base|] == '.';
    assert r != name;
    assert name[|name| - |ext|..] == ext;
  }

  /** Whether the form refuses a chosen file: a non-empty allowed list, a non-empty extension outside it. */
  predicate Rejected(allowed: seq<string>, name: string) {
    |allowed| > 0 && Extension(name) != "" && Extension(name) !in allowed
  }

  /**
   * For a name typed as `base + "." + ext`, the form refuses it exactly when an
   * allowed list is configured and the non-empty extension, lower-cased, is
   * not in it.
   */
  lemma RejectedByTypedExtension(allowed: seq<string>, base: string, ext: string)
    requires '.' !in ext
    ensures Rejected(allowed, base + "." + ext) <==> |allowed| > 0 && ext != "" && ToLower(ext) !in allowed
  {
    ExtensionOfDottedName(base, ext);
  }

  /** A name with no extension at all (ending in a dot) is never refused. */
  lemma TrailingDotAccepted(allowed: seq<string>, base: string)
    ensures !Rejected(allowed, base + ".")
  {
  }

  /** The refusal message names the offending extension and ends with the allowed formats. */
  function RejectionMessage(allowed: seq<string>, name: string): (msg: string)
    ensures var ext := Extension(name);
            && |msg| >= 11 + |ext| && msg[..11] == "File type ." && msg[11..11 + |ext|] == ext
    ensures var list := Join(allowed, ", ");
            |msg| >= |list| && msg[|msg| - |list|..] == list
  {
    var ext := Extension(name);
    var list := Join(allowed, ", ");
    var head := "File type ." + ext;
    var msg := head + " not allowed. Allowed: " + list;
    assert |head| == 11 + |ext| && head[..11] == "File type ." && head[11..] == ext;
    assert msg[..|head|] == head;
    assert msg[|msg| - |list|..] == list;
    msg
  }

  function Dotted(formats: seq<string>): (r: seq<string>)
    ensures |r| == |formats|
    ensures forall i :: 0 <= i < |r| ==> r[i] == "." + formats[i]
  {
    if formats == [] then [] else ["." + formats[0]] + Dotted(formats[1..])
  }

  const DefaultAccept := ".pdf,.csv"

  /** The file input's `accept`: the allowed formats dotted and comma-joined, or `.pdf,.csv` when that is empty. */
  function AcceptString(formats: Option<seq<string>>): (r: string)
    ensures r != ""
    ensures formats.None? || formats == Some([]) ==> r == DefaultAccept
    ensures formats.Some? && |formats.value| > 0 ==>
              r == Join(Dotted(formats.value), ",") && r[..|formats.value[0]| + 1] == "." + formats.value[0]
  {
    var joined := if formats.Some? then Join(Dotted(formats.value), ",") else "";
    if joined != "" then joined else DefaultAccept
  }

  /** The ticket icon of a file in the list. */
  datatype TicketIcon = NoIcon | TicketMinus | TicketCheck

  function Ticket(f: RawFile): (r: TicketIcon)
    ensures r == NoIcon <==> f.resolvedTransactionsCount.None? || f.totalTransactionsCount.None?
    ensures r == TicketMinus <==> f.resolvedTransactionsCount.Some? && f.totalTransactionsCount.Some? &&
                                  f.resolvedTransactionsCount.value != f.totalTransactionsCount.value
  {
    match (f.resolvedTransactionsCount, f.totalTransactionsCount)
    case (Some(resolved), Some(total)) => if resolved != total then TicketMinus else TicketCheck
    case _ => NoIcon
  }

  predicate HasFileKey(files: seq<RawFile>, key: string) {
    exists f :: f in files && f.fileKey == key
  }

  /**
   * The file selected after the list is re-fetched: the previous key if the new
   * list (when it is an array) still holds it, else the first file's key, else none.
   */
  function Reselect(previous: Option<string>, newFiles: Option<seq<RawFile>>): (r: Option<string>)
    ensures r.Some? ==> newFiles.Some? && HasFileKey(newFiles.value, r.value)
    ensures r.None? <==> newFiles.None? || newFiles.value == []
    ensures (previous.Some? && previous.value != "" && newFiles.Some? && HasFileKey(newFiles.value, previous.value))
              ==> r == previous
    ensures r.Some? && r != previous ==> r.value == newFiles.value[0].fileKey
    // an empty or missing previous key never survives on its own: the first file is taken
    ensures (previous.None? || previous == Some("")) && newFiles.Some? && |newFiles.value| > 0 ==>
              r == Some(newFiles.value[0].fileKey)
  {
    if previous.Some? && previous.value != "" && newFiles.Some? && HasFileKey(newFiles.value, previous.value) then
      previous
    else if newFiles.Some? && |newFiles.value| > 0 then
      assert newFiles.value[0] in newFiles.value;
      Some(newFiles.value[0].fileKey)
    else None
  }

  /** The transactions response: a bare array, or an object whose `data` may be missing. */
  datatype TxPayload = Array(items: seq<RawTransaction>) | Wrapped(data: Option<seq<RawTransaction>>)

  function TransactionsOf(p: TxPayload): (r: seq<RawTransaction>)
    ensures p.Array? ==> r == p.items
    ensures p.Wrapped? ==> r == p.data.GetOr([])
  {
    match p
    case Array(items) => items
    case Wrapped(data) => data.GetOr([])
  }

  function IsOk(status: nat): bool {
    200 <= status <= 299
  }

  /** The message the upload form shows for a non-2xx reply. */
  function UploadFailure(status: nat): (msg: string)
    ensures status == 401 ==> msg == "Unauthorized"
    ensures status != 401 ==> msg == "Upload failed (" + NatToString(status) + ")"
  {
    if status == 401 then "Unauthorized" else "Upload failed (" + NatToString(status) + ")"
  }

  class Page {
    var accounts: seq<Account>
    var dialogOpen: bool
    var selectedAccountId: string
    /** The chosen file's name. */
    var selectedFile: Option<string>
    var fileError: Option<string>
    var activeTab: string
    var filesByAccount: map<string, seq<RawFile>>
    var selectedFileKey: Option<string>
    var rawTxByFile: map<string, seq<RawTransaction>>

    constructor ()
      ensures accounts == [] && !dialogOpen && selectedAccountId == "" && selectedFile.None?
      ensures fileError.None? && activeTab == "" && filesByAccount == map[]
      ensures selectedFileKey.None? && rawTxByFile == map[]
    {
      accounts, dialogOpen, selectedAccountId, selectedFile := [], false, "", None;
      fileError, activeTab, filesByAccount := None, "", map[];
      selectedFileKey, rawTxByFile := None, map[];
    }

    /** The upload account currently chosen in the form. */
    function SelectedAccount(): Option<Account>
      reads this
    {
      FindById(Uploadable(accounts), AccountId, selectedAccountId)
    }

    /** `selectedAccount?.fileFormatsAllowed || []`. */
    function Allowed(): seq<string>
      reads this
    {
      match SelectedAccount()
      case Some(a) => a.fileFormatsAllowed.GetOr([])
      case None => []
    }

    /** The `accept` attribute agrees with the list the change handler validates against. */
    function Accept(): (r: string)
      reads this
      ensures Allowed() == [] ==> r == DefaultAccept
      ensures Allowed() != [] ==> r == Join(Dotted(Allowed()), ",")
    {
      AcceptString(if SelectedAccount().Some? then SelectedAccount().value.fileFormatsAllowed else None)
    }

    /** The Submit button's enable rule. */
    function CanSubmit(): bool
      reads this
    {
      selectedAccountId != "" && selectedFile.Some? && fileError.None?
    }

    /** The accounts response. */
    method AccountsLoaded(json: seq<Account>)
      modifies this
      ensures accounts == json
      ensures dialogOpen == old(dialogOpen) && selectedAccountId == old(selectedAccountId)
      ensures selectedFile == old(selectedFile) && fileError == old(fileError) && activeTab == old(activeTab)
      ensures filesByAccount == old(filesByAccount) && selectedFileKey == old(selectedFileKey)
      ensures rawTxByFile == old(rawTxByFile)
    {
      accounts := json;
    }

    /** The first uploadable account becomes the active tab, but only while no tab is active. */
    method AutoSelectTab()
      modifies this`activeTab
      ensures old(activeTab) != "" ==> activeTab == old(activeTab)
      ensures old(activeTab) == "" && |Uploadable(accounts)| > 0 ==> activeTab == Uploadable(accounts)[0].id
      ensures old(activeTab) == "" && |Uploadable(accounts)| == 0 ==> activeTab == ""
    {
      var uploadable := Uploadable(accounts);
      if |uploadable| > 0 && activeTab == "" {
        activeTab := uploadable[0].id;
      }
    }

    /** Picking an account clears the chosen file and any error. */
    method ChooseAccount(id: string)
      modifies this`selectedAccountId, this`selectedFile, this`fileError
      ensures selectedAccountId == id && selectedFile.None? && fileError.None?
      ensures !CanSubmit()
    {
      selectedAccountId := id;
      selectedFile := None;
      fileError := None;
    }

    /** The file input's change handler; `file` is `None` when the selection was cleared. */
    method ChooseFile(file: Option<string>)
      modifies this`selectedFile, this`fileError
      ensures file.None? ==> selectedFile.None? && fileError.None?
      ensures file.Some? && Rejected(Allowed(), file.value) ==>
                selectedFile.None? && fileError == Some(RejectionMessage(Allowed(), file.value))
      ensures file.Some? && !Rejected(Allowed(), file.value) ==> selectedFile == file && fileError.None?
      // Submit is enabled afterwards iff an account is chosen and the file was accepted
      ensures CanSubmit() <==> selectedAccountId != "" && file.Some? && !Rejected(Allowed(), file.value)
    {
      fileError := None;
      if file.None? {
        selectedFile := None;
        return;
      }
      var allowed := Allowed();
      var ext := Extension(file.value);
      if |allowed| > 0 && ext != "" && ext !in allowed {
        fileError := Some(RejectionMessage(allowed, file.value));
        selectedFile := None;
      } else {
        selectedFile := file;
      }
    }

    /**
     * The upload form's submit. `status` is the upload reply's status; the
     * result says whether the upload request was sent.
     */
    method SubmitUpload(status: nat) returns (sent: bool)
      modifies this
      ensures sent <==> old(selectedAccountId) != "" && old(selectedFile).Some?
      ensures accounts == old(accounts) && activeTab == old(activeTab)
      ensures selectedFileKey == old(selectedFileKey) && rawTxByFile == old(rawTxByFile)
      ensures !sent ==> fileError.None? && dialogOpen == old(dialogOpen) && selectedAccountId == old(selectedAccountId)
                        && selectedFile == old(selectedFile) && filesByAccount == old(filesByAccount)
      ensures sent && !IsOk(status) ==>
                fileError == Some(UploadFailure(status)) && dialogOpen == old(dialogOpen)
                && selectedAccountId == old(selectedAccountId) && selectedFile == old(selectedFile)
                && filesByAccount == old(filesByAccount)
      // success: the form resets and only the uploaded account's cached list is dropped
      ensures sent && IsOk(status) ==>
                !dialogOpen && selectedAccountId == "" && selectedFile.None? && fileError.None?
                && filesByAccount == old(filesByAccount) - {old(selectedAccountId)}
      // an enabled button always sends, and whatever happens the button is disabled afterwards
      ensures old(CanSubmit()) ==> sent
      ensures !CanSubmit()
    {
      fileError := None;
      if selectedAccountId == "" || selectedFile.None? {
        return false;
      }
      sent := true;
      if !IsOk(status) {
        fileError := Some(UploadFailure(status));
        return;
      }
      var uploadedTo := selectedAccountId;
      dialogOpen := false;
      selectedAccountId := "";
      selectedFile := None;
      fileError := None;
      filesByAccount := filesByAccount - {uploadedTo};
    }

    /** A tab's file list arrived: only that tab's entry changes. */
    method FilesLoaded(tab: string, files: seq<RawFile>)
      modifies this`filesByAccount
      ensures filesByAccount == old(filesByAccount)[tab := files]
    {
      filesByAccount := filesByAccount[tab := files];
    }

    /** A file's transactions arrived: only that file's entry changes. */
    method TransactionsLoaded(fileKey: string, payload: TxPayload)
      modifies this`rawTxByFile
      ensures rawTxByFile == old(rawTxByFile)[fileKey := TransactionsOf(payload)]
    {
      rawTxByFile := rawTxByFile[fileKey := TransactionsOf(payload)];
    }

    /** After a resolve the active tab's list is re-fetched and the selection re-chosen. */
    method FilesRefreshed(newFiles: seq<RawFile>)
      modifies this`filesByAccount, this`selectedFileKey
      ensures activeTab == "" ==> filesByAccount == old(filesByAccount) && selectedFileKey == old(selectedFileKey)
      ensures activeTab != "" ==>
                filesByAccount == old(filesByAccount)[activeTab := newFiles]
                && selectedFileKey == Reselect(old(selectedFileKey), Some(newFiles))
    {
      if activeTab != "" {
        var previous := selectedFileKey;
        filesByAccount := filesByAccount[activeTab := newFiles];
        selectedFileKey := Reselect(previous, Some(newFiles));
      }
    }
  }
}
