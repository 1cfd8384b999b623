/**
 * The recipients table of one campaign: the single-row editor, the actions
 * offered for each recipient status, and the pagination controls.
 */
module RecipientsTable {
  import opened Wrappers
  import opened Types
  import Api
  import Browser

  // ---------------------------------------------------------------------
  // The trigger date shown in the editor

  /** `s.split('.')[0]`: the part of `s` before its first '.', or all of `s`. */
  function TruncateAtDot(s: string): (r: string)
    ensures |r| <= |s| && r == s[..|r|]
    ensures forall i :: 0 <= i < |r| ==> r[i] != '.'
    ensures |r| < |s| ==> s[|r|] == '.'
  {
    if s == [] || s[0] == '.' then [] else [s[0]] + TruncateAtDot(s[1..])
  }

  /** A string without a '.' is left as it is. */
  lemma TruncateWithoutDot(s: string)
    requires forall i :: 0 <= i < |s| ==> s[i] != '.'
    ensures TruncateAtDot(s) == s
  {
  }

  /** Truncating twice is truncating once. */
  lemma TruncateIdempotent(s: string)
    ensures TruncateAtDot(TruncateAtDot(s)) == TruncateAtDot(s)
  {
    TruncateWithoutDot(TruncateAtDot(s));
  }

  /** Whatever follows the first '.' plays no part. */
  lemma TruncateIgnoresTail(head: string, tail: string)
    requires forall i :: 0 <= i < |head| ==> head[i] != '.'
    ensures TruncateAtDot(head + "." + tail) == head
  {
    var s := head + "." + tail;
    assert s[|head|] == '.';
    assert forall k :: 0 <= k < |head| ==> s[k] == head[k];
  }

  // ---------------------------------------------------------------------
  // Per-row status display

  /** The buttons of a row: the status actions, or Save and Cancel on the row in edit mode. */
  datatype Action = TriggerNow | Edit | Delete | Retry | Save | Cancel

  /** The read-only note a row shows instead of buttons. */
  datatype StatusNote = NoNote | SentNote(sentAt: Option<string>) | SendingNote

  /** What the actions cell of a row shows. */
  datatype RowActions = RowActions(
    actions: set<Action>,
    expired: bool,              // the "Expired" badge
    note: StatusNote,
    retryTitle: Option<string>) // the tooltip of the Retry button

  /**
   * `new Date(triggerDate) < new Date()`. The parsed instant is an input; an
   * unparsable date (None) compares false with every instant.
   */
  predicate IsExpired(triggerInstant: Option<int>, now: int) {
    triggerInstant.Some? && triggerInstant.value < now
  }

  /** Once a date has passed it stays passed. */
  lemma ExpiredStaysExpired(triggerInstant: Option<int>, now: int, later: int)
    requires now <= later
    ensures IsExpired(triggerInstant, now) ==> IsExpired(triggerInstant, later)
    ensures triggerInstant.None? ==> !IsExpired(triggerInstant, later)
  {
  }

  /**
   * The actions cell for a recipient, given the editing slot, the parsed
   * trigger instant and the clock. The row in edit mode shows only Save and
   * Cancel; every other row shows what its status allows.
   */
  function ActionsFor(r: EmailRecipient, editingId: Option<string>, triggerInstant: Option<int>, now: int): (a: RowActions)
    ensures editingId == Some(r.id) ==> a == RowActions({Save, Cancel}, false, NoNote, None)
    ensures Save in a.actions <==> editingId == Some(r.id)
    ensures Cancel in a.actions <==> editingId == Some(r.id)
    ensures TriggerNow in a.actions <==> editingId != Some(r.id) && r.status == Pending
    ensures Edit in a.actions <==> editingId != Some(r.id) && r.status == Pending
    ensures Delete in a.actions <==> editingId != Some(r.id) && r.status == Pending
    ensures Retry in a.actions <==> editingId != Some(r.id) && r.status == Failed
    ensures a.expired <==> editingId != Some(r.id) && r.status == Pending && IsExpired(triggerInstant, now)
    ensures a.note.SentNote? <==> editingId != Some(r.id) && r.status == Sent
    ensures a.note.SendingNote? <==> editingId != Some(r.id) && r.status == Processing
    ensures a.retryTitle.Some? <==> editingId != Some(r.id) && r.status == Failed
    ensures editingId != Some(r.id) && r.status == RecipientStatus.Scheduled ==> a == RowActions({}, false, NoNote, None)
  {
    if editingId == Some(r.id) then RowActions({Save, Cancel}, false, NoNote, None)
    else match r.status
      case Pending => RowActions({TriggerNow, Edit, Delete}, IsExpired(triggerInstant, now), NoNote, None)
      case Failed => RowActions({Retry}, false, NoNote, Some(OrElse(r.error, "Failed to send email")))
      case Sent => RowActions({}, false, SentNote(if Truthy(r.sentAt) then r.sentAt else None), None)
      case Processing => RowActions({}, false, SendingNote, None)
      case Scheduled => RowActions({}, false, NoNote, None)
  }

  /** Only pending recipients can be edited or deleted; the clock only decides the badge. */
  lemma ActionsIndependentOfClock(r: EmailRecipient, editingId: Option<string>, t1: Option<int>, now1: int, t2: Option<int>, now2: int)
    ensures ActionsFor(r, editingId, t1, now1).actions == ActionsFor(r, editingId, t2, now2).actions
    ensures ActionsFor(r, editingId, t1, now1).actions * {Edit, Delete} != {} ==> r.status == Pending
  {
  }

  /** The rows of a page whose cell offers Save. */
  function SaveRows(editingId: Option<string>, rows: seq<EmailRecipient>, instants: seq<Option<int>>, now: int): set<int>
    requires |instants| == |rows|
  {
    set i | 0 <= i < |rows| && Save in ActionsFor(rows[i], editingId, instants[i], now).actions
  }

  /** With unique row ids, at most one row of a page offers Save and Cancel: the single editing slot. */
  lemma SaveOfferedOnAtMostOneRow(editingId: Option<string>, rows: seq<EmailRecipient>, instants: seq<Option<int>>, now: int)
    requires DistinctIds(rows) && |instants| == |rows|
    ensures |SaveRows(editingId, rows, instants, now)| <= 1
  {
    assert SaveRows(editingId, rows, instants, now) == EditingRows(editingId, rows);
    AtMostOneRowEditing(editingId, rows);
  }

  /** The classes of the status badge. */
  function StatusBadgeClass(s: RecipientStatus): string {
    match s
    case Pending => "bg-yellow-100 text-yellow-800"
    case Scheduled => "bg-blue-100 text-blue-800"
    case Processing => "bg-purple-100 text-purple-800"
    case Sent => "bg-green-100 text-green-800"
    case Failed => "bg-red-100 text-red-800"
  }

  /** The label of the status badge: the wire name in capitals. */
  function StatusBadgeLabel(s: RecipientStatus): string {
    match s
    case Pending => "PENDING"
    case Scheduled => "SCHEDULED"
    case Processing => "PROCESSING"
    case Sent => "SENT"
    case Failed => "FAILED"
  }

  /** Each status has a badge of its own colour and label. */
  lemma StatusBadgesDistinct(s1: RecipientStatus, s2: RecipientStatus)
    ensures StatusBadgeClass(s1) == StatusBadgeClass(s2) ==> s1 == s2
    ensures StatusBadgeLabel(s1) == StatusBadgeLabel(s2) ==> s1 == s2
  {
  }

  // ---------------------------------------------------------------------
  // Pagination controls

  /** The controls are shown only for more than one page. */
  function ShowsPager(pagination: Option<PaginationMetadata>): (b: bool)
    ensures b <==> pagination.Some? && |PageNumbers(pagination.value.totalPages)| >= 2
    ensures b ==> 1 in PageNumbers(pagination.value.totalPages) && 2 in PageNumbers(pagination.value.totalPages)
  {
    if pagination.Some? && pagination.value.totalPages > 1 then
      var pages := PageNumbers(pagination.value.totalPages);
      assert pages[0] == 1 && pages[1] == 2;
      true
    else false
  }

  /** `Array.from({length: n}, (_, i) => i + 1)`: the page numbers 1..n in order. */
  function PageNumbers(n: int): (r: seq<int>)
    ensures |r| == if n > 0 then n else 0
    ensures forall i :: 0 <= i < |r| ==> r[i] == i + 1
    decreases n
  {
    if n <= 0 then [] else PageNumbers(n - 1) + [n]
  }

  /** The page list is strictly ascending and holds exactly the pages 1..n. */
  lemma PageNumbersAscending(n: int, p: int)
    ensures forall i, j :: 0 <= i < j < |PageNumbers(n)| ==> PageNumbers(n)[i] < PageNumbers(n)[j]
    ensures p in PageNumbers(n) <==> 1 <= p <= n
  {
    var r := PageNumbers(n);
    if 1 <= p <= n {
      assert r[p - 1] == p;
    }
  }

  /** First row number of "Showing X to Y of Z". */
  function RangeStart(currentPage: int, limit: int): (r: int)
    ensures currentPage >= 1 && limit >= 0 ==> r >= 1
    ensures limit > 0 ==> (r - 1) % limit == 0 && (r - 1) / limit == currentPage - 1
  {
    if limit > 0 then MultipleDivMod(currentPage - 1, limit); (currentPage - 1) * limit + 1
    else (currentPage - 1) * limit + 1
  }

  /** A multiple of a positive number divides evenly, and the quotient is the factor. */
  lemma MultipleDivMod(q: int, d: int)
    requires d > 0
    ensures (q * d) % d == 0 && (q * d) / d == q
  {
    var a := q * d;
    var k := a / d;
    var r := a % d;
    assert a == d * k + r && 0 <= r < d;
    assert d * (q - k) == r;
    assert q - k >= 1 ==> d * (q - k) >= d * 1;
    assert q - k <= -1 ==> d * (q - k) <= d * -1;
  }

  /** Last row number of "Showing X to Y of Z": the page's end, clipped to the total. */
  function RangeEnd(currentPage: int, limit: int, totalRecipients: int): (r: int)
    ensures r <= totalRecipients && r <= currentPage * limit
    ensures r == totalRecipients || r == currentPage * limit
  {
    if currentPage * limit < totalRecipients then currentPage * limit else totalRecipients
  }

  /** On a page that holds at least one row the range is non-empty, inside the total and at most a page long. */
  lemma RangeWithinPage(currentPage: int, limit: int, totalRecipients: int)
    requires currentPage >= 1 && limit >= 1
    requires (currentPage - 1) * limit < totalRecipients
    ensures 1 <= RangeStart(currentPage, limit)
    ensures RangeStart(currentPage, limit) <= RangeEnd(currentPage, limit, totalRecipients) <= totalRecipients
    ensures RangeEnd(currentPage, limit, totalRecipients) - RangeStart(currentPage, limit) + 1 <= limit
  {
    assert currentPage * limit == (currentPage - 1) * limit + limit;
    assert (currentPage - 1) * limit >= 0;
  }

  datatype PagerButton = Previous | Next | PageNumber(page: int)

  /** Whether a pager button can be clicked: Previous and Next follow the server's flags. */
  function PagerEnabled(b: PagerButton, p: PaginationMetadata): (r: bool)
    ensures b.PageNumber? ==> r
    ensures !r <==> (b == Previous && !p.hasPreviousPage) || (b == Next && !p.hasNextPage)
  {
    match b
    case Previous => p.hasPreviousPage
    case Next => p.hasNextPage
    case PageNumber(_) => true
  }

  /** The page a click asks for, or None for a disabled button. */
  function OnPagerClick(b: PagerButton, currentPage: int, p: PaginationMetadata): (r: Option<int>)
    ensures r.Some? <==> PagerEnabled(b, p)
    ensures b == Previous && r.Some? ==> r.value == currentPage - 1
    ensures b == Next && r.Some? ==> r.value == currentPage + 1
    ensures b.PageNumber? ==> r == Some(b.page)
  {
    if !PagerEnabled(b, p) then None
    else match b
      case Previous => Some(currentPage - 1)
      case Next => Some(currentPage + 1)
      case PageNumber(n) => Some(n)
  }

  /** The server's flags agree with the page shown. */
  predicate ConsistentPaging(currentPage: int, p: PaginationMetadata) {
    1 <= currentPage <= p.totalPages
    && (p.hasPreviousPage <==> currentPage > 1)
    && (p.hasNextPage <==> currentPage < p.totalPages)
  }

  /** With consistent flags, every click on a button the pager shows asks for an existing page. */
  lemma PagerStaysInRange(b: PagerButton, currentPage: int, p: PaginationMetadata)
    requires ConsistentPaging(currentPage, p)
    requires b.PageNumber? ==> b.page in PageNumbers(p.totalPages)
    ensures OnPagerClick(b, currentPage, p).Some? ==>
      1 <= OnPagerClick(b, currentPage, p).value <= p.totalPages
  {
    if b.PageNumber? {
      PageNumbersAscending(p.totalPages, b.page);
    }
  }

  // ---------------------------------------------------------------------
  // The row editor

  /** The draft of an edit; `{}` has every field absent. */
  datatype EditForm = EditForm(email: Option<string>, message: Option<string>, triggerDate: Option<string>)

  const EmptyForm := EditForm(None, None, None)

  /** The rows of a page that are in edit mode. */
  function EditingRows(editingId: Option<string>, rows: seq<EmailRecipient>): set<int> {
    set i | 0 <= i < |rows| && editingId == Some(rows[i].id)
  }

  /** Row keys are unique on a page. */
  predicate DistinctIds(rows: seq<EmailRecipient>) {
    forall i, j :: 0 <= i < j < |rows| ==> rows[i].id != rows[j].id
  }

  /** A single editing slot puts at most one row in edit mode. */
  lemma {:induction false} AtMostOneRowEditing(editingId: Option<string>, rows: seq<EmailRecipient>)
    requires DistinctIds(rows)
    ensures |EditingRows(editingId, rows)| <= 1
  {
    var s := EditingRows(editingId, rows);
    if s != {} {
      var i :| i in s;
      forall j | j in s ensures j == i {
        assert rows[j].id == rows[i].id;
      }
      assert s == {i};
    }
  }

  /** The table's local state: which row is being edited, and its draft. */
  class Table {
    const campaignId: string
    var editingId: Option<string>
    var editForm: EditForm

    /** Outside edit mode there is no draft. */
    predicate Valid()
      reads this
    {
      editingId.None? ==> editForm == EmptyForm
    }

    constructor (campaignId: string)
      ensures Valid()
      ensures this.campaignId == campaignId && editingId == None && editForm == EmptyForm
    {
      this.campaignId := campaignId;
      editingId := None;
      editForm := EmptyForm;
    }

    /** handleEdit: the row becomes the one in edit mode, with a fresh draft of its three fields. */
    method HandleEdit(r: EmailRecipient)
      modifies this
      ensures Valid()
      ensures editingId == Some(r.id)
      ensures editForm == EditForm(Some(r.email), Some(r.message), Some(TruncateAtDot(r.triggerDate)))
      ensures forall t, now :: ActionsFor(r, editingId, t, now).actions == {Save, Cancel}
    {
      editingId := Some(r.id);
      editForm := EditForm(Some(r.email), Some(r.message), Some(TruncateAtDot(r.triggerDate)));
    }

    /** handleCancel: leave edit mode and drop the draft; no request is made. */
    method HandleCancel()
      modifies this
      ensures Valid()
      ensures editingId == None && editForm == EmptyForm
      ensures forall row, t, now :: Save !in ActionsFor(row, editingId, t, now).actions
    {
      editingId := None;
      editForm := EmptyForm;
    }

    /** Typing into the email input, which exists only on the row in edit mode. */
    method EditEmail(value: string)
      requires editingId.Some?
      modifies this
      ensures Valid()
      ensures editingId == old(editingId) && editForm == old(editForm).(email := Some(value))
    {
      editForm := editForm.(email := Some(value));
    }

    /** Typing into the message input. */
    method EditMessage(value: string)
      requires editingId.Some?
      modifies this
      ensures Valid()
      ensures editingId == old(editingId) && editForm == old(editForm).(message := Some(value))
    {
      editForm := editForm.(message := Some(value));
    }

    /** Typing into the date input. */
    method EditTriggerDate(value: string)
      requires editingId.Some?
      modifies this
      ensures Valid()
      ensures editingId == old(editingId) && editForm == old(editForm).(triggerDate := Some(value))
    {
      editForm := editForm.(triggerDate := Some(value));
    }

    /** The update the Save button sends: the draft's three fields as they stand. */
    function SaveCall(recipientId: string): (c: Api.Call)
      reads this
      ensures c.UpdateRecipient? && c.campaignId == campaignId && c.recipientId == recipientId
      ensures c.update.email == editForm.email && c.update.message == editForm.message
      ensures c.update.triggerDate == editForm.triggerDate
    {
      Api.UpdateRecipient(campaignId, recipientId,
        UpdateRecipientRequest(editForm.email, editForm.message, editForm.triggerDate))
    }

    /**
     * handleSave: send the draft; on success leave edit mode, on failure keep
     * the editor as it was and alert.
     */
    method HandleSave(recipientId: string, outcome: Api.Outcome<EmailRecipient>) returns (effects: seq<Browser.Effect>)
      requires Valid()
      modifies this
      ensures Valid()
      ensures |effects| >= 1 && effects[0] == Browser.Send(old(SaveCall(recipientId)))
      ensures outcome.Resolved? ==>
        effects == [effects[0]] && editingId == None && editForm == EmptyForm
      ensures outcome.Resolved? ==> forall row, t, now :: Save !in ActionsFor(row, editingId, t, now).actions
      ensures outcome.Rejected? ==>
        effects == [effects[0], Browser.Alert("Failed to update recipient")]
        && editingId == old(editingId) && editForm == old(editForm)
    {
      effects := [Browser.Send(SaveCall(recipientId))];
      if outcome.Resolved? {
        editingId := None;
        editForm := EmptyForm;
      } else {
        effects := effects + [Browser.Alert("Failed to update recipient")];
      }
    }

    /** handleDelete: ask for confirmation; nothing more unless confirmed; then the delete request, and an alert if it fails. */
    method HandleDelete(recipientId: string, confirmed: bool, outcome: Api.Outcome<()>) returns (effects: seq<Browser.Effect>)
      ensures |effects| >= 1 && effects[0] == Browser.Confirm(DeletePrompt)
      ensures !confirmed ==> effects == [Browser.Confirm(DeletePrompt)]
      ensures confirmed ==> |effects| >= 2 && effects[1] == Browser.Send(Api.DeleteRecipient(campaignId, recipientId))
      ensures confirmed && outcome.Resolved? ==> |effects| == 2
      ensures confirmed && outcome.Rejected? ==> effects[2..] == [Browser.Alert("Failed to delete recipient")]
    {
      effects := [Browser.Confirm(DeletePrompt)];
      if !confirmed {
        return;
      }
      effects := effects + [Browser.Send(Api.DeleteRecipient(campaignId, recipientId))];
      if outcome.Rejected? {
        effects := effects + [Browser.Alert("Failed to delete recipient")];
      }
    }

    /**
     * handleTriggerNow: ask for confirmation; nothing more unless confirmed;
     * then the trigger request and exactly one alert. A reply with success
     * false is not an error: its alert names the reply's error; a failed
     * request names the error body's.
     */
    method HandleTriggerNow(recipientId: string, confirmed: bool, outcome: Api.Outcome<Api.TriggerResult>)
      returns (effects: seq<Browser.Effect>)
      ensures |effects| >= 1 && effects[0] == Browser.Confirm(TriggerPrompt)
      ensures !confirmed ==> effects == [Browser.Confirm(TriggerPrompt)]
      ensures confirmed ==> |effects| == 3 && effects[1] == Browser.Send(Api.TriggerEmailNow(campaignId, recipientId))
      ensures confirmed ==> effects[2] == Browser.Alert(TriggerAlert(outcome))
    {
      effects := [Browser.Confirm(TriggerPrompt)];
      if !confirmed {
        return;
      }
      effects := effects + [Browser.Send(Api.TriggerEmailNow(campaignId, recipientId))];
      effects := effects + [Browser.Alert(TriggerAlert(outcome))];
    }
  }

  /** The confirmation prompts of the delete and trigger-now buttons. */
  const DeletePrompt := "Are you sure you want to delete this recipient?"
  const TriggerPrompt := "Send this email immediately?"

  /** The alert text after a confirmed trigger. */
  function TriggerAlert(outcome: Api.Outcome<Api.TriggerResult>): (text: string)
    ensures outcome.Resolved? && outcome.value.success ==> text == "Email sent successfully!"
    ensures outcome.Resolved? && !outcome.value.success ==>
      text == "Failed to send email: " + OrElse(outcome.value.error, "Unknown error")
    ensures outcome.Rejected? ==> text == OrElse(outcome.data.error, "Failed to trigger email")
    ensures outcome.Rejected? && !Truthy(outcome.data.error) ==> text == "Failed to trigger email"
  {
    match outcome
    case Resolved(res) =>
      if res.success then "Email sent successfully!"
      else "Failed to send email: " + OrElse(res.error, "Unknown error")
    case Rejected(data) => OrElse(data.error, "Failed to trigger email")
  }

  /** A failed delivery and a failed request can never be mistaken for a success. */
  lemma TriggerSuccessAlertOnlyOnSuccess(outcome: Api.Outcome<Api.TriggerResult>)
    ensures TriggerAlert(outcome) == "Email sent successfully!" ==>
      (outcome.Resolved? && outcome.value.success) || (outcome.Rejected? && outcome.data.error == Some("Email sent successfully!"))
  {
    if outcome.Resolved? && !outcome.value.success {
      assert TriggerAlert(outcome)[0] == 'F';
    }
  }
}
