/**
 * The dashboard's state and its handlers. Each asynchronous handler is split
 * at its `await`: the part before it runs as one step and returns the request
 * it sends, the part after it runs as one step when the response arrives.
 */
module DashboardController {
  import opened Wrappers
  import opened Types
  import opened LivingAppsService
  import opened DashboardViews

  // ---------------------------------------------------------------------------
  // The dashboard page
  // ---------------------------------------------------------------------------

  class Dashboard {
    var records: seq<Record>
    var loading: bool
    var error: Option<ApiError>
    var showCreateDialog: bool
    var editRecord: Option<Record>
    var deleteRecord: Option<Record>

    /** A fetch clears the error when it starts and sets one only as it stops loading. */
    ghost predicate Valid()
      reads this
    {
      loading ==> error.None?
    }

    /** The initial state: loading, no records, no dialog open. */
    constructor ()
      ensures Valid()
      ensures records == [] && loading && error == None
      ensures !showCreateDialog && editRecord == None && deleteRecord == None
    {
      records := [];
      loading := true;
      error := None;
      showCreateDialog := false;
      editRecord := None;
      deleteRecord := None;
    }

    /** What is rendered in the current state. */
    function CurrentPage(): Page
      reads this
    {
      PageOf(loading, error, records)
    }

    /**
     * `fetchData` up to its `await`, run on mount, on retry and after every
     * successful change: loading starts, the error is cleared, the records
     * stay until the response arrives.
     */
    method StartFetch() returns (req: Request)
      modifies this
      ensures Valid()
      ensures req == ListRequest()
      ensures loading && error == None && records == old(records)
      ensures showCreateDialog == old(showCreateDialog) && editRecord == old(editRecord)
              && deleteRecord == old(deleteRecord)
    {
      loading := true;
      error := None;
      req := ListRequest();
    }

    /**
     * `fetchData` after its `await`: on success the records are replaced, on
     * failure they stay and the error is kept; loading ends either way.
     */
    method FinishFetch(outcome: Result<seq<Record>, ApiError>)
      requires Valid()
      modifies this
      ensures Valid() && !loading
      ensures outcome.Success? ==> records == outcome.value && error == old(error)
      ensures outcome.Success? && old(loading) ==> error == None
      ensures outcome.Failure? ==> records == old(records) && error == Some(outcome.error)
      ensures showCreateDialog == old(showCreateDialog) && editRecord == old(editRecord)
              && deleteRecord == old(deleteRecord)
    {
      match outcome {
        case Success(data) =>
          records := data;
        case Failure(e) =>
          error := Some(e);
      }
      loading := false;
    }

    /** `setShowCreateDialog`: the create buttons open the create dialog, its close button closes it. */
    method SetShowCreateDialog(open: bool)
      modifies this
      ensures showCreateDialog == open
      ensures records == old(records) && loading == old(loading) && error == old(error)
              && editRecord == old(editRecord) && deleteRecord == old(deleteRecord)
    {
      showCreateDialog := open;
    }

    /** The edit button of a record: the edit dialog opens for it. */
    method SelectForEdit(r: Record)
      modifies this
      ensures editRecord == Some(r)
      ensures records == old(records) && loading == old(loading) && error == old(error)
              && showCreateDialog == old(showCreateDialog) && deleteRecord == old(deleteRecord)
    {
      editRecord := Some(r);
    }

    /** `(open) => !open && setEditRecord(null)`. */
    method EditDialogOpenChange(open: bool)
      modifies this
      ensures editRecord == if open then old(editRecord) else None
      ensures records == old(records) && loading == old(loading) && error == old(error)
              && showCreateDialog == old(showCreateDialog) && deleteRecord == old(deleteRecord)
    {
      if !open {
        editRecord := None;
      }
    }

    /** The delete button of a record: the delete dialog opens for it. */
    method SelectForDelete(r: Record)
      modifies this
      ensures deleteRecord == Some(r)
      ensures records == old(records) && loading == old(loading) && error == old(error)
              && showCreateDialog == old(showCreateDialog) && editRecord == old(editRecord)
    {
      deleteRecord := Some(r);
    }

    /** `(open) => !open && setDeleteRecord(null)`. */
    method DeleteDialogOpenChange(open: bool)
      modifies this
      ensures deleteRecord == if open then old(deleteRecord) else None
      ensures records == old(records) && loading == old(loading) && error == old(error)
              && showCreateDialog == old(showCreateDialog) && editRecord == old(editRecord)
    {
      if !open {
        deleteRecord := None;
      }
    }

    /**
     * `handleDelete` up to its `await`: nothing is sent when no record is
     * selected, otherwise the delete of the selected record.
     */
    method HandleDeleteStart() returns (req: Option<Request>)
      ensures deleteRecord.None? <==> req.None?
      ensures deleteRecord.Some? ==>
                req.value.verb == DELETE &&
                ExtractRecordId(Some(req.value.url)) == ExtractRecordId(Some(deleteRecord.value.recordId)) &&
                req == Some(DeleteRequest(deleteRecord.value.recordId))
    {
      if deleteRecord.None? {
        return None;
      }
      var id := deleteRecord.value.recordId;
      req := Some(DeleteRequest(id));
      RecordUrlId(DatenerfassungAppId, id);
    }

    /**
     * `handleDelete` after its `await`: a successful delete clears the
     * selection and starts a re-fetch; a failed one rejects and changes
     * nothing.
     */
    method HandleDeleteFinish(resp: Response) returns (ok: bool, fetch: Option<Request>)
      requires Valid()
      modifies this
      ensures Valid()
      ensures ok <==> DeleteResult(resp).Success?
      ensures ok ==> deleteRecord == None && fetch == Some(ListRequest())
                     && loading && error == None && records == old(records)
                     && showCreateDialog == old(showCreateDialog) && editRecord == old(editRecord)
      ensures !ok ==> fetch == None
                      && deleteRecord == old(deleteRecord) && loading == old(loading)
                      && error == old(error) && records == old(records)
                      && showCreateDialog == old(showCreateDialog) && editRecord == old(editRecord)
    {
      ok := DeleteResult(resp).Success?;
      if !ok {
        return ok, None;
      }
      deleteRecord := None;
      var req := StartFetch();
      fetch := Some(req);
    }
  }

  // ---------------------------------------------------------------------------
  // The create/edit dialog
  // ---------------------------------------------------------------------------

  /** Which of the dashboard's two record dialogs: the create one or the edit one. */
  datatype DialogSlot = CreateSlot | EditSlot

  /** The values of the form's two inputs. */
  datatype FormData = FormData(feldEins: string, feldZwei: string)

  /** The form as the dialog opens: the record's fields, `''` when absent or for no record. */
  function Prefill(record: Option<Record>): (f: FormData)
    ensures record.None? ==> f == FormData("", "")
    ensures record.Some? && record.value.fields.feldEins.Some? ==> f.feldEins == record.value.fields.feldEins.value
    ensures record.Some? && record.value.fields.feldZwei.Some? ==> f.feldZwei == record.value.fields.feldZwei.value
    ensures record.Some? && record.value.fields.feldEins.None? ==> f.feldEins == ""
    ensures record.Some? && record.value.fields.feldZwei.None? ==> f.feldZwei == ""
  {
    if record.None? then FormData("", "")
    else FormData(record.value.fields.feldEins.GetOr(""), record.value.fields.feldZwei.GetOr(""))
  }

  /** The fields a submit sends: both inputs, empty ones included. */
  function FormFields(f: FormData): (r: Fields)
    ensures r.feldEins == Some(f.feldEins) && r.feldZwei == Some(f.feldZwei)
  {
    Fields(Some(f.feldEins), Some(f.feldZwei))
  }

  /** The request a submit sends: an update of the record when editing, a create otherwise. */
  function SubmitRequest(record: Option<Record>, f: FormData): (r: Request)
    ensures record.Some? ==> r.verb == PATCH && r.url == CreateRecordUrl(DatenerfassungAppId, record.value.recordId)
    ensures record.None? ==> r.verb == POST && r.url == ListRequest().url
    ensures r.body.Some? && PayloadFields(r.body.value) == Some(FormFields(f))
  {
    PayloadRoundTrip(FormFields(f));
    if record.Some? then UpdateRequest(record.value.recordId, FormFields(f))
    else CreateRequest(FormFields(f))
  }

  class RecordDialog {
    const slot: DialogSlot
    var open: bool
    var record: Option<Record>
    var submitting: bool
    var formData: FormData

    /** `!!record`. */
    predicate IsEditing()
      reads this
    {
      record.Some?
    }

    /** Mounting: the form starts empty, and the prefill effect runs once. */
    constructor (slot: DialogSlot, open: bool, record: Option<Record>)
      ensures this.slot == slot && this.open == open && this.record == record && !submitting
      ensures formData == if open then Prefill(record) else FormData("", "")
    {
      this.slot := slot;
      this.open := open;
      this.record := record;
      submitting := false;
      formData := if open then Prefill(record) else FormData("", "");
    }

    /**
     * A render with new props: the prefill effect runs when `open` or
     * `record` changed and the dialog is open; otherwise the form keeps what
     * was typed.
     */
    method Render(newOpen: bool, newRecord: Option<Record>)
      modifies this
      ensures open == newOpen && record == newRecord && submitting == old(submitting)
      ensures formData == if newOpen && (newOpen != old(open) || newRecord != old(record))
                          then Prefill(newRecord) else old(formData)
    {
      var changed := newOpen != open || newRecord != record;
      open, record := newOpen, newRecord;
      if changed && open {
        formData := Prefill(record);
      }
    }

    /** Typing into the first input. */
    method EditFeldEins(v: string)
      modifies this
      ensures formData == old(formData).(feldEins := v)
      ensures open == old(open) && record == old(record) && submitting == old(submitting)
    {
      formData := formData.(feldEins := v);
    }

    /** Typing into the second input. */
    method EditFeldZwei(v: string)
      modifies this
      ensures formData == old(formData).(feldZwei := v)
      ensures open == old(open) && record == old(record) && submitting == old(submitting)
    {
      formData := formData.(feldZwei := v);
    }

    /**
     * `handleSubmit` up to its `await`. While a submit is in flight the
     * submit button is disabled and nothing is sent.
     */
    method BeginSubmit() returns (req: Option<Request>)
      modifies this
      ensures old(submitting) ==> req == None
      ensures !old(submitting) ==> req == Some(SubmitRequest(record, formData))
      ensures submitting
      ensures open == old(open) && record == old(record) && formData == old(formData)
    {
      if submitting {
        return None;
      }
      submitting := true;
      req := Some(SubmitRequest(record, formData));
    }

    /** The outcome of the save this dialog sent. */
    function SaveResult(resp: Response): Result<Value, ApiError>
      reads this
    {
      if IsEditing() then UpdateResult(resp) else CreateResult(resp)
    }

    /**
     * `handleSubmit` after its `await`: on success the dialog asks to close
     * and the dashboard re-fetches; on failure nothing but the in-flight flag
     * changes, so what was typed is kept for a retry.
     */
    method EndSubmit(dash: Dashboard, resp: Response) returns (ok: bool, fetch: Option<Request>)
      requires dash.Valid()
      modifies this, dash
      ensures dash.Valid()
      ensures ok <==> resp.Received? && resp.ok && resp.json.Some?
      ensures !submitting && open == old(open) && record == old(record) && formData == old(formData)
      ensures ok ==> fetch == Some(ListRequest()) && dash.loading && dash.error == None
                     && dash.records == old(dash.records) && dash.deleteRecord == old(dash.deleteRecord)
      ensures ok && slot == CreateSlot ==> !dash.showCreateDialog && dash.editRecord == old(dash.editRecord)
      ensures ok && slot == EditSlot ==> dash.editRecord == None && dash.showCreateDialog == old(dash.showCreateDialog)
      ensures !ok ==> fetch == None && dash.records == old(dash.records) && dash.loading == old(dash.loading)
                      && dash.error == old(dash.error) && dash.showCreateDialog == old(dash.showCreateDialog)
                      && dash.editRecord == old(dash.editRecord) && dash.deleteRecord == old(dash.deleteRecord)
    {
      ok := SaveResult(resp).Success?;
      fetch := None;
      if ok {
        if slot == CreateSlot {
          dash.SetShowCreateDialog(false);
        } else {
          dash.EditDialogOpenChange(false);
        }
        var req := dash.StartFetch();
        fetch := Some(req);
      }
      submitting := false;
    }
  }

  // ---------------------------------------------------------------------------
  // The delete confirmation dialog
  // ---------------------------------------------------------------------------

  class DeleteConfirmDialog {
    var deleting: bool

    constructor ()
      ensures !deleting
    {
      deleting := false;
    }

    /**
     * The dialog's `handleDelete` up to the dashboard's `await`. While a
     * delete is in flight the button is disabled. With no record selected the
     * dashboard's handler returns at once and the dialog asks to close.
     */
    method BeginDelete(dash: Dashboard) returns (req: Option<Request>)
      modifies this, dash
      ensures old(deleting) ==> req == None && deleting && dash.deleteRecord == old(dash.deleteRecord)
      ensures !old(deleting) && old(dash.deleteRecord).None? ==> req == None && !deleting && dash.deleteRecord == None
      ensures !old(deleting) && old(dash.deleteRecord).Some? ==>
                req == Some(DeleteRequest(old(dash.deleteRecord).value.recordId)) && deleting
                && dash.deleteRecord == old(dash.deleteRecord)
      ensures dash.records == old(dash.records) && dash.loading == old(dash.loading) && dash.error == old(dash.error)
              && dash.showCreateDialog == old(dash.showCreateDialog) && dash.editRecord == old(dash.editRecord)
    {
      if deleting {
        return None;
      }
      deleting := true;
      req := dash.HandleDeleteStart();
      if req.None? {
        dash.DeleteDialogOpenChange(false);
        deleting := false;
      }
    }

    /**
     * The dialog's `handleDelete` after the response: on success the
     * dashboard clears its selection and re-fetches and the dialog asks to
     * close; on failure the dialog stays open. The in-flight flag drops either way.
     */
    method EndDelete(dash: Dashboard, resp: Response) returns (ok: bool, fetch: Option<Request>)
      requires dash.Valid()
      modifies this, dash
      ensures dash.Valid() && !deleting
      ensures ok <==> resp.Received? && resp.ok
      ensures ok ==> dash.deleteRecord == None && fetch == Some(ListRequest())
                     && dash.loading && dash.error == None && dash.records == old(dash.records)
      ensures !ok ==> fetch == None && dash.deleteRecord == old(dash.deleteRecord)
                      && dash.loading == old(dash.loading) && dash.error == old(dash.error)
                      && dash.records == old(dash.records)
      ensures dash.showCreateDialog == old(dash.showCreateDialog) && dash.editRecord == old(dash.editRecord)
    {
      ok, fetch := dash.HandleDeleteFinish(resp);
      if ok {
        dash.DeleteDialogOpenChange(false);
      }
      deleting := false;
    }
  }

  // ---------------------------------------------------------------------------
  // A full cycle
  // ---------------------------------------------------------------------------

  /**
   * Mounting and a successful first load: one list request is sent, and the
   * page then shows the loaded records newest first, or the empty state.
   */
  method MountAndLoad(loaded: seq<Record>) returns (req: Request, page: Page)
    ensures req == ListRequest()
    ensures loaded == [] ==> page == EmptyPage
    ensures loaded != [] ==> page.ListPage? && multiset(page.sorted) == multiset(loaded)
                             && NewestFirst(page.sorted) && page.sorted == SortedRecords(loaded)
                             && page.recent == RecentEntries(page.sorted)
  {
    var dash := new Dashboard();
    req := dash.StartFetch();
    assert dash.CurrentPage() == LoadingPage;
    dash.FinishFetch(Success(loaded));
    page := dash.CurrentPage();
  }
}
