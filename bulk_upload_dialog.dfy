/** The company's "Bulk Upload" dialog: the chosen file, the uploading,
    progress, success and open flags, the file-name check, the upload guard,
    the request (which always fails) and the reset. */
module BulkUpload {
  import opened Wrappers
  import opened Collections
  import opened Session

  datatype UploadFile = UploadFile(name: string)

  /** A CSV or Excel workbook, by the (case-sensitive) end of its name. */
  predicate IsSpreadsheetName(name: string) {
    EndsWith(name, ".csv") || EndsWith(name, ".xlsx")
  }

  /** A name passes exactly when it is some stem followed by ".csv" or ".xlsx". */
  lemma SpreadsheetNameIff(name: string)
    ensures IsSpreadsheetName(name) <==> exists stem: string :: name == stem + ".csv" || name == stem + ".xlsx"
  {
    if EndsWith(name, ".csv") {
      assert name == name[..|name| - 4] + ".csv";
    } else if EndsWith(name, ".xlsx") {
      assert name == name[..|name| - 5] + ".xlsx";
    }
    forall stem: string | name == stem + ".csv" || name == stem + ".xlsx"
      ensures IsSpreadsheetName(name)
    {
      if name == stem + ".csv" {
        assert name[|name| - 4..] == ".csv";
      } else {
        assert name[|name| - 5..] == ".xlsx";
      }
    }
  }

  /** The form data the upload sends. */
  datatype UploadForm = UploadForm(file: UploadFile, email: string)

  datatype UploadReply = UploadReply(uploadedCount: nat)

  const NotImplementedError := "Bulk upload endpoint not implemented in backend yet"

  /** The mutation function: the endpoint does not exist yet, so every upload
      fails with the same message. */
  function SendBulkUpload(form: UploadForm): Result<UploadReply, string> {
    Failure(NotImplementedError)
  }

  class BulkUploadDialog {
    const store: SessionStorage
    var file: Option<UploadFile>
    var uploading: bool
    var progress: nat
    var success: bool
    var open: bool

    constructor (store: SessionStorage)
      ensures this.store == store
      ensures file == None && !uploading && progress == 0 && !success && !open
    {
      this.store := store;
      file := None;
      uploading, progress, success, open := false, 0, false, false;
    }

    /** `handleFileChange`: a spreadsheet becomes the chosen file and clears
        `success`; any other choice (or none) leaves both as they were. */
    method HandleFileChange(selected: Option<UploadFile>)
      modifies this`file, this`success
      ensures selected.Some? && IsSpreadsheetName(selected.value.name) ==> file == selected && !success
      ensures !(selected.Some? && IsSpreadsheetName(selected.value.name)) ==>
        file == old(file) && success == old(success)
    {
      if selected.Some? {
        if IsSpreadsheetName(selected.value.name) {
          file := selected;
          success := false;
        }
      }
    }

    /** `handleUpload`: without a file or an email nothing happens; otherwise
        the dialog starts uploading from 0% and hands the form to the
        mutation. */
    method HandleUpload() returns (sent: Option<UploadForm>)
      modifies this`uploading, this`progress
      ensures sent.Some? <==> file.Some? && Truthy(GetUserEmail(store))
      ensures sent.Some? ==> sent.value == UploadForm(file.value, GetUserEmail(store).value)
      ensures sent.Some? ==> uploading && progress == 0
      ensures sent.None? ==> uploading == old(uploading) && progress == old(progress)
    {
      var email := GetUserEmail(store);
      if file.None? || !Truthy(email) {
        return None;
      }
      uploading := true;
      progress := 0;
      sent := Some(UploadForm(file.value, email.value));
    }

    /** The mutation settles: success stops uploading at 100% and sets
        `success`; failure only stops uploading. */
    method UploadSettled(result: Result<UploadReply, string>)
      modifies this`uploading, this`progress, this`success
      ensures !uploading
      ensures result.Success? ==> progress == 100 && success
      ensures result.Failure? ==> progress == old(progress) && success == old(success)
    {
      uploading := false;
      if result.Success? {
        progress := 100;
        success := true;
      }
    }

    /** The whole upload as the code runs it: since the request always fails,
        `success` never becomes true this way and uploading ends where it
        began, at no upload in flight. */
    method Upload()
      modifies this`uploading, this`progress, this`success
      ensures success == old(success)
      ensures file.Some? && Truthy(GetUserEmail(store)) ==> !uploading && progress == 0
      ensures !(file.Some? && Truthy(GetUserEmail(store))) ==>
        uploading == old(uploading) && progress == old(progress)
    {
      var sent := HandleUpload();
      if sent.Some? {
        UploadSettled(SendBulkUpload(sent.value));
      }
    }

    /** `resetDialog`: no file, no flags, 0%, closed. */
    method ResetDialog()
      modifies this`file, this`success, this`progress, this`uploading, this`open
      ensures file == None && !success && progress == 0 && !uploading && !open
    {
      file := None;
      success := false;
      progress := 0;
      uploading := false;
      open := false;
    }
  }
}
