/**
 The document-upload step of the wizard: it records the files the user
 picks into the page's file slots, keeps one error message per slot, and
 lets the application be submitted only when every slot is filled.
 */
module DocumentsUpload {
  import opened Values
  import opened ApplyWizard

  const PayStubsRequired := "At least one pay stub is required."
  const BankStatementsRequired := "At least one bank statement is required."
  const IdRequired := "Government-issued ID is required."

  /** The `name` of a slot's file input, which is also its error key. */
  function SlotName(slot: Slot): string
  {
    match slot
    case PayStubs => "payStubs"
    case BankStatements => "bankStatements"
    case Id => "id"
  }

  /** At least one pay stub, at least one bank statement, and an ID. */
  predicate DocumentsComplete(files: Files)
  {
    |files.payStubs| > 0 && |files.bankStatements| > 0 && files.id.Some?
  }

  /** The error map validation produces: one message per empty slot and
      nothing else. */
  function MissingDocuments(files: Files): (errors: map<string, string>)
    ensures "payStubs" in errors <==> |files.payStubs| == 0
    ensures "bankStatements" in errors <==> |files.bankStatements| == 0
    ensures "id" in errors <==> files.id.None?
    ensures errors.Keys <= {"payStubs", "bankStatements", "id"}
    ensures "payStubs" in errors ==> errors["payStubs"] == PayStubsRequired
    ensures "bankStatements" in errors ==> errors["bankStatements"] == BankStatementsRequired
    ensures "id" in errors ==> errors["id"] == IdRequired
  {
    var withPayStubs: map<string, string> :=
      if |files.payStubs| == 0 then map["payStubs" := PayStubsRequired] else map[];
    var withStatements :=
      if |files.bankStatements| == 0 then withPayStubs["bankStatements" := BankStatementsRequired]
      else withPayStubs;
    if files.id.None? then withStatements["id" := IdRequired] else withStatements
  }

  /** Validation passes exactly when it reports no error. */
  lemma CompleteIffNoErrors(files: Files)
    ensures DocumentsComplete(files) <==> |MissingDocuments(files)| == 0
  {
  }

  /** The state of the upload step: the error message shown under each
      file input. */
  class DocumentsStep {
    var errors: map<string, string>

    constructor ()
      ensures errors == map[]
    {
      errors := map[];
    }

    /** `handleFileChange`: stores the chosen files in the page's slot (only
        the first file for the ID) and clears that slot's error. Nothing
        happens when the input reports no file list. */
    method HandleFileChange(page: ApplicationPage, slot: Slot, selected: Option<seq<File>>)
      modifies this`errors, page`files
      ensures selected.None? ==> errors == old(errors) && page.files == old(page.files)
      ensures selected.Some? ==>
        && errors.Keys == old(errors).Keys + {SlotName(slot)}
        && errors[SlotName(slot)] == ""
        && (forall k :: k in old(errors) && k != SlotName(slot) ==> errors[k] == old(errors)[k])
      ensures selected.Some? && slot == Id ==>
        page.files == old(page.files).(id := if |selected.value| > 0 then Some(selected.value[0]) else None)
      ensures selected.Some? && slot == PayStubs ==>
        page.files == old(page.files).(payStubs := selected.value)
      ensures selected.Some? && slot == BankStatements ==>
        page.files == old(page.files).(bankStatements := selected.value)
    {
      if selected.Some? {
        var chosen := selected.value;
        if slot == Id {
          page.UpdateFiles(slot, One(if |chosen| > 0 then Some(chosen[0]) else None));
        } else {
          page.UpdateFiles(slot, Many(chosen));
        }
        errors := errors[SlotName(slot) := ""];
      }
    }

    /** `validateFiles`: builds a fresh error map, replaces the old one with
        it, and reports whether it is empty. */
    method ValidateFiles(page: ApplicationPage) returns (ok: bool)
      modifies this`errors
      ensures errors == MissingDocuments(page.files)
      ensures ok <==> DocumentsComplete(page.files)
    {
      var newErrors: map<string, string> := map[];
      if |page.files.payStubs| == 0 {
        newErrors := newErrors["payStubs" := PayStubsRequired];
      }
      if |page.files.bankStatements| == 0 {
        newErrors := newErrors["bankStatements" := BankStatementsRequired];
      }
      if page.files.id.None? {
        newErrors := newErrors["id" := IdRequired];
      }
      errors := newErrors;
      ok := |newErrors| == 0;
      CompleteIffNoErrors(page.files);
    }

    /** `handleSubmit`: validates, and submits the application through the
        page only when validation passes. */
    method HandleSubmit(page: ApplicationPage, upload: File -> string, now: int, storeResult: Option<string>)
      returns (stored: Option<map<string, Value>>)
      requires page.Valid()
      modifies this`errors, page`currentStep, page`applicationId, page`isSubmitting
      ensures page.Valid()
      ensures errors == MissingDocuments(page.files)
      ensures !DocumentsComplete(page.files) ==>
        && stored == None
        && page.currentStep == old(page.currentStep)
        && page.applicationId == old(page.applicationId)
        && page.isSubmitting == old(page.isSubmitting)
      ensures DocumentsComplete(page.files) && storeResult.None? ==>
        stored == None && page.currentStep == old(page.currentStep) && page.applicationId == old(page.applicationId)
      ensures DocumentsComplete(page.files) && storeResult.Some? ==>
        && stored == Some(SubmittedRecord(page.formData, page.files, upload, now))
        && page.currentStep == TotalSteps && page.applicationId == storeResult
      ensures DocumentsComplete(page.files) ==> !page.isSubmitting
    {
      var ok := ValidateFiles(page);
      if ok {
        stored := page.HandleSubmit(upload, now, storeResult);
      } else {
        stored := None;
      }
    }
  }
}
