/**
 The five-step application wizard: the page that holds the current step,
 the partial application record being filled in, and the files chosen for
 upload, and that submits the finished application.
 */
module ApplyWizard {
  import opened Values

  /** Personal, Employment, Vehicle, Documents, Confirm. */
  const TotalSteps := 5

  /** A file picked in the browser; its bytes are not modelled. */
  datatype File = File(name: string, size: nat)

  /** The three document slots of the upload step. */
  datatype Slot = PayStubs | BankStatements | Id

  /** What `updateFiles` is handed: the single chosen file (or nothing) for
      the ID slot, the whole selection for the two list slots. */
  datatype Selection = One(file: Option<File>) | Many(files: seq<File>)

  datatype Files = Files(payStubs: seq<File>, bankStatements: seq<File>, id: Option<File>)

  const NoFiles := Files([], [], None)

  /** The record the page starts with. */
  const InitialFormData: map<string, Value> :=
    map["payStubUrls" := TextList([]), "bankStatementUrls" := TextList([]), "idUrl" := Text("")]

  // ---------------------------------------------------------------------
  // Step navigation
  // ---------------------------------------------------------------------

  /** The step after `nextStep`: one further on, except on the last step,
      where the button does nothing. */
  function Next(step: int): (r: int)
    ensures step <= r <= step + 1
    ensures r == step <==> step >= TotalSteps
    ensures 1 <= step <= TotalSteps ==> 1 <= r <= TotalSteps
  {
    if step < TotalSteps then step + 1 else step
  }

  /** The step after `prevStep`: one back, except on the first step, where
      the button does nothing. */
  function Prev(step: int): (r: int)
    ensures step - 1 <= r <= step
    ensures r == step <==> step <= 1
    ensures 1 <= step <= TotalSteps ==> 1 <= r <= TotalSteps
  {
    if step > 1 then step - 1 else step
  }

  datatype Move = Forward | Back

  /** The step reached from `step` by a sequence of button presses. */
  function Walk(step: int, moves: seq<Move>): int
    decreases |moves|
  {
    if moves == [] then step
    else Walk(if moves[0] == Forward then Next(step) else Prev(step), moves[1..])
  }

  /** Whatever the user presses, the step stays within 1..TotalSteps. */
  lemma {:induction false} WalkStaysInRange(step: int, moves: seq<Move>)
    requires 1 <= step <= TotalSteps
    ensures 1 <= Walk(step, moves) <= TotalSteps
    decreases |moves|
  {
    if moves != [] {
      WalkStaysInRange(if moves[0] == Forward then Next(step) else Prev(step), moves[1..]);
    }
  }

  /** Forward then back returns to the same step below the last one, and
      back then forward returns to the same step above the first. */
  lemma NavigationRoundTrip(step: int)
    ensures 1 <= step < TotalSteps ==> Prev(Next(step)) == step
    ensures 1 < step <= TotalSteps ==> Next(Prev(step)) == step
    ensures Next(TotalSteps) == TotalSteps && Prev(1) == 1
  {
  }

  /** How the step indicator draws step `index + 1`. */
  datatype Mark = Done | Current | Pending

  function StepMark(index: nat, currentStep: int): (m: Mark)
    ensures m == Current <==> index + 1 == currentStep
    ensures m == Done <==> index + 1 < currentStep
  {
    if index + 1 == currentStep then Current
    else if index + 1 < currentStep then Done
    else Pending
  }

  /** The whole indicator row. */
  function StepMarks(currentStep: int): seq<Mark>
  {
    seq(TotalSteps, i requires 0 <= i < TotalSteps => StepMark(i, currentStep))
  }

  function Repeat(m: Mark, n: nat): (r: seq<Mark>)
    ensures |r| == n && forall i :: 0 <= i < n ==> r[i] == m
  {
    seq(n, _ => m)
  }

  /** For a valid step the indicator shows the earlier steps done, exactly
      one current step, and the later steps pending. */
  lemma StepMarksShape(currentStep: int)
    requires 1 <= currentStep <= TotalSteps
    ensures StepMarks(currentStep) ==
      Repeat(Done, currentStep - 1) + [Current] + Repeat(Pending, TotalSteps - currentStep)
  {
  }

  // ---------------------------------------------------------------------
  // Submission
  // ---------------------------------------------------------------------

  /** `Promise.all(list.map(upload))`: one URL per file, in file order. The
      storage service is the parameter `upload`. */
  function UploadAll(files: seq<File>, upload: File -> string): (urls: seq<string>)
    ensures |urls| == |files|
    ensures forall i :: 0 <= i < |files| ==> urls[i] == upload(files[i])
  {
    seq(|files|, i requires 0 <= i < |files| => upload(files[i]))
  }

  /** The keys that submission writes over the form data. */
  const SubmissionKeys := {"payStubUrls", "bankStatementUrls", "idUrl", "status", "createdAt"}

  /** The record `handleSubmit` hands to the document store: the form data
      with the three URL fields, the status "New" and the creation time
      written over it. */
  function SubmittedRecord(formData: map<string, Value>, files: Files, upload: File -> string, now: int)
    : (r: map<string, Value>)
    ensures r.Keys == formData.Keys + SubmissionKeys
    ensures forall k :: k in formData && k !in SubmissionKeys ==> r[k] == formData[k]
    ensures r["status"] == Text("New") && r["createdAt"] == Date(now)
    ensures r["idUrl"] == Text(if files.id.Some? then upload(files.id.value) else "")
    ensures r["payStubUrls"].TextList? && |r["payStubUrls"].items| == |files.payStubs|
    ensures forall i :: 0 <= i < |files.payStubs| ==> r["payStubUrls"].items[i] == upload(files.payStubs[i])
    ensures r["bankStatementUrls"].TextList? && |r["bankStatementUrls"].items| == |files.bankStatements|
    ensures forall i :: 0 <= i < |files.bankStatements| ==>
      r["bankStatementUrls"].items[i] == upload(files.bankStatements[i])
  {
    var idUrl := if files.id.Some? then upload(files.id.value) else "";
    formData + map[
      "payStubUrls" := TextList(UploadAll(files.payStubs, upload)),
      "bankStatementUrls" := TextList(UploadAll(files.bankStatements, upload)),
      "idUrl" := Text(idUrl),
      "status" := Text("New"),
      "createdAt" := Date(now)]
  }

  /** The application page's state. */
  class ApplicationPage {
    var currentStep: int
    var formData: map<string, Value>
    var files: Files
    var isSubmitting: bool
    var applicationId: Option<string>

    ghost predicate Valid()
      reads this
    {
      1 <= currentStep <= TotalSteps
    }

    constructor ()
      ensures Valid() && currentStep == 1
      ensures formData == InitialFormData && files == NoFiles
      ensures !isSubmitting && applicationId == None
    {
      currentStep := 1;
      formData := InitialFormData;
      files := NoFiles;
      isSubmitting := false;
      applicationId := None;
    }

    /** `updateFormData`: merges a patch into the record; the patch wins on
        shared keys. */
    method UpdateFormData(patch: map<string, Value>)
      modifies this`formData
      ensures formData.Keys == old(formData).Keys + patch.Keys
      ensures forall k :: k in patch ==> formData[k] == patch[k]
      ensures forall k :: k in old(formData) && k !in patch ==> formData[k] == old(formData)[k]
    {
      formData := formData + patch;
    }

    /** `updateFiles`: replaces the contents of one slot. */
    method UpdateFiles(slot: Slot, selection: Selection)
      requires slot == Id <==> selection.One?
      modifies this`files
      ensures slot == PayStubs ==> files == old(files).(payStubs := selection.files)
      ensures slot == BankStatements ==> files == old(files).(bankStatements := selection.files)
      ensures slot == Id ==> files == old(files).(id := selection.file)
    {
      match slot
      case PayStubs => files := files.(payStubs := selection.files);
      case BankStatements => files := files.(bankStatements := selection.files);
      case Id => files := files.(id := selection.file);
    }

    /** `nextStep`: advances unless already on the last step. */
    method NextStep()
      requires Valid()
      modifies this`currentStep
      ensures Valid()
      ensures currentStep == Next(old(currentStep))
    {
      if currentStep < TotalSteps {
        currentStep := currentStep + 1;
      }
    }

    /** `prevStep`: goes back unless already on the first step. */
    method PrevStep()
      requires Valid()
      modifies this`currentStep
      ensures Valid()
      ensures currentStep == Prev(old(currentStep))
    {
      if currentStep > 1 {
        currentStep := currentStep - 1;
      }
    }

    /** `handleSubmit`: uploads the files, stores the record and moves to
        the confirmation step. `storeResult` is what the remote calls
        produce: the new document's id, or None when an upload or the store
        write fails, in which case the page stays where it is. */
    method HandleSubmit(upload: File -> string, now: int, storeResult: Option<string>)
      returns (stored: Option<map<string, Value>>)
      requires Valid()
      modifies this`currentStep, this`applicationId, this`isSubmitting
      ensures Valid() && !isSubmitting
      ensures storeResult.None? ==>
        stored == None && currentStep == old(currentStep) && applicationId == old(applicationId)
      ensures storeResult.Some? ==>
        && stored == Some(SubmittedRecord(formData, files, upload, now))
        && currentStep == TotalSteps && applicationId == storeResult
    {
      isSubmitting := true;
      var payStubUrls := UploadAll(files.payStubs, upload);
      var bankStatementUrls := UploadAll(files.bankStatements, upload);
      var idUrl := "";
      if files.id.Some? {
        idUrl := upload(files.id.value);
      }
      var applicationData := formData + map[
        "payStubUrls" := TextList(payStubUrls),
        "bankStatementUrls" := TextList(bankStatementUrls),
        "idUrl" := Text(idUrl),
        "status" := Text("New"),
        "createdAt" := Date(now)];
      if storeResult.Some? {
        applicationId := storeResult;
        currentStep := TotalSteps;
        stored := Some(applicationData);
      } else {
        stored := None;
      }
      isSubmitting := false;
    }
  }
}
