/** FileOperationResult: the accumulator one relocation pass fills in,
    with the names it moved and the (name, message) pairs it could not. */
module OperationResults {

  /** FileOperationResult.FileOperationError */
  datatype FileOperationError = FileOperationError(fileName: string, errorMessage: string)

  class FileOperationResult {
    var successfulFiles: seq<string>
    var errors: seq<FileOperationError>

    /** A fresh result: nothing moved, nothing failed. */
    constructor ()
      ensures successfulFiles == [] && errors == []
      ensures SuccessCount() == 0 && ErrorCount() == 0
      ensures IsFullySuccessful() && !HasErrors()
    {
      successfulFiles := [];
      errors := [];
    }

    method AddSuccess(fileName: string)
      modifies this
      ensures successfulFiles == old(successfulFiles) + [fileName]
      ensures errors == old(errors)
      ensures SuccessCount() == old(SuccessCount()) + 1
      ensures HasErrors() == old(HasErrors())
    {
      successfulFiles := successfulFiles + [fileName];
    }

    method AddError(fileName: string, errorMessage: string)
      modifies this
      ensures errors == old(errors) + [FileOperationError(fileName, errorMessage)]
      ensures successfulFiles == old(successfulFiles)
      ensures ErrorCount() == old(ErrorCount()) + 1
      ensures HasErrors() && !IsFullySuccessful()
    {
      errors := errors + [FileOperationError(fileName, errorMessage)];
    }

    /** getSuccessfulFiles: a sequence is a value, so what the caller gets
        is a copy that it cannot use to change this result. */
    function GetSuccessfulFiles(): seq<string>
      reads this
    {
      successfulFiles
    }

    /** getErrors, a copy in the same sense. */
    function GetErrors(): seq<FileOperationError>
      reads this
    {
      errors
    }

    function SuccessCount(): nat
      reads this
    {
      |successfulFiles|
    }

    function ErrorCount(): nat
      reads this
    {
      |errors|
    }

    predicate HasErrors()
      reads this
      ensures HasErrors() <==> ErrorCount() > 0
    {
      errors != []
    }

    predicate IsFullySuccessful()
      reads this
      ensures IsFullySuccessful() <==> !HasErrors()
    {
      errors == []
    }
  }

  /** The defensive-copy scenario: growing the list a getter returned does
      not grow the result it came from. Here the copy comes from the
      sequence type itself: a getter yields a value, and rebinding a local
      to a longer value cannot reach the object's field. */
  method GettersReturnCopies() returns (stored: seq<string>)
    ensures stored == ["file.txt"]
  {
    var result := new FileOperationResult();
    result.AddSuccess("file.txt");
    var successList := result.GetSuccessfulFiles();
    successList := successList + ["modified.txt"];
    stored := result.GetSuccessfulFiles();
  }
}
