# export-service, modelled in Dafny

This project models the file-handling core of the export service. The
service collects report files from a staging ("tmp") folder by file-name
prefix and moves them into an export folder. It does this on a schedule
for three categories: redemption, outpay and own-and-ben. The core has
these parts:

- **Discovery** (`listFilesByPrefix`), in its two variants:
  - the export service's variant, which rejects a staging path that is
    not a directory;
  - the import service's variant, which reports every listing failure
    with one message.
- **Relocation** (`moveFiles`). It creates the export folder when it is
  missing. It then moves each input with replace-existing semantics. A
  failed move is recorded and does not stop the batch.
- **The outcome record** (`FileOperationResult`). It holds the moved base
  names and the failure records.
- **The mapper** (`FileExportMapper.toResponse`). It turns an outcome into
  the on-demand response.
- **The scheduled processor.** `processFilesByType` and its three cron
  entry points run discovery and then relocation. The relocation step is
  skipped when discovery finds nothing, and every exception is swallowed.
- **The global exception handler.** It turns an escaped exception into an
  HTTP 500 "UNKNOWN" response.

The file system is a value of type `Disk`: a map from directory path text
to a node. A node is either a folder, holding named entries, or something
that is not a directory. A `FileSystem` object holds the current disk and
is updated in place by `CreateDirectories` and `Move`. Two things the Java
code gets from the operating system are parameters here:

- Which moves fail is given by a `Faults` oracle: per-path refusals, and
  directories that cannot be created. A source that no longer exists
  always fails, with the source path as the message. A move into an
  export path that is not a folder fails with the "Not a directory" text
  of rename(2).
- The order in which a directory listing reports its entries is given by a
  `seq<string>` that must list every entry exactly once (`IsListing`).

`Relocation.MoveAll` and `Relocation.MoveFilesSpec` state what a
relocation does, as functions of the disk before it. The two imperative
`MoveFiles` methods are proved equal to them. The properties of a
relocation are lemmas about those functions. In the same way, the
scheduler method is proved against `ScheduledRun`. That method returns
the trace of service calls it made.

One would expect every input file name to appear in exactly one of the
outcome's two lists. The code guarantees that only when no two inputs
share a base name (`Relocation.NoFileInBothLists`). Discovery always
returns such a batch (`ExportFileSystemService.DiscoveryNamesDistinct`).
When base names repeat, the outcome depends on the disk:

- A path passed twice usually moves once and then fails because its
  source is gone, so the name lands in both lists.
  `Relocation.DuplicateInputIsReportedTwice` shows this case.
- A path that already lies in the export folder is a move onto itself and
  succeeds both times.
- A refused path fails both times.
- Two sources from different folders with one base name both move, and
  the last one wins.

The model follows the code.

## Model

The accessors `OperationResults.FileOperationResult.GetSuccessfulFiles`,
`GetErrors`, `SuccessCount` and `ErrorCount` (FileOperationResult.java
lines 26-40), `FileTypes.FileType.Name` and `PrefixPattern`,
`FileSystems.FileSystem.Exists` (`Files.exists`) and
`Exceptions.Exception.Message` are definitional: each returns a field or a
constant and has no contract of its own. The members below state their
properties in terms of them.

| member | source | states |
|---|---|---|
| FileSystems.AfterMove | src/main/java/com/nn/exportservice/service/FileSystemService.java:87 | after a replace-existing move, the destination holds exactly what the source held; the source is gone unless it was already in the destination directory; every other path is unchanged; and no directory is created or removed |
| FileSystems.FileSystem.CreateDirectories | src/main/java/com/nn/exportservice/service/FileSystemService.java:73-80 | it fails exactly when the path exists but is not a directory, or the oracle refuses it. On success the path is an empty folder if it was missing, and the disk is otherwise unchanged. On failure nothing changes |
| FileSystems.FileSystem.Move | src/main/java/com/nn/exportservice/service/FileSystemService.java:86-93 | it reports the fault `MoveFault` predicts (missing source first, then refusal, then a destination that is not a folder), leaves the disk untouched when it fails, and otherwise updates it as `AfterMove` |
| OperationResults.FileOperationResult.constructor | src/main/java/com/nn/exportservice/model/FileOperationResult.java:13-16 | a new outcome has no moved files and no failures; it counts zero of each, has no errors and is fully successful |
| OperationResults.FileOperationResult.AddSuccess | src/main/java/com/nn/exportservice/model/FileOperationResult.java:18-20 | appends the name to the moved list, raises the success count by one and leaves the failures untouched |
| OperationResults.FileOperationResult.AddError | src/main/java/com/nn/exportservice/model/FileOperationResult.java:22-24 | appends one failure record with that name and message, raises the error count by one, leaves the moved list untouched, and afterwards the outcome has errors and is not fully successful |
| OperationResults.FileOperationResult.HasErrors | src/main/java/com/nn/exportservice/model/FileOperationResult.java:42-44 | the outcome has errors exactly when its error count is positive |
| OperationResults.FileOperationResult.IsFullySuccessful | src/main/java/com/nn/exportservice/model/FileOperationResult.java:46-48 | the outcome is fully successful exactly when it has no errors |
| OperationResults.GettersReturnCopies | src/test/java/com/nn/exportservice/model/FileOperationResultTest.java:67-76 | changing the list a getter returned leaves the stored moved names as they were |
| FileTypes.PrefixesIncomparable | src/test/java/com/nn/exportservice/controller/FileExportControllerTest.java:64 | no category's prefix is a prefix of another category's prefix |
| FileTypes.CategoriesSelectDisjointNames | src/main/java/com/nn/exportservice/service/ScheduledFileProcessor.java:44 | no file name starts with the prefixes of two different categories |
| ExportFileSystemService.Matching | src/main/java/com/nn/exportservice/service/FileSystemService.java:45-49 | a path is found exactly when it lies directly in the staging folder, the listing reports it, it is a regular file and its base name starts with the prefix; when the listing names each entry once, no path is found twice |
| ExportFileSystemService.NotADirectoryMessage | src/main/java/com/nn/exportservice/service/FileSystemService.java:42 | the message carries the prefix right after its fixed lead-in and ends with the staging path |
| ExportFileSystemService.ListFilesByPrefix | src/main/java/com/nn/exportservice/service/FileSystemService.java:32-58 | a missing staging folder yields an empty list. A staging path that is not a directory is an error naming the prefix and the path, and nothing else is. Otherwise the list holds every staged regular file whose name starts with the prefix, only those, once each |
| ExportFileSystemService.DiscoveryNamesDistinct | src/main/java/com/nn/exportservice/service/FileSystemService.java:45-49 | the files discovery returns never share a base name, so the relocation properties that need distinct names apply to every scheduled run |
| ExportFileSystemService.MoveFiles | src/main/java/com/nn/exportservice/service/FileSystemService.java:68-98 | the call throws "Failed to create export directory: " + the export path, leaving the disk unchanged, exactly when the export folder is missing and cannot be created. Otherwise the outcome and the new disk are those of `MoveFilesSpec` |
| ImportFileSystemService.ListFilesByPrefix | src/main/java/com/nn/importservice/service/FileSystemService.java:33-58 | it finds the same files as the export variant whenever that succeeds. When the staging path is not a directory it fails with "Failed to list files with prefix: " + the prefix. The disk is unchanged |
| ImportFileSystemService.MoveFiles | src/main/java/com/nn/importservice/service/FileSystemService.java:68-103 | same contract as the export variant: a creation failure throws and changes nothing; otherwise the outcome and disk are those of `MoveFilesSpec` |
| Relocation.Names | src/main/java/com/nn/exportservice/service/FileSystemService.java:83 | one base name per input path, in order |
| Relocation.ErrorNames | src/main/java/com/nn/exportservice/service/FileSystemService.java:91 | the file name of each failure record, in order |
| Relocation.MoveAll | src/main/java/com/nn/exportservice/service/FileSystemService.java:82-94 | every input is accounted for: moved names plus failure records number exactly the inputs |
| Relocation.MoveFilesSpec | src/main/java/com/nn/exportservice/service/FileSystemService.java:68-98 | it fails, with the fixed message naming the export path, exactly when the export folder is missing and cannot be created; otherwise moved plus failed number the inputs |
| Relocation.MoveAllIsMerge | src/main/java/com/nn/exportservice/service/FileSystemService.java:82-94 | the moved names and the failed names are an interleaving of the input base names, each list in input order; so, as multisets, they partition the inputs |
| Relocation.MoveAllKeepsDirectories | src/main/java/com/nn/exportservice/service/FileSystemService.java:86-87 | a batch of moves creates and removes no directory, and keeps every folder a folder |
| Relocation.MoveAllFrame | src/main/java/com/nn/exportservice/service/FileSystemService.java:82-94 | a path that is neither an input nor the destination of an input is untouched by the batch |
| Relocation.MoveAllIsolation | src/main/java/com/nn/exportservice/service/FileSystemService.java:86-93 | with distinct base names, each input succeeds or fails on its own: the moved list is the inputs whose move the starting disk allows, and the failure list is the others, each with its own fault message |
| Relocation.MoveAllPlacement | src/main/java/com/nn/exportservice/service/FileSystemService.java:87-88 | with distinct base names, a file that moves ends up in the export folder under its base name with its content, replacing what was there, and its source is gone unless it was already in the export folder |
| Relocation.NoFileInBothLists | src/main/java/com/nn/exportservice/service/FileSystemService.java:82-94 | with distinct base names, no name is both moved and failed, and each input name appears exactly once across the two lists while no other name appears at all |
| Relocation.DuplicateInputIsReportedTwice | src/main/java/com/nn/exportservice/service/FileSystemService.java:82-94 | one example of repeated input: a file in the staging folder passed twice is reported once as moved and then once as failed, because its source is gone |
| Relocation.ExportDirCreatedOnce | src/main/java/com/nn/exportservice/service/FileSystemService.java:72-76 | after a successful relocation the export folder exists, so a second call never tries to create it and cannot fail on creation |
| Relocation.EmptyInput | src/main/java/com/nn/exportservice/service/FileSystemService.java:68-98 | an empty batch moves nothing, reports nothing and only creates the export folder if it was missing |
| Relocation.VanishedFileIsIsolated | src/main/java/com/nn/importservice/service/FileSystemService.java:84-96 | a file that vanished before its turn gives one failure naming it, while the file next to it still moves, and the call returns normally |
| FileExportMapper.ToErrorDetails | src/main/java/com/nn/exportservice/mapper/FileExportMapper.java:15-17 | one error detail per failure record, in order, with the same name and message |
| FileExportMapper.ToResponse | src/main/java/com/nn/exportservice/mapper/FileExportMapper.java:14-25 | the response names the category, counts only the moved files, lists the moved names, and carries one error entry per failure in order |
| FileExportMapper.ResponseAccountsForEveryInput | src/main/java/com/nn/exportservice/mapper/FileExportMapper.java:19-24 | for the outcome of a relocation, files processed plus error entries equal the number of inputs, and their names partition the input base names |
| GlobalExceptionHandler.FailureResponse | src/main/java/com/nn/exportservice/exception/GlobalExceptionHandler.java:21-28 | a failure response has status 500, category "UNKNOWN", zero processed files, no moved names and a single error entry for "system" carrying the message |
| GlobalExceptionHandler.HandleFileSystemException | src/main/java/com/nn/exportservice/exception/GlobalExceptionHandler.java:17-29 | a file-system failure becomes a 500 response whose one error message is the exception's message unchanged |
| GlobalExceptionHandler.HandleGenericException | src/main/java/com/nn/exportservice/exception/GlobalExceptionHandler.java:31-43 | any other exception becomes a 500 response whose one error message starts with "An unexpected error occurred: " and ends with the exception's message |
| GlobalExceptionHandler.Handle | src/main/java/com/nn/exportservice/exception/GlobalExceptionHandler.java:17-43 | file-system exceptions go to their own handler, all others to the generic one; every response is a 500 |
| ScheduledFileProcessor.ProcessFilesByType | src/main/java/com/nn/exportservice/service/ScheduledFileProcessor.java:38-66 | the calls made and the disk left behind are those of `ScheduledRun`: discovery with the category's prefix, then relocation of what was found, unless nothing was found or an exception was swallowed |
| ScheduledFileProcessor.ProcessRedemptionFiles | src/main/java/com/nn/exportservice/service/ScheduledFileProcessor.java:23-26 | the run is the redemption category's scheduled run |
| ScheduledFileProcessor.ProcessOutpayFiles | src/main/java/com/nn/exportservice/service/ScheduledFileProcessor.java:28-31 | the run is the outpay category's scheduled run |
| ScheduledFileProcessor.ProcessOwnAndBenFiles | src/main/java/com/nn/exportservice/service/ScheduledFileProcessor.java:33-36 | the run is the own-and-ben category's scheduled run |
| ScheduledFileProcessor.ControlRule | src/main/java/com/nn/exportservice/service/ScheduledFileProcessor.java:44-62 | relocation is called exactly when discovery succeeded with a non-empty list, and then with exactly that list; a discovery failure or an empty list leaves the disk unchanged |
| ScheduledFileProcessor.CategoriesDiscoverDisjointFiles | src/main/java/com/nn/exportservice/service/ScheduledFileProcessor.java:44 | discovery for two different categories never finds the same file |
| ScheduledFileProcessor.OtherCategoriesUntouched | src/main/java/com/nn/exportservice/service/ScheduledFileProcessor.java:44-51 | one category's run leaves every file of another category where it was |
| ScheduledFileProcessor.RedemptionScenarioListing | src/test/java/com/nn/importservice/service/FileSystemServiceTest.java:40-49 | in a folder with two redemption files and one outpay file, discovery for "redemption" finds the two redemption files |
| ScheduledFileProcessor.RedemptionScenario | src/main/java/com/nn/exportservice/service/ScheduledFileProcessor.java:23-51 | in that folder, the redemption run lists and then moves the two redemption files into a newly created export folder with their contents, and leaves the outpay file in place |

## Left out

- Logging (`log.*`) and the per-thread `LoggingContext` are not modelled. They have no effect on results.
- The Spring wiring is not modelled: cron expressions, `@Scheduled` and the configuration properties. (The choice between the two exception handlers is modelled, by `GlobalExceptionHandler.Handle`.) The staging and export folder paths are parameters.
- The HTTP controller is not modelled. It only composes discovery, relocation and the mapper, and `ToResponse` covers the response it builds.
- The I/O exception messages of `Files.move` come from the operating system. The model uses the source path text for a missing source, and "<source> -> <target>: Not a directory" (the ENOTDIR text of rename(2)) when the export path exists but is not a folder. For every other refusal it uses the oracle's message.
- Listing failures other than "the staging path is not a directory" are not modelled, for example permission errors or I/O errors while walking. `ExportFileSystemService.ListFilesByPrefix` therefore never produces the second error message ("Failed to list files with prefix: " + prefix alone) of the export variant.
- `Files.createDirectories` is modelled as creating one folder. Parent folders, and the path hierarchy in general, are not modelled: a directory is addressed by its whole path text.
- Symbolic links, file attributes, atomicity and concurrent changes to the folders during a run are not modelled. A vanished source is modelled only as a path missing from the disk.
- Null exception messages (Java prints them as "null") are not modelled. A message is always a string.
- `FileType.java` is not part of this model. The three prefixes ("redemption", "outpay", "own_and_ben") and the names are those the service's controller and mapper tests use.
- The import service's own `FileOperationResult`, `FileSystemException` and `LoggingContext` are not part of this model. The import variant is modelled with the export service's versions.
- ScheduledFileProcessor.ProcessFilesByType: the exceptions it swallows are only the ones the two service calls can raise. Runtime failures elsewhere, such as in logging, are not modelled.
