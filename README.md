# HudlFfmpeg command-building sugar, modelled in Dafny

This project models the "sugar" extension methods of HudlFfmpeg
(`Sugar/FfmpegCommandExtensions.cs`): the shortcuts that register inputs and
outputs on an `FfmpegCommand` and build `CommandStage` selections of stream
receipts.

- `results.dfy`, module `Results`: `Option`, `Result` and `Outcome`. These
  stand in for null returns and for the exceptions the sugar throws.
- `ffmpeg.dfy`, module `Ffmpeg`: the collaborators as values. These are
  resources, settings collections (only their Input/Output role is
  inspected), command resources and outputs, receipts, filterchains, stages
  and the owner's command list. `CommandState` is what a command holds: its
  id, its optional owner, and its inputs and outputs in registration order.
  `SugarError` has one constructor per distinct `throw` in the sugar, plus the
  metadata probe's failure.
- `sugar.dfy`, module `Sugar`: the three validators, the receipt lookups and
  the stream selections, as functions over a `CommandState`. Each
  registration is also a function (`Add*`) that gives the state after the
  call and whether the call raised. The module also holds the lemmas: the
  order of the checks, an unowned command is inert, bulk registration stops
  at the first failure without rollback, and index lookups and selections
  agree with the registration order.
- `command.dfy`, module `CommandBuilder`: class `FfmpegCommand` with the
  registries as `seq` fields. The registering sugar runs as methods that
  append in place. Each method is proved against its `Sugar.Add*`
  specification. The bulk methods loop over the file list and return at the
  first failure.

Behaviour of the sugar worth noting:

- Stream selection (`WithStreams` and everything built on it) checks only
  for an owner and a non-null list. It does not check the owner's command
  list (`Sugar.StreamsSkipMembership`).
- `ResourceReceiptAt` and `LastInputReceipt` check neither the owner nor
  membership. `WithStreamAt` reports a bad index before a missing owner
  (`Sugar.LookupsIgnoreOwner`).
- File names are rejected when they are null, empty or only white space
  (`string.IsNullOrWhiteSpace`), not only when they are empty.

## Model

| member | source | states |
|---|---|---|
| `Sugar.ValidateOutput` | Sugar/FfmpegCommandExtensions.cs:14-40 | Passes exactly when all five checks hold. Each error is raised exactly when its own check fails and every earlier check (owner, collection non-null, Output role, file name, membership) holds. |
| `Sugar.ValidateInput` | Sugar/FfmpegCommandExtensions.cs:73-89 | Passes exactly when the owner is present, the name is not blank and the command is in the owner's list. Each error is raised exactly when its check is the first to fail. |
| `Sugar.ValidateReceipts` | Sugar/FfmpegCommandExtensions.cs:150-161 | Passes exactly when an owner is present and the list is non-null. Otherwise the error is NoOwner, or NullReceipts when an owner is present. Membership is not consulted. |
| `Sugar.AddOutput` | Sugar/FfmpegCommandExtensions.cs:49-60 | The outcome is ValidateOutput's. On success exactly one output, built from the file name alone, is appended at the end. On failure the state is unchanged. Id, owner and inputs never change. |
| `Sugar.AddOutputsEach` | Sugar/FfmpegCommandExtensions.cs:68 | The per-file loop never touches id, owner or inputs and never removes or reorders an existing output. On success it appends one output per file. |
| `Sugar.AddOutputs` | Sugar/FfmpegCommandExtensions.cs:61-71 | An empty list raises EmptyFileList with the state unchanged. Otherwise existing outputs stay a prefix, and id, owner and inputs are unchanged. |
| `Sugar.AcceptedOutputs` | Sugar/FfmpegCommandExtensions.cs:61-71 | The number k of leading files that pass ValidateOutput: all before k pass, file k (if any) fails. |
| `Sugar.AddOutputsEachStopsAtFirstRejection` | Sugar/FfmpegCommandExtensions.cs:61-71 | With k the first rejected file, the bulk call leaves exactly the outputs for files 0..k-1 appended, in order, with nothing rolled back. It raises file k's validation error, or passes when k is the list length. |
| `Sugar.OutputRoleCheckedBeforeFileName` | Sugar/FfmpegCommandExtensions.cs:21-34 | With an owner present, a non-Output collection is rejected as NotOutputCollection whatever the file name, and the state is left unchanged. |
| `Sugar.OutputIgnoresCollectionSettings` | Sugar/FfmpegCommandExtensions.cs:51-57 | Two collections of the same role give identical results, because only the role is checked and the collection is not attached to the output. |
| `Sugar.LoadMetadata` | Sugar/FfmpegCommandExtensions.cs:98-99 | Succeeds exactly when the probe returns metadata, and then yields the same path with that metadata attached. Otherwise it raises ProbeFailure. |
| `Sugar.AddInput` | Sugar/FfmpegCommandExtensions.cs:94-106 | A validation error is raised unchanged. With validation passed, a failed probe raises ProbeFailure. Success happens exactly when both pass, and then appends exactly one probed input with the given settings. Failure leaves the state unchanged. Outputs never change. |
| `Sugar.AddInputNoLoad` | Sugar/FfmpegCommandExtensions.cs:107-118 | The outcome is ValidateInput's. On success exactly one unprobed input, created with default settings, is appended. On failure the state is unchanged. Outputs never change. |
| `Sugar.AddInputsEach` | Sugar/FfmpegCommandExtensions.cs:126 | The per-file loop never touches id, owner or outputs, and existing inputs stay a prefix. On success it appends one input per file. |
| `Sugar.AddInputs` | Sugar/FfmpegCommandExtensions.cs:119-129 | An empty list raises EmptyFileList with the state unchanged. Otherwise existing inputs stay a prefix and outputs are unchanged. |
| `Sugar.AcceptedInputs` | Sugar/FfmpegCommandExtensions.cs:119-129 | The number k of leading files that single-file WithInput accepts (validation and probe both pass). All before k are accepted and file k (if any) is not. |
| `Sugar.InputRejection` | Sugar/FfmpegCommandExtensions.cs:90-106 | The outcome of single-file WithInput passes exactly when the file is accepted. It is the validation error whenever validation fails, and ProbeFailure when validation passes but the probe fails. |
| `Sugar.AddInputsEachStopsAtFirstRejection` | Sugar/FfmpegCommandExtensions.cs:119-129 | With k the first rejected file, exactly the probed inputs for files 0..k-1 are appended, in order, with nothing rolled back. The call raises file k's error, or passes when k is the list length. |
| `Sugar.ResourceReceiptAt` | Sugar/FfmpegCommandExtensions.cs:131-139 | Succeeds exactly when 0 <= index < number of inputs, and then yields that input's receipt. Otherwise it raises IndexOutOfRange. |
| `Sugar.LastInputReceipt` | Sugar/FfmpegCommandExtensions.cs:140-148 | Null (not an error) exactly when there are no inputs. Otherwise it is the receipt ResourceReceiptAt(count-1) yields. |
| `Sugar.ReceiptsOf` | Sugar/FfmpegCommandExtensions.cs:207 | One receipt per input, same length, the i-th being the i-th input's receipt. |
| `Sugar.WithStreams` | Sugar/FfmpegCommandExtensions.cs:177-185 | Succeeds exactly when ValidateReceipts passes, and otherwise raises its error. The stage belongs to the command and holds exactly the given receipts in order (an empty list gives an empty stage). |
| `Sugar.WithStreamsOf` | Sugar/FfmpegCommandExtensions.cs:172-176 | The array overload behaves as the list overload on the same receipts. It succeeds exactly when an owner is present. |
| `Sugar.WithStream` | Sugar/FfmpegCommandExtensions.cs:167-171 | Succeeds exactly when an owner is present (else NoOwner), with a stage of the calling command, of length 1, holding the receipt. |
| `Sugar.WithStreamAt` | Sugar/FfmpegCommandExtensions.cs:162-166 | Succeeds exactly when the index is in range and an owner is present. An out-of-range index raises IndexOutOfRange even without an owner. The stage belongs to the calling command and holds the single receipt ResourceReceiptAt yields. |
| `Sugar.WithStreamsFromResource` | Sugar/FfmpegCommandExtensions.cs:186-194 | A null resource raises NullResource before the owner is checked. Otherwise the call succeeds exactly when an owner is present, and raises NoOwner without one. The stage belongs to the calling command and holds just that resource's receipt. |
| `Sugar.WithStreamsFromFilterchain` | Sugar/FfmpegCommandExtensions.cs:195-203 | A null chain raises NullFilterchain first. Otherwise the call succeeds exactly when an owner is present, and raises NoOwner without one. The stage belongs to the calling command, and its receipts are exactly the chain's output receipts. |
| `Sugar.WithAllStreams` | Sugar/FfmpegCommandExtensions.cs:205-209 | Succeeds exactly when an owner is present (else NoOwner). The stage belongs to the calling command and has one receipt per input, in registration order: the i-th is what ResourceReceiptAt(i) yields. |
| `Sugar.UnownedCommandIsInert` | Sugar/FfmpegCommandExtensions.cs:14-209 | Without an owner, every single and bulk registration (non-empty list) raises NoOwner and changes nothing. WithStreams, WithStream, WithStreamAt with an in-range index, WithStreamsFrom with a non-null resource or chain, and WithAllStreams raise NoOwner too. |
| `Sugar.LookupsIgnoreOwner` | Sugar/FfmpegCommandExtensions.cs:131-166 | Without an owner, in-range lookups and LastInputReceipt still succeed, and WithStreamAt with a bad index raises IndexOutOfRange, not NoOwner. |
| `Sugar.StreamsSkipMembership` | Sugar/FfmpegCommandExtensions.cs:150-185 | A command that has an owner but is not in the owner's list still gets a stage from WithStreams, while ValidateInput rejects it for every non-blank file name. |
| `Sugar.ReceiptsAfterInput` | Sugar/FfmpegCommandExtensions.cs:131-148 | After one more input is appended, earlier indices yield their old receipts. The new index and LastInputReceipt yield the new input's receipt. |
| `Sugar.AllStreamsAfterInputNoLoad` | Sugar/FfmpegCommandExtensions.cs:205-209 | After a successful WithInputNoLoad, WithAllStreams yields the earlier selection followed by the new input's receipt. |
| `Sugar.BulkInputsIndexedInOrder` | Sugar/FfmpegCommandExtensions.cs:119-139 | After a bulk WithInput that accepts every file, index (previous count + j) yields the receipt of the input registered for file j. |
| `CommandBuilder.FfmpegCommand.WithOutputUsing` | Sugar/FfmpegCommandExtensions.cs:49-60 | In place: returns ValidateOutput's outcome and appends OutputFor(fileName) only on success. Only the output registry may change. The new state is AddOutput's. |
| `CommandBuilder.FfmpegCommand.WithOutput` | Sugar/FfmpegCommandExtensions.cs:41-44 | In place: AddOutput with SettingsCollection.ForOutput(). |
| `CommandBuilder.FfmpegCommand.WithOutputsUsing` | Sugar/FfmpegCommandExtensions.cs:61-71 | In place, looping over the files and returning at the first failure. The final state and outcome are AddOutputs's. |
| `CommandBuilder.FfmpegCommand.WithOutputs` | Sugar/FfmpegCommandExtensions.cs:45-48 | In place: AddOutputs with SettingsCollection.ForOutput(). |
| `CommandBuilder.FfmpegCommand.WithInputUsing` | Sugar/FfmpegCommandExtensions.cs:94-106 | In place: passes exactly when validation and the probe pass, and then appends the probed input with the given settings. Only the input registry may change. The new state is AddInput's. |
| `CommandBuilder.FfmpegCommand.WithInput` | Sugar/FfmpegCommandExtensions.cs:90-93 | In place: AddInput with SettingsCollection.ForInput(). |
| `CommandBuilder.FfmpegCommand.WithInputNoLoad` | Sugar/FfmpegCommandExtensions.cs:107-118 | In place: returns ValidateInput's outcome and appends an unprobed input only on success. The new state is AddInputNoLoad's. |
| `CommandBuilder.FfmpegCommand.WithInputs` | Sugar/FfmpegCommandExtensions.cs:119-129 | In place, looping over the files with WithInput and returning at the first failure. The final state and outcome are AddInputs's. |
| `CommandBuilder.RegisterTwoInputs` | Sugar/FfmpegCommandExtensions.cs:107-118 | A client on an owned command: two WithInputNoLoad calls, then WithOutput with a blank name, which returns BlankFileName and leaves 0 outputs, then WithAllStreams, which gives a stage of length 2 with the receipts in registration order. |

## Left out

- `Common/FfmpegScaleRgb.cs` is not part of this model. It only holds three scale values set by its constructor and has no behaviour.
- `Resource.LoadMetadata` (the media probe) is an external call. It is a parameter, `Prober`, that maps a file name to its metadata or to a failure. A failure is modelled as raising before the input is registered. How the probe works is not modelled.
- `Resource.From`, `CommandResource.Create`, `CommandOutput.Create`, `GetReceipt`, `Filterchain.GetReceipts` and `CommandStage` are not part of this model. They are modelled as plain value constructors that record only what the sugar passes to them. Filter arity validation is not in these files and is not modelled.
- `GetReceipt`: a receipt is derived from the input's content, not from object identity. In the source, `CommandResource.Create` returns a new object on every call. In the model, two registrations of the same file with the same settings yield equal inputs and so equal receipts. Receipt uniqueness is therefore neither asserted nor captured.
- A null file name is modelled as the empty string. Both fail the same `IsNullOrWhiteSpace` check with the same exception. A null `files` list is modelled as the empty list, for the same reason.
- Null elements inside a receipt list, and a null array passed to the `params` overload of `WithStreams`, are not modelled.
- Exceptions are `SugarError` values returned in an `Outcome` or `Result`. Exception classes, messages and parameter names are not modelled. Methods return that outcome instead of the command they return in the source for chaining.
- The owner is modelled only through the ids in its command list. Its other contents, and changes to it made outside the sugar, are not modelled.
- `CommandStage` holds the caller's `List` object in the source, so the caller's later edits to that list would show in the stage. The model holds a value copy, so that aliasing is not captured. `WithAllStreams` builds a fresh list in the source too, so its snapshot behaviour is exact.
- Index arguments are `int` in the source. They are only compared, never computed, so unbounded integers lose nothing.
- Argument-string serialisation, settings contents and process execution are outside these files.
