/**
  * The command-building sugar as functions over a command's state: the three
  * validators, the registrations (what each one does to the state), the
  * receipt lookups and the stream selections, with the lemmas that relate them.
  * The class in command.dfy performs the registrations in place and is proved
  * against the functions here.
  */
module Sugar {
  import opened Results
  import opened Ffmpeg

  // ---------------------------------------------------------------------------
  // File names

  /** `char.IsWhiteSpace`: the Unicode space, line and paragraph separators and the control white space. */
  predicate IsWhiteSpace(ch: char) {
    var n := ch as int;
    (0x09 <= n <= 0x0D) || n == 0x20 || n == 0x85 || n == 0xA0 || n == 0x1680 ||
    (0x2000 <= n <= 0x200A) || n == 0x2028 || n == 0x2029 || n == 0x202F ||
    n == 0x205F || n == 0x3000
  }

  /** `string.IsNullOrWhiteSpace` (a null name is modelled as the empty one). */
  predicate IsNullOrWhiteSpace(s: string) {
    forall i :: 0 <= i < |s| ==> IsWhiteSpace(s[i])
  }

  /** The owner's command list holds a command with this command's id. */
  predicate IsRegistered(c: CommandState) {
    c.owner.Some? && c.id in c.owner.value.commandList
  }

  // ---------------------------------------------------------------------------
  // Validators

  /**
    * `ValidateOutput`: five checks in a fixed order; the first that fails
    * decides the error.
    */
  function ValidateOutput(c: CommandState, fileName: string, collection: Option<SettingsCollection>): (r: Outcome<SugarError>)
    ensures r.Pass? <==>
      c.owner.Some? && collection.Some? && collection.value.kind == Output &&
      !IsNullOrWhiteSpace(fileName) && IsRegistered(c)
    ensures r == Fail(NoOwner) <==> c.owner.None?
    ensures r == Fail(NullCollection) <==> c.owner.Some? && collection.None?
    ensures r == Fail(NotOutputCollection) <==>
      c.owner.Some? && collection.Some? && collection.value.kind != Output
    ensures r == Fail(BlankFileName) <==>
      c.owner.Some? && collection.Some? && collection.value.kind == Output && IsNullOrWhiteSpace(fileName)
    ensures r == Fail(NotInOwnerCommandList) <==>
      c.owner.Some? && collection.Some? && collection.value.kind == Output &&
      !IsNullOrWhiteSpace(fileName) && !IsRegistered(c)
  {
    if c.owner.None? then Fail(NoOwner)
    else if collection.None? then Fail(NullCollection)
    else if collection.value.kind != Output then Fail(NotOutputCollection)
    else if IsNullOrWhiteSpace(fileName) then Fail(BlankFileName)
    else if c.id !in c.owner.value.commandList then Fail(NotInOwnerCommandList)
    else Pass
  }

  /** `ValidateInput`: owner, then file name, then membership. */
  function ValidateInput(c: CommandState, fileName: string): (r: Outcome<SugarError>)
    ensures r.Pass? <==> c.owner.Some? && !IsNullOrWhiteSpace(fileName) && IsRegistered(c)
    ensures r == Fail(NoOwner) <==> c.owner.None?
    ensures r == Fail(BlankFileName) <==> c.owner.Some? && IsNullOrWhiteSpace(fileName)
    ensures r == Fail(NotInOwnerCommandList) <==>
      c.owner.Some? && !IsNullOrWhiteSpace(fileName) && !IsRegistered(c)
  {
    if c.owner.None? then Fail(NoOwner)
    else if IsNullOrWhiteSpace(fileName) then Fail(BlankFileName)
    else if c.id !in c.owner.value.commandList then Fail(NotInOwnerCommandList)
    else Pass
  }

  /** `ValidateRecipts`: owner, then a non-null list; membership is not checked. */
  function ValidateReceipts(c: CommandState, receipts: Option<seq<Receipt>>): (r: Outcome<SugarError>)
    ensures r.Pass? <==> c.owner.Some? && receipts.Some?
    ensures r == Fail(NoOwner) <==> c.owner.None?
    ensures r == Fail(NullReceipts) <==> c.owner.Some? && receipts.None?
  {
    if c.owner.None? then Fail(NoOwner)
    else if receipts.None? then Fail(NullReceipts)
    else Pass
  }

  // ---------------------------------------------------------------------------
  // Registration, as state transitions

  /** The state after a registration call, and whether the call raised. */
  datatype Applied = Applied(after: CommandState, outcome: Outcome<SugarError>)

  /** The output that `WithOutput` builds for a file: from the resource alone. */
  function OutputFor(fileName: string): CommandOutput {
    CommandOutput(ResourceFrom(fileName))
  }

  /** The outputs registered for a list of files, in list order. */
  function OutputsFor(files: seq<string>): seq<CommandOutput> {
    if files == [] then [] else [OutputFor(files[0])] + OutputsFor(files[1..])
  }

  /**
    * `WithOutput(fileName, collection)`: on success exactly one output, for
    * that file, is appended; on failure nothing changes.  The collection is
    * validated but not attached.
    */
  function AddOutput(c: CommandState, fileName: string, collection: Option<SettingsCollection>): (r: Applied)
    ensures r.outcome == ValidateOutput(c, fileName, collection)
    ensures r.after.id == c.id && r.after.owner == c.owner && r.after.resources == c.resources
    ensures r.outcome.Pass? ==> r.after.outputs == c.outputs + [OutputFor(fileName)]
    ensures r.outcome.Fail? ==> r.after == c
  {
    match ValidateOutput(c, fileName, collection)
    case Fail(e) => Applied(c, Fail(e))
    case Pass =>
      var resource := ResourceFrom(fileName);
      var commandOutput := CommandOutput(resource);
      Applied(c.(outputs := c.outputs + [commandOutput]), Pass)
  }

  /** `files.ForEach(f => command.WithOutput(f, collection))`: stops at the first raise, keeping earlier outputs. */
  function AddOutputsEach(c: CommandState, files: seq<string>, collection: Option<SettingsCollection>): (r: Applied)
    ensures r.after.id == c.id && r.after.owner == c.owner && r.after.resources == c.resources
    ensures c.outputs <= r.after.outputs
    ensures r.outcome.Pass? ==> |r.after.outputs| == |c.outputs| + |files|
    decreases |files|
  {
    if files == [] then Applied(c, Pass)
    else
      var step := AddOutput(c, files[0], collection);
      if step.outcome.Fail? then step
      else AddOutputsEach(step.after, files[1..], collection)
  }

  /** `WithOutput(files, collection)`: a null or empty list raises before any change. */
  function AddOutputs(c: CommandState, files: seq<string>, collection: Option<SettingsCollection>): (r: Applied)
    ensures |files| == 0 ==> r == Applied(c, Fail(EmptyFileList))
    ensures r.after.id == c.id && r.after.owner == c.owner && r.after.resources == c.resources
    ensures c.outputs <= r.after.outputs
  {
    if |files| == 0 then Applied(c, Fail(EmptyFileList))
    else AddOutputsEach(c, files, collection)
  }

  /** How many leading files of the list pass `ValidateOutput`. */
  function AcceptedOutputs(c: CommandState, files: seq<string>, collection: Option<SettingsCollection>): (k: nat)
    ensures k <= |files|
    ensures forall j :: 0 <= j < k ==> ValidateOutput(c, files[j], collection).Pass?
    ensures k < |files| ==> ValidateOutput(c, files[k], collection).Fail?
    decreases |files|
  {
    if files == [] || ValidateOutput(c, files[0], collection).Fail? then 0
    else 1 + AcceptedOutputs(c, files[1..], collection)
  }

  /** `Resource.LoadMetadata()`: probes the file; a failed probe raises. */
  function LoadMetadata(resource: Resource, probe: Prober): (r: Result<Resource, SugarError>)
    ensures r.Success? <==> probe(resource.path).Some?
    ensures r.Success? ==> r.value == Resource(resource.path, probe(resource.path))
    ensures r.Failure? ==> r.error == ProbeFailure
  {
    match probe(resource.path)
    case None => Failure(ProbeFailure)
    case Some(m) => Success(resource.(metadata := Some(m)))
  }

  /** The input that `WithInput` registers for a file whose probe succeeded. */
  function LoadedInput(fileName: string, settings: Option<SettingsCollection>, probe: Prober): CommandResource {
    CommandResource(Resource(fileName, probe(fileName)), Given(settings))
  }

  /** The inputs the bulk `WithInput` registers for a list of files, in list order. */
  function InputsFor(files: seq<string>, probe: Prober): seq<CommandResource> {
    if files == [] then [] else [LoadedInput(files[0], Some(ForInput()), probe)] + InputsFor(files[1..], probe)
  }

  /**
    * `WithInput(fileName, settings)`: validate, probe, then append exactly one
    * input; a validation or probe failure changes nothing.
    */
  function AddInput(c: CommandState, fileName: string, settings: Option<SettingsCollection>, probe: Prober): (r: Applied)
    ensures ValidateInput(c, fileName).Fail? ==> r.outcome == ValidateInput(c, fileName)
    ensures ValidateInput(c, fileName).Pass? && probe(fileName).None? ==> r.outcome == Fail(ProbeFailure)
    ensures r.outcome.Pass? <==> ValidateInput(c, fileName).Pass? && probe(fileName).Some?
    ensures r.after.id == c.id && r.after.owner == c.owner && r.after.outputs == c.outputs
    ensures r.outcome.Pass? ==> r.after.resources == c.resources + [LoadedInput(fileName, settings, probe)]
    ensures r.outcome.Fail? ==> r.after == c
  {
    match ValidateInput(c, fileName)
    case Fail(e) => Applied(c, Fail(e))
    case Pass =>
      match LoadMetadata(ResourceFrom(fileName), probe)
      case Failure(e) => Applied(c, Fail(e))
      case Success(resource) =>
        var commandResource := CommandResource(resource, Given(settings));
        Applied(c.(resources := c.resources + [commandResource]), Pass)
  }

  /** `WithInputNoLoad(fileName)`: validate, then append exactly one unprobed input. */
  function AddInputNoLoad(c: CommandState, fileName: string): (r: Applied)
    ensures r.outcome == ValidateInput(c, fileName)
    ensures r.after.id == c.id && r.after.owner == c.owner && r.after.outputs == c.outputs
    ensures r.outcome.Pass? ==>
      r.after.resources == c.resources + [CommandResource(ResourceFrom(fileName), DefaultSettings)]
    ensures r.outcome.Fail? ==> r.after == c
  {
    match ValidateInput(c, fileName)
    case Fail(e) => Applied(c, Fail(e))
    case Pass =>
      var commandResource := CommandResource(ResourceFrom(fileName), DefaultSettings);
      Applied(c.(resources := c.resources + [commandResource]), Pass)
  }

  /** `files.ForEach(f => command.WithInput(f))`: stops at the first raise, keeping earlier inputs. */
  function AddInputsEach(c: CommandState, files: seq<string>, probe: Prober): (r: Applied)
    ensures r.after.id == c.id && r.after.owner == c.owner && r.after.outputs == c.outputs
    ensures c.resources <= r.after.resources
    ensures r.outcome.Pass? ==> |r.after.resources| == |c.resources| + |files|
    decreases |files|
  {
    if files == [] then Applied(c, Pass)
    else
      var step := AddInput(c, files[0], Some(ForInput()), probe);
      if step.outcome.Fail? then step
      else AddInputsEach(step.after, files[1..], probe)
  }

  /** `WithInput(files)`: a null or empty list raises before any change. */
  function AddInputs(c: CommandState, files: seq<string>, probe: Prober): (r: Applied)
    ensures |files| == 0 ==> r == Applied(c, Fail(EmptyFileList))
    ensures r.after.id == c.id && r.after.owner == c.owner && r.after.outputs == c.outputs
    ensures c.resources <= r.after.resources
  {
    if |files| == 0 then Applied(c, Fail(EmptyFileList))
    else AddInputsEach(c, files, probe)
  }

  /** A file the single `WithInput(fileName)` accepts: it validates and its probe succeeds. */
  predicate InputAccepted(c: CommandState, fileName: string, probe: Prober) {
    ValidateInput(c, fileName).Pass? && probe(fileName).Some?
  }

  /** How many leading files of the list the single `WithInput` accepts. */
  function AcceptedInputs(c: CommandState, files: seq<string>, probe: Prober): (k: nat)
    ensures k <= |files|
    ensures forall j :: 0 <= j < k ==> InputAccepted(c, files[j], probe)
    ensures k < |files| ==> !InputAccepted(c, files[k], probe)
    decreases |files|
  {
    if files == [] || !InputAccepted(c, files[0], probe) then 0
    else 1 + AcceptedInputs(c, files[1..], probe)
  }

  // ---------------------------------------------------------------------------
  // Receipt lookup

  /** `ResourceReceiptAt(index)`: the receipt of the index-th input, bounds-checked. */
  function ResourceReceiptAt(c: CommandState, index: int): (r: Result<Receipt, SugarError>)
    ensures r.Success? <==> 0 <= index < |c.resources|
    ensures r.Failure? ==> r.error == IndexOutOfRange
    ensures r.Success? ==> r.value == GetReceipt(c.resources[index])
  {
    if index < 0 || index >= |c.resources| then Failure(IndexOutOfRange)
    else Success(GetReceipt(c.resources[index]))
  }

  /** `LastInputReceipt()`: null when there are no inputs, else the last input's receipt. */
  function LastInputReceipt(c: CommandState): (r: Option<Receipt>)
    ensures r.None? <==> |c.resources| == 0
    ensures r.Some? ==> ResourceReceiptAt(c, |c.resources| - 1) == Success(r.value)
  {
    if |c.resources| == 0 then None
    else Some(GetReceipt(c.resources[|c.resources| - 1]))
  }

  /** `Resources.Select(r => r.GetReceipt())`: one receipt per input, in order. */
  function ReceiptsOf(resources: seq<CommandResource>): (r: seq<Receipt>)
    ensures |r| == |resources|
    ensures forall i :: 0 <= i < |resources| ==> r[i] == GetReceipt(resources[i])
  {
    if resources == [] then [] else [GetReceipt(resources[0])] + ReceiptsOf(resources[1..])
  }

  // ---------------------------------------------------------------------------
  // Stream selection

  /** `WithStreams(List<CommandReceipt>)`: validate, then a stage holding exactly the given list. */
  function WithStreams(c: CommandState, receipts: Option<seq<Receipt>>): (r: Result<CommandStage, SugarError>)
    ensures r.Success? <==> ValidateReceipts(c, receipts).Pass?
    ensures r.Failure? ==> Fail(r.error) == ValidateReceipts(c, receipts)
    ensures r.Success? ==> r.value.command == c.id && r.value.receipts == receipts.value
  {
    match ValidateReceipts(c, receipts)
    case Fail(e) => Failure(e)
    case Pass => Success(CommandStage(c.id, receipts.value))
  }

  /** `WithStreams(params CommandReceipt[])`: the list overload on a copy of the array. */
  function WithStreamsOf(c: CommandState, receipts: seq<Receipt>): (r: Result<CommandStage, SugarError>)
    ensures r == WithStreams(c, Some(receipts))
    ensures r.Success? <==> c.owner.Some?
  {
    var receiptList := receipts;
    WithStreams(c, Some(receiptList))
  }

  /** `WithStream(receipt)`: a one-receipt stage. */
  function WithStream(c: CommandState, receipt: Receipt): (r: Result<CommandStage, SugarError>)
    ensures r.Success? <==> c.owner.Some?
    ensures r.Failure? ==> r.error == NoOwner
    ensures r.Success? ==> r.value.command == c.id
    ensures r.Success? ==> |r.value.receipts| == 1 && r.value.receipts[0] == receipt
  {
    WithStreams(c, Some([receipt]))
  }

  /** `WithStreamAt(index)`: the index lookup, then a one-receipt stage. */
  function WithStreamAt(c: CommandState, index: int): (r: Result<CommandStage, SugarError>)
    ensures r.Success? <==> 0 <= index < |c.resources| && c.owner.Some?
    ensures !(0 <= index < |c.resources|) ==> r == Failure(IndexOutOfRange)
    ensures 0 <= index < |c.resources| && c.owner.None? ==> r == Failure(NoOwner)
    ensures r.Success? ==> r.value.command == c.id
    ensures r.Success? ==> r.value.receipts == [ResourceReceiptAt(c, index).value]
  {
    match ResourceReceiptAt(c, index)
    case Failure(e) => Failure(e)
    case Success(receipt) => WithStreamsOf(c, [receipt])
  }

  /** `WithStreamsFrom(CommandResource)`: a null resource raises first; else the resource's receipt. */
  function WithStreamsFromResource(c: CommandState, resource: Option<CommandResource>): (r: Result<CommandStage, SugarError>)
    ensures resource.None? ==> r == Failure(NullResource)
    ensures resource.Some? ==> (r.Success? <==> c.owner.Some?)
    ensures resource.Some? && c.owner.None? ==> r == Failure(NoOwner)
    ensures r.Success? ==> r.value.command == c.id
    ensures r.Success? ==> r.value.receipts == [GetReceipt(resource.value)]
  {
    if resource.None? then Failure(NullResource)
    else WithStreamsOf(c, [GetReceipt(resource.value)])
  }

  /** `WithStreamsFrom(Filterchain)`: a null chain raises first; else exactly the chain's receipts. */
  function WithStreamsFromFilterchain(c: CommandState, filterchain: Option<Filterchain>): (r: Result<CommandStage, SugarError>)
    ensures filterchain.None? ==> r == Failure(NullFilterchain)
    ensures filterchain.Some? ==> (r.Success? <==> c.owner.Some?)
    ensures filterchain.Some? && c.owner.None? ==> r == Failure(NoOwner)
    ensures r.Success? ==> r.value.command == c.id
    ensures r.Success? ==> r.value.receipts == filterchain.value.outputReceipts
  {
    if filterchain.None? then Failure(NullFilterchain)
    else WithStreams(c, Some(GetReceipts(filterchain.value)))
  }

  /** `WithAllStreams()`: a stage with every input's receipt, in registration order. */
  function WithAllStreams(c: CommandState): (r: Result<CommandStage, SugarError>)
    ensures r.Success? <==> c.owner.Some?
    ensures r.Failure? ==> r.error == NoOwner
    ensures r.Success? ==> r.value.command == c.id
    ensures r.Success? ==> |r.value.receipts| == |c.resources|
    ensures r.Success? ==>
      forall i :: 0 <= i < |c.resources| ==> ResourceReceiptAt(c, i) == Success(r.value.receipts[i])
  {
    var receiptList := ReceiptsOf(c.resources);
    WithStreams(c, Some(receiptList))
  }

  // ---------------------------------------------------------------------------
  // Lemmas: check order

  /** With an owner present, a collection that is not of type Output is rejected whatever the file name. */
  lemma OutputRoleCheckedBeforeFileName(c: CommandState, fileName: string, collection: SettingsCollection)
    requires c.owner.Some? && collection.kind != Output
    ensures ValidateOutput(c, fileName, Some(collection)) == Fail(NotOutputCollection)
    ensures AddOutput(c, fileName, Some(collection)) == Applied(c, Fail(NotOutputCollection))
  {
  }

  /** Only the role of the collection matters to `WithOutput`: its settings are not attached. */
  lemma OutputIgnoresCollectionSettings(c: CommandState, fileName: string, a: SettingsCollection, b: SettingsCollection)
    requires a.kind == b.kind
    ensures AddOutput(c, fileName, Some(a)) == AddOutput(c, fileName, Some(b))
  {
  }

  /** A command without an owner is inert: every registration and stream selection raises `NoOwner`. */
  lemma UnownedCommandIsInert(c: CommandState, fileName: string, collection: Option<SettingsCollection>,
                               files: seq<string>, probe: Prober, receipts: Option<seq<Receipt>>,
                               receipt: Receipt, index: int, resource: CommandResource, filterchain: Filterchain)
    requires c.owner.None?
    ensures AddOutput(c, fileName, collection) == Applied(c, Fail(NoOwner))
    ensures AddInput(c, fileName, collection, probe) == Applied(c, Fail(NoOwner))
    ensures AddInputNoLoad(c, fileName) == Applied(c, Fail(NoOwner))
    ensures |files| > 0 ==> AddOutputs(c, files, collection) == Applied(c, Fail(NoOwner))
    ensures |files| > 0 ==> AddInputs(c, files, probe) == Applied(c, Fail(NoOwner))
    ensures WithStreams(c, receipts) == Failure(NoOwner)
    ensures WithAllStreams(c) == Failure(NoOwner)
    ensures WithStream(c, receipt) == Failure(NoOwner)
    ensures 0 <= index < |c.resources| ==> WithStreamAt(c, index) == Failure(NoOwner)
    ensures WithStreamsFromResource(c, Some(resource)) == Failure(NoOwner)
    ensures WithStreamsFromFilterchain(c, Some(filterchain)) == Failure(NoOwner)
  {
  }

  /**
    * The receipt lookups do not consult the owner at all, and `WithStreamAt`
    * reports a bad index before a missing owner.
    */
  lemma LookupsIgnoreOwner(c: CommandState, index: int)
    requires c.owner.None?
    ensures 0 <= index < |c.resources| ==> ResourceReceiptAt(c, index).Success?
    ensures |c.resources| > 0 ==> LastInputReceipt(c).Some?
    ensures !(0 <= index < |c.resources|) ==> WithStreamAt(c, index) == Failure(IndexOutOfRange)
  {
  }

  /** Stream selection checks the owner but not the owner's command list. */
  lemma StreamsSkipMembership(c: CommandState, receipts: seq<Receipt>)
    requires c.owner.Some? && !IsRegistered(c)
    ensures WithStreamsOf(c, receipts) == Success(CommandStage(c.id, receipts))
    ensures forall fileName :: !IsNullOrWhiteSpace(fileName) ==>
      ValidateInput(c, fileName) == Fail(NotInOwnerCommandList)
  {
  }

  // ---------------------------------------------------------------------------
  // Lemmas: bulk registration stops at the first failure, without rollback

  /** The accepted prefix depends only on the command's id and owner, not on what it has registered. */
  lemma AcceptedOutputsFrame(c: CommandState, d: CommandState, files: seq<string>,
                             collection: Option<SettingsCollection>)
    requires c.id == d.id && c.owner == d.owner
    ensures AcceptedOutputs(c, files, collection) == AcceptedOutputs(d, files, collection)
  {
  }

  /** Outputs for a list are the outputs for its first element, then for the rest. */
  lemma OutputsForPrefix(files: seq<string>, k: nat)
    requires 0 < k <= |files|
    ensures OutputsFor(files[..k]) == [OutputFor(files[0])] + OutputsFor(files[1..][..k - 1])
  {
    assert files[..k][1..] == files[1..][..k - 1];
  }

  /**
    * Bulk `WithOutput`: if file k is the first one rejected, exactly the
    * outputs for files 0..k-1 have been appended, in order, and the error is
    * file k's; if none is rejected, one output per file has been appended.
    */
  lemma {:induction false} AddOutputsEachStopsAtFirstRejection(c: CommandState, files: seq<string>,
                                                               collection: Option<SettingsCollection>)
    ensures var k := AcceptedOutputs(c, files, collection);
      AddOutputsEach(c, files, collection) ==
        Applied(c.(outputs := c.outputs + OutputsFor(files[..k])),
                if k == |files| then Pass else ValidateOutput(c, files[k], collection))
    decreases |files|
  {
    var k := AcceptedOutputs(c, files, collection);
    if files == [] {
      assert files[..k] == [];
    } else if ValidateOutput(c, files[0], collection).Fail? {
      assert files[..k] == [];
    } else {
      var step := AddOutput(c, files[0], collection);
      AddOutputsEachStopsAtFirstRejection(step.after, files[1..], collection);
      AcceptedOutputsFrame(step.after, c, files[1..], collection);
      OutputsForPrefix(files, k);
    }
  }

  /** Inputs for a list are the input for its first element, then for the rest. */
  lemma InputsForPrefix(files: seq<string>, probe: Prober, k: nat)
    requires 0 < k <= |files|
    ensures InputsFor(files[..k], probe) == [LoadedInput(files[0], Some(ForInput()), probe)] + InputsFor(files[1..][..k - 1], probe)
  {
    assert files[..k][1..] == files[1..][..k - 1];
  }

  /** The accepted prefix of inputs depends only on the command's id and owner. */
  lemma AcceptedInputsFrame(c: CommandState, d: CommandState, files: seq<string>, probe: Prober)
    requires c.id == d.id && c.owner == d.owner
    ensures AcceptedInputs(c, files, probe) == AcceptedInputs(d, files, probe)
  {
  }

  /** The error the single `WithInput(fileName)` raises for a file it does not accept. */
  function InputRejection(c: CommandState, fileName: string, probe: Prober): (r: Outcome<SugarError>)
    ensures r.Pass? <==> InputAccepted(c, fileName, probe)
    ensures ValidateInput(c, fileName).Fail? ==> r == ValidateInput(c, fileName)
    ensures ValidateInput(c, fileName).Pass? && probe(fileName).None? ==> r == Fail(ProbeFailure)
  {
    AddInput(c, fileName, Some(ForInput()), probe).outcome
  }

  /**
    * Bulk `WithInput`: if file k is the first one rejected (by validation or
    * by the probe), exactly the inputs for files 0..k-1 have been appended, in
    * order, and the error is file k's.
    */
  lemma {:induction false} AddInputsEachStopsAtFirstRejection(c: CommandState, files: seq<string>, probe: Prober)
    ensures var k := AcceptedInputs(c, files, probe);
      AddInputsEach(c, files, probe) ==
        Applied(c.(resources := c.resources + InputsFor(files[..k], probe)),
                if k == |files| then Pass else InputRejection(c, files[k], probe))
    decreases |files|
  {
    var k := AcceptedInputs(c, files, probe);
    if files == [] {
      assert files[..k] == [];
    } else if !InputAccepted(c, files[0], probe) {
      assert files[..k] == [];
    } else {
      var step := AddInput(c, files[0], Some(ForInput()), probe);
      AddInputsEachStopsAtFirstRejection(step.after, files[1..], probe);
      AcceptedInputsFrame(step.after, c, files[1..], probe);
      InputsForPrefix(files, probe, k);
    }
  }

  // ---------------------------------------------------------------------------
  // Lemmas: lookups and selections against registrations

  /** The receipts of a list with one more input are the old receipts and the new input's. */
  lemma ReceiptsOfAppend(resources: seq<CommandResource>, r: CommandResource)
    ensures ReceiptsOf(resources + [r]) == ReceiptsOf(resources) + [GetReceipt(r)]
  {
  }

  /**
    * After a successful registration of one input, every earlier index still
    * yields its old receipt, the new index yields the new input's receipt, and
    * `LastInputReceipt` is that receipt.
    */
  lemma ReceiptsAfterInput(c: CommandState, d: CommandState, added: CommandResource, i: int)
    requires d.resources == c.resources + [added]
    ensures 0 <= i < |c.resources| ==> ResourceReceiptAt(d, i) == ResourceReceiptAt(c, i)
    ensures ResourceReceiptAt(d, |c.resources|) == Success(GetReceipt(added))
    ensures LastInputReceipt(d) == Some(GetReceipt(added))
  {
  }

  /**
    * Selecting all streams after one more `WithInputNoLoad` gives the earlier
    * selection followed by the new input's receipt; an earlier stage is a
    * snapshot and is not affected.
    */
  lemma AllStreamsAfterInputNoLoad(c: CommandState, fileName: string)
    requires c.owner.Some?
    requires AddInputNoLoad(c, fileName).outcome.Pass?
    ensures WithAllStreams(AddInputNoLoad(c, fileName).after).value.receipts ==
            WithAllStreams(c).value.receipts + [GetReceipt(CommandResource(ResourceFrom(fileName), DefaultSettings))]
  {
    ReceiptsOfAppend(c.resources, CommandResource(ResourceFrom(fileName), DefaultSettings));
  }

  /**
    * After a bulk `WithInput` that accepts every file, the input registered
    * for file j sits at index (inputs before the call) + j.
    */
  lemma BulkInputsIndexedInOrder(c: CommandState, files: seq<string>, probe: Prober, j: int)
    requires AddInputs(c, files, probe).outcome.Pass?
    requires 0 <= j < |files|
    ensures ResourceReceiptAt(AddInputs(c, files, probe).after, |c.resources| + j) ==
            Success(GetReceipt(LoadedInput(files[j], Some(ForInput()), probe)))
  {
    AddInputsEachStopsAtFirstRejection(c, files, probe);
    var k := AcceptedInputs(c, files, probe);
    assert k == |files|;
    assert files[..k] == files;
    InputsForAt(files, probe, j);
  }

  /** The j-th input registered for a list is the one for its j-th file. */
  lemma {:induction false} InputsForAt(files: seq<string>, probe: Prober, j: int)
    requires 0 <= j < |files|
    ensures |InputsFor(files, probe)| == |files|
    ensures InputsFor(files, probe)[j] == LoadedInput(files[j], Some(ForInput()), probe)
    decreases |files|
  {
    if j > 0 {
      InputsForAt(files[1..], probe, j - 1);
    } else if |files| > 1 {
      InputsForAt(files[1..], probe, 0);
    }
  }
}
