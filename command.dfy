/**
  * The registrations of the sugar performed in place on a command, as the
  * source does through `OutputManager.Add` and `ResourceManager.Add`.  Each
  * method is proved against its specification in the `Sugar` module; the
  * bulk methods loop over the file list and return at the first failure,
  * leaving the registrations already made in place.
  */
module CommandBuilder {
  import opened Results
  import opened Ffmpeg
  import opened Sugar

  /** A command: its id, its owner, and its input and output registries. */
  class FfmpegCommand {
    const id: CommandId
    var owner: Option<Owner>
    var resources: seq<CommandResource>
    var outputs: seq<CommandOutput>

    /** A command with no registrations yet. */
    constructor (id: CommandId, owner: Option<Owner>)
      ensures this.id == id && this.owner == owner
      ensures resources == [] && outputs == []
    {
      this.id := id;
      this.owner := owner;
      resources := [];
      outputs := [];
    }

    /** What the command holds now. */
    function State(): CommandState
      reads this
    {
      CommandState(id, owner, resources, outputs)
    }

    /** `WithOutput(fileName, collection)`. */
    method WithOutputUsing(fileName: string, collection: Option<SettingsCollection>) returns (r: Outcome<SugarError>)
      modifies this`outputs
      ensures r == ValidateOutput(old(State()), fileName, collection)
      ensures outputs == if r.Pass? then old(outputs) + [OutputFor(fileName)] else old(outputs)
      ensures Applied(State(), r) == AddOutput(old(State()), fileName, collection)
    {
      r := ValidateOutput(State(), fileName, collection);
      if r.Pass? {
        var resource := ResourceFrom(fileName);
        var commandOutput := CommandOutput(resource);
        outputs := outputs + [commandOutput];
      }
    }

    /** `WithOutput(fileName)`: with `SettingsCollection.ForOutput()`. */
    method WithOutput(fileName: string) returns (r: Outcome<SugarError>)
      modifies this`outputs
      ensures Applied(State(), r) == AddOutput(old(State()), fileName, Some(ForOutput()))
    {
      r := WithOutputUsing(fileName, Some(ForOutput()));
    }

    /** `WithOutput(files, collection)`: each file in turn, stopping at the first failure. */
    method WithOutputsUsing(files: seq<string>, collection: Option<SettingsCollection>) returns (r: Outcome<SugarError>)
      modifies this`outputs
      ensures Applied(State(), r) == AddOutputs(old(State()), files, collection)
    {
      if |files| == 0 {
        return Fail(EmptyFileList);
      }
      var i := 0;
      while i < |files|
        invariant 0 <= i <= |files|
        invariant AddOutputsEach(State(), files[i..], collection) == AddOutputs(old(State()), files, collection)
      {
        assert files[i..][1..] == files[i + 1..];
        r := WithOutputUsing(files[i], collection);
        if r.Fail? {
          return;
        }
        i := i + 1;
      }
      r := Pass;
    }

    /** `WithOutput(files)`: with `SettingsCollection.ForOutput()`. */
    method WithOutputs(files: seq<string>) returns (r: Outcome<SugarError>)
      modifies this`outputs
      ensures Applied(State(), r) == AddOutputs(old(State()), files, Some(ForOutput()))
    {
      r := WithOutputsUsing(files, Some(ForOutput()));
    }

    /** `WithInput(fileName, settings)`: validate, probe the file, register it. */
    method WithInputUsing(fileName: string, settings: Option<SettingsCollection>, probe: Prober) returns (r: Outcome<SugarError>)
      modifies this`resources
      ensures r.Pass? <==> ValidateInput(old(State()), fileName).Pass? && probe(fileName).Some?
      ensures resources == if r.Pass? then old(resources) + [LoadedInput(fileName, settings, probe)] else old(resources)
      ensures Applied(State(), r) == AddInput(old(State()), fileName, settings, probe)
    {
      r := ValidateInput(State(), fileName);
      if r.Pass? {
        var loaded := LoadMetadata(ResourceFrom(fileName), probe);
        if loaded.Failure? {
          r := Fail(loaded.error);
        } else {
          var commandResource := CommandResource(loaded.value, Given(settings));
          resources := resources + [commandResource];
        }
      }
    }

    /** `WithInput(fileName)`: with `SettingsCollection.ForInput()`. */
    method WithInput(fileName: string, probe: Prober) returns (r: Outcome<SugarError>)
      modifies this`resources
      ensures Applied(State(), r) == AddInput(old(State()), fileName, Some(ForInput()), probe)
    {
      r := WithInputUsing(fileName, Some(ForInput()), probe);
    }

    /** `WithInputNoLoad(fileName)`: validate, register the file without probing it. */
    method WithInputNoLoad(fileName: string) returns (r: Outcome<SugarError>)
      modifies this`resources
      ensures r == ValidateInput(old(State()), fileName)
      ensures resources == if r.Pass? then old(resources) + [CommandResource(ResourceFrom(fileName), DefaultSettings)]
                           else old(resources)
      ensures Applied(State(), r) == AddInputNoLoad(old(State()), fileName)
    {
      r := ValidateInput(State(), fileName);
      if r.Pass? {
        var commandResource := CommandResource(ResourceFrom(fileName), DefaultSettings);
        resources := resources + [commandResource];
      }
    }

    /** `WithInput(files)`: `WithInput(fileName)` for each file in turn, stopping at the first failure. */
    method WithInputs(files: seq<string>, probe: Prober) returns (r: Outcome<SugarError>)
      modifies this`resources
      ensures Applied(State(), r) == AddInputs(old(State()), files, probe)
    {
      if |files| == 0 {
        return Fail(EmptyFileList);
      }
      var i := 0;
      while i < |files|
        invariant 0 <= i <= |files|
        invariant AddInputsEach(State(), files[i..], probe) == AddInputs(old(State()), files, probe)
      {
        assert files[i..][1..] == files[i + 1..];
        r := WithInput(files[i], probe);
        if r.Fail? {
          return;
        }
        i := i + 1;
      }
      r := Pass;
    }
  }

  /**
    * A client of the class: two inputs registered on an owned command are
    * selected by index and all together in registration order, and a blank
    * output name leaves the output registry as it was.
    */
  method RegisterTwoInputs(id: CommandId) returns (all: CommandStage, blank: Outcome<SugarError>, outputCount: nat)
    ensures all.command == id && |all.receipts| == 2
    ensures all.receipts[0] == GetReceipt(CommandResource(ResourceFrom("a.mp4"), DefaultSettings))
    ensures all.receipts[1] == GetReceipt(CommandResource(ResourceFrom("b.mp4"), DefaultSettings))
    ensures blank == Fail(BlankFileName) && outputCount == 0
  {
    var command := new FfmpegCommand(id, Some(Owner([id])));
    var r := command.WithInputNoLoad("a.mp4");
    assert !IsWhiteSpace("a.mp4"[0]);
    assert r.Pass?;
    r := command.WithInputNoLoad("b.mp4");
    assert !IsWhiteSpace("b.mp4"[0]);
    assert r.Pass?;
    blank := command.WithOutput("");
    outputCount := |command.outputs|;
    var stage := WithAllStreams(command.State());
    all := stage.value;
    assert ResourceReceiptAt(command.State(), 0) == Success(all.receipts[0]);
    assert ResourceReceiptAt(command.State(), 1) == Success(all.receipts[1]);
  }
}
