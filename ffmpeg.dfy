/**
  * The collaborators of the command-building sugar: resources, receipts,
  * settings collections, stages and the command's own bookkeeping.  Their
  * constructors live outside the sugar, so they are modelled as plain values;
  * where the real constructor does something not visible from the sugar, the
  * value only records what the sugar handed to it.
  */
module Ffmpeg {
  import opened Results

  /** Identity of a command, compared by value (`c.Id != command.Id`). */
  type CommandId = string

  /** The role a settings collection declares. */
  datatype SettingsCollectionResourceType = Input | Output

  /** An opaque setting; the sugar never looks inside one. */
  type Setting = nat

  /** A role-tagged bundle of settings; the sugar inspects only `kind`. */
  datatype SettingsCollection = SettingsCollection(kind: SettingsCollectionResourceType, settings: seq<Setting>)

  /** `SettingsCollection.ForInput()`: an empty collection for an input. */
  function ForInput(): SettingsCollection { SettingsCollection(Input, []) }

  /** `SettingsCollection.ForOutput()`: an empty collection for an output. */
  function ForOutput(): SettingsCollection { SettingsCollection(Output, []) }

  /** What a metadata probe learns about a media file, as an opaque token. */
  datatype MediaMetadata = MediaMetadata(token: nat)

  /**
    * The external metadata probe behind `Resource.LoadMetadata`: the metadata
    * of the named file, or `None` when the probe fails.
    */
  type Prober = string -> Option<MediaMetadata>

  /** A handle to a media file: its path and, once probed, its metadata. */
  datatype Resource = Resource(path: string, metadata: Option<MediaMetadata>)

  /** `Resource.From(fileName)`: a handle with no metadata; no I/O happens. */
  function ResourceFrom(fileName: string): Resource {
    Resource(fileName, None)
  }

  /** The settings a command resource was created with. */
  datatype ResourceSettings =
    | DefaultSettings                              // `CommandResource.Create(resource)`
    | Given(collection: Option<SettingsCollection>) // `CommandResource.Create(resource, settings)`; may be null

  /** An input bound to a command. */
  datatype CommandResource = CommandResource(resource: Resource, settings: ResourceSettings)

  /** An output bound to a command: `CommandOutput.Create(resource)`. */
  datatype CommandOutput = CommandOutput(resource: Resource)

  /** A token for one stream: produced by an input, or by a filterchain output pad. */
  datatype Receipt =
    | ResourceReceipt(source: CommandResource)
    | FilterReceipt(token: nat)

  /** `CommandResource.GetReceipt()`: the receipt of the input's stream. */
  function GetReceipt(r: CommandResource): Receipt {
    ResourceReceipt(r)
  }

  /** A filterchain, seen only through the receipts it produces. */
  datatype Filterchain = Filterchain(outputReceipts: seq<Receipt>)

  /** `Filterchain.GetReceipts()`. */
  function GetReceipts(f: Filterchain): seq<Receipt> {
    f.outputReceipts
  }

  /** A selection of receipts built against one command: `new CommandStage(command) { Receipts = … }`. */
  datatype CommandStage = CommandStage(command: CommandId, receipts: seq<Receipt>)

  /** The owner of a command; `commandList` holds the ids of the commands it has created. */
  datatype Owner = Owner(commandList: seq<CommandId>)

  /** What a command holds: its id, its optional owner, its inputs and its outputs, in registration order. */
  datatype CommandState = CommandState(
    id: CommandId,
    owner: Option<Owner>,
    resources: seq<CommandResource>,
    outputs: seq<CommandOutput>)

  /** The errors the sugar raises, one per distinct `throw` in the source, plus the probe's failure. */
  datatype SugarError =
    | NoOwner                // the command has no owner
    | NullCollection         // the settings collection is null
    | NotOutputCollection    // the settings collection is not of type Output
    | BlankFileName          // the file name is null, empty or white space
    | NotInOwnerCommandList  // the owner's command list does not hold the command's id
    | EmptyFileList          // the list of file names is null or empty
    | IndexOutOfRange        // an input index outside the registered inputs
    | NullReceipts           // the receipt list is null
    | NullResource           // the command resource is null
    | NullFilterchain        // the filterchain is null
    | ProbeFailure           // the metadata probe failed
}
