/**
  The configuration container: a JSON object mapping each server name to the
  parameters used to launch that server, kept in the file's key order.
 */
module ConfigContainer {
  import opened Wrappers
  import opened Dict

  /** Launch parameters of one stdio server (command, arguments, environment). */
  datatype ServerParams = ServerParams(command: string, args: seq<string>, env: Option<seq<(string, string)>>)

  /** `ConfigContainer.root`: server name to parameters, in insertion order. */
  datatype ConfigContainer = ConfigContainer(root: seq<(string, ServerParams)>) {
    ghost predicate Valid() {
      UniqueKeys(root)
    }
  }

  /**
    The exceptions raised here; `Raised` is any other exception, named by its
    class, that leaves `form_file` as it was raised.
   */
  datatype ConfigError = ValueError(message: string) | IndexError(message: string) | Raised(kind: string, message: string)

  /**
    What opening and JSON-decoding the file produced; `J` is the decoded
    document. `ReadFailed` is any other failure of `open` or `json.load`
    (PermissionError, IsADirectoryError, UnicodeDecodeError, ...), named by its
    exception class.
   */
  datatype FileRead<J> =
    | Decoded(document: J)
    | FileNotFound(detail: string)
    | JsonDecodeError(detail: string)
    | ReadFailed(kind: string, detail: string)

  const NoConfigurations := "No configurations found"

  /**
    `config[index]`: the entry at that position of the key order, Python-style
    (a negative index counts from the end), after refusing an empty root.
   */
  function GetItem(c: ConfigContainer, index: int): (r: Result<(string, ServerParams), ConfigError>)
    requires c.Valid()
    ensures |c.root| == 0 ==> r == Err(ValueError(NoConfigurations))
    ensures 0 <= index < |c.root| ==> r == Ok(c.root[index])
    ensures -|c.root| <= index < 0 ==> r == Ok(c.root[|c.root| + index])
    ensures |c.root| > 0 && !(-|c.root| <= index < |c.root|) ==> r == Err(IndexError(IndexOutOfRange))
  {
    if |c.root| == 0 then Err(ValueError(NoConfigurations))
    else
      var names := Keys(c.root);
      if !(-|names| <= index < |names|) then Err(IndexError(IndexOutOfRange))
      else
        var pos := if index < 0 then |names| + index else index;
        var name := names[pos];
        LookupAt(c.root, pos);
        Ok((name, Lookup(c.root, name).value))
  }

  /** `config.items()`: the root's entries, in insertion order. */
  function Items(c: ConfigContainer): seq<(string, ServerParams)>
  {
    c.root
  }

  /** Items and indexing agree: the i-th item is `config[i]` and `config[i - len]`. */
  lemma ItemsAgreeWithGetItem(c: ConfigContainer, i: nat)
    requires c.Valid() && i < |Items(c)|
    ensures GetItem(c, i) == Ok(Items(c)[i])
    ensures GetItem(c, i - |Items(c)|) == Ok(Items(c)[i])
  {
  }

  /**
    `ConfigContainer.form_file`: a missing file or undecodable JSON becomes
    "Error reading file: ...", a document that fails validation becomes
    "Error processing configuration: ...", and any other failure of reading
    the file propagates unchanged. `validate` stands for the library's model
    validation; it builds a dict from the document, so a container it returns
    is expected to satisfy `Valid()`, which indexing requires.
   */
  function FormFile<J>(read: FileRead<J>, validate: J -> Result<ConfigContainer, string>): (r: Result<ConfigContainer, ConfigError>)
    ensures read.FileNotFound? || read.JsonDecodeError? ==> r == Err(ValueError("Error reading file: " + read.detail))
    ensures read.ReadFailed? ==> r == Err(Raised(read.kind, read.detail))
    ensures read.Decoded? && validate(read.document).Err? ==>
      r == Err(ValueError("Error processing configuration: " + validate(read.document).error))
    ensures r.Ok? <==> read.Decoded? && validate(read.document).Ok?
    ensures r.Ok? ==> r == Ok(validate(read.document).value)
  {
    match read
    case FileNotFound(e) => Err(ValueError("Error reading file: " + e))
    case JsonDecodeError(e) => Err(ValueError("Error reading file: " + e))
    case ReadFailed(kind, e) => Err(Raised(kind, e))
    case Decoded(document) =>
      match validate(document)
      case Ok(c) => Ok(c)
      case Err(e) => Err(ValueError("Error processing configuration: " + e))
  }
}
