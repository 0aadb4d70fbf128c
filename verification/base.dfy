/** Shared vocabulary of the DocLink metadata model: optional values, results
    that carry one of the library's exceptions, and the opaque UUID type.

    The library raises `Exception(TAG, message)` with a string tag as the first
    argument; callers discriminate on that tag. Each tag becomes one constructor
    of `Error`. Python built-in exceptions that the library raises implicitly
    (a missing dict key, an exhausted generator, an attribute read on `None`, ...)
    get constructors of their own. */
module Base {

  datatype Option<+T> = None | Some(value: T)

  datatype Result<+T> = Success(value: T) | Failure(error: Error) {
    function ToOption(): Option<T> {
      match this
      case Success(v) => Some(v)
      case Failure(_) => None
    }
  }

  /** A UUID is compared for equality only; its 128 bits are kept as a number. */
  datatype Uuid = Uuid(bits: nat)

  /** What a failed `get_*_by_*` lookup of the metadata graph was searching. */
  datatype Lookup =
    | DistributionStampId
    | DistributionStampName
    | DistributionStampFieldName
    | DistributionStampFieldCaption
    | DocumentTypeId
    | DocumentTypeName
    | PropertyId
    | PropertyName
    | WorkflowId
    | WorkflowName
    | WorkflowActivityId
    | WorkflowActivityName

  /** The searched value carried by a lookup error. */
  datatype Key = IntKey(n: int) | TextKey(s: string) | UuidKey(u: Uuid)

  datatype Error =
    | InvalidDataType                          // "INVALID_DATA_TYPE"
    | PropertyNotFound(name: string)           // "PROPERTY_NOT_FOUND"
    | Invalid(kind: Lookup, key: Key)          // "INVALID_<KIND>"
    | InvalidSprocName(sproc: string)          // "INVALID_SPROC_NAME"
    | InvalidCreationType                      // "INVALID_CREATION_TYPE"
    | TableNotWhitelisted(table: string)       // "TABLE_NOT_WHITELISTED"
    | NotAuthenticated                         // "NOT_AUTHENTICATED"
    | NoCredentials                            // "NO_CREDENTIALS"
    | MissingKey                               // KeyError
    | NoMatch                                  // StopIteration
    | NoneAttribute                            // AttributeError on None
    | TypeMismatch                             // TypeError: iterating or subscripting None, or a record built from the wrong columns
    | IndexOutOfRange                          // IndexError
    | Unsupported                              // NotImplementedError
    | Transport(detail: string)                // failure inside the HTTP or ODBC layer

  /** The tag string of a lookup error, exactly as the graph spells it
      (including the doubled underscore of the caption lookup). */
  function LookupTag(kind: Lookup): string {
    match kind
    case DistributionStampId => "INVALID_DISTRIBUTION_STAMP_ID"
    case DistributionStampName => "INVALID_DISTRIBUTION_STAMP_NAME"
    case DistributionStampFieldName => "INVALID_DISTRIBUTION_STAMP_FIELD_NAME"
    case DistributionStampFieldCaption => "INVALID_DISTRIBUTION_STAMP__FIELD_CAPTION"
    case DocumentTypeId => "INVALID_DOCUMENT_TYPE_ID"
    case DocumentTypeName => "INVALID_DOCUMENT_TYPE_NAME"
    case PropertyId => "INVALID_PROPERTY_ID"
    case PropertyName => "INVALID_PROPERTY_NAME"
    case WorkflowId => "INVALID_WORKFLOW_ID"
    case WorkflowName => "INVALID_WORKFLOW_NAME"
    case WorkflowActivityId => "INVALID_WORKFLOW_ACTIVITY_ID"
    case WorkflowActivityName => "INVALID_WORKFLOW_ACTIVITY_NAME"
  }

  const TableNotWhitelistedTag := "TABLE_NOT_WHITELISTED"

  /** The first argument of the raised exception for the string-tagged ones,
      and the exception class name for the built-in ones. */
  function Tag(e: Error): string {
    match e
    case InvalidDataType => "INVALID_DATA_TYPE"
    case PropertyNotFound(_) => "PROPERTY_NOT_FOUND"
    case Invalid(kind, _) => LookupTag(kind)
    case InvalidSprocName(_) => "INVALID_SPROC_NAME"
    case InvalidCreationType => "INVALID_CREATION_TYPE"
    case TableNotWhitelisted(_) => TableNotWhitelistedTag
    case NotAuthenticated => "NOT_AUTHENTICATED"
    case NoCredentials => "NO_CREDENTIALS"
    case MissingKey => "KeyError"
    case NoMatch => "StopIteration"
    case NoneAttribute => "AttributeError"
    case TypeMismatch => "TypeError"
    case IndexOutOfRange => "IndexError"
    case Unsupported => "NotImplementedError"
    case Transport(_) => "TransportError"
  }

  /** Comparing the tag against "TABLE_NOT_WHITELISTED", as the optional-table
      getters do, singles out exactly the whitelist error. */
  lemma TagIdentifiesWhitelistError(e: Error)
    ensures Tag(e) == TableNotWhitelistedTag <==> e.TableNotWhitelisted?
  {
    if e.Invalid? {
      assert LookupTag(e.kind)[0] != TableNotWhitelistedTag[0];
    }
  }
}
