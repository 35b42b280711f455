/** The errors the configuration package returns (pkg/config/config.go). */
module Errors {
  import opened Wrappers

  datatype Error =
    /** ErrClosed: an operation on a manager after Close. */
    | Closed
    /** ErrTimeout: the remote load lost its race against the 30-second deadline. */
    | Timeout
    /** A watcher was given a nil context. */
    | NilContext
    /** No file at the configured path and no defaults to fall back on. */
    | NoConfigFile(path: string)
    /** Stat of the configured path failed for a reason other than "does not exist". */
    | StatFailed(reason: string)
    /** The file exists but could not be read or parsed. */
    | ReadFailed(reason: string)
    /** viper.Unmarshal could not convert the values under these keys into the schema. */
    | DecodeFailed(keys: seq<string>)
    /** The first schema field that failed validation, with the rule it broke. */
    | ValidationFailed(namespace: string, tag: string)
    /** viper.AddRemoteProvider refused the provider type. */
    | UnsupportedRemoteProvider(providerType: string)
    /** Any other failure of the remote fetch, decode or validation. */
    | RemoteFailed(reason: string)

  /** The text of the errors whose wording the package itself chooses; None for errors
      whose text comes from a library (decoding, the remote provider). */
  function Message(e: Error): (text: Option<string>)
    ensures text.None? <==> e.DecodeFailed? || e.UnsupportedRemoteProvider? || e.RemoteFailed?
  {
    match e
    case Closed => Some("config manager is closed")
    case Timeout => Some("operation timed out")
    case NilContext => Some("context cannot be nil")
    case NoConfigFile(path) => Some("no configuration file found at " + path + " and no defaults provided")
    case StatFailed(reason) => Some("error checking config file: " + reason)
    case ReadFailed(reason) => Some("error reading config file: " + reason)
    case ValidationFailed(ns, tag) => Some("validation failed for field '" + ns + "': " + tag)
    case DecodeFailed(_) => None
    case UnsupportedRemoteProvider(_) => None
    case RemoteFailed(_) => None
  }
}
