// The unified server error type, `IchimiError` in crates/ichimi/src/error.rs
// and `VantageError` in crates/vantage-atom/src/error.rs.  The two copies
// have the same variants, texts and classifications; the only difference
// is that the `crates/ichimi` copy has its two web-server variants only
// when built with the web feature.  Errors wrapped from other libraries
// (JSON and I/O errors) are represented by their message text.

module Errors {
  import opened Common

  datatype ServerError =
    | ProcessNotFound(id: string)
    | ProcessAlreadyExists(id: string)
    | ProcessAlreadyRunning(id: string)
    | ProcessNotRunning(id: string)
    | ProcessStartFailed(msg: string)
    | ProcessStopFailed(msg: string)
    | SecurityValidation(msg: string)
    | CommandInjection(msg: string)
    | InvalidPath(msg: string)
    | PermissionDenied(msg: string)
    | Database(msg: string)
    | DatabaseConnection(msg: string)
    | Serialization(msg: string)
    | Io(msg: string)
    | FileNotFound(msg: string)
    | DirectoryNotFound(msg: string)
    | WebServer(msg: string)
    | PortInUse(port: U16)
    | Configuration(msg: string)
    | InvalidArgument(msg: string)
    | Timeout(msg: string)
    | Internal(msg: string)
    | Other(msg: string)

  type U16 = n: nat | n <= 65535

  /// The crate an error value comes from: `crates/ichimi`, built with or
  /// without its web feature, or `crates/vantage-atom`.
  datatype ErrorCrate = IchimiCrate(webFeature: bool) | VantageAtomCrate

  /// Whether a variant exists in a build of the given crate.
  function VariantExists(e: ServerError, c: ErrorCrate): (b: bool)
    ensures c.VantageAtomCrate? ==> b
    ensures c.IchimiCrate? && c.webFeature ==> b
    ensures c.IchimiCrate? && !c.webFeature ==> (b <==> !(e.WebServer? || e.PortInUse?))
  {
    match c
    case VantageAtomCrate => true
    case IchimiCrate(web) => web || !(e.WebServer? || e.PortInUse?)
  }

  /// What the error carries after its fixed prefix.
  function Detail(e: ServerError): string
  {
    match e
    case ProcessNotFound(id) => id
    case ProcessAlreadyExists(id) => id
    case ProcessAlreadyRunning(id) => id
    case ProcessNotRunning(id) => id
    case PortInUse(port) => NatToString(port)
    case _ => e.msg
  }

  /// The fixed text each variant's message starts with.
  function Prefix(e: ServerError): (p: string)
    ensures p == [] <==> e.Other?
  {
    match e
    case ProcessNotFound(_) => "Process not found: "
    case ProcessAlreadyExists(_) => "Process already exists: "
    case ProcessAlreadyRunning(_) => "Process already running: "
    case ProcessNotRunning(_) => "Process not running: "
    case ProcessStartFailed(_) => "Failed to start process: "
    case ProcessStopFailed(_) => "Failed to stop process: "
    case SecurityValidation(_) => "Security validation failed: "
    case CommandInjection(_) => "Command injection detected: "
    case InvalidPath(_) => "Invalid path: "
    case PermissionDenied(_) => "Permission denied: "
    case Database(_) => "Database error: "
    case DatabaseConnection(_) => "Database connection failed: "
    case Serialization(_) => "Data serialization error: "
    case Io(_) => "IO error: "
    case FileNotFound(_) => "File not found: "
    case DirectoryNotFound(_) => "Directory not found: "
    case WebServer(_) => "Web server error: "
    case PortInUse(_) => "Port already in use: "
    case Configuration(_) => "Configuration error: "
    case InvalidArgument(_) => "Invalid argument: "
    case Timeout(_) => "Operation timed out: "
    case Internal(_) => "Internal error: "
    case Other(_) => ""
  }

  /// The `Display` text: the variant's prefix, then what it carries.
  function Display(e: ServerError): (s: string)
    ensures EndsWith(s, Detail(e))
    ensures StartsWith(s, Prefix(e))
    ensures e.Other? ==> s == e.msg
  {
    var s := Prefix(e) + Detail(e);
    assert s[|s| - |Detail(e)|..] == Detail(e);
    assert s[..|Prefix(e)|] == Prefix(e);
    s
  }

  /// `to_mcp_error`: processes are named in quotes for the two lookup
  /// failures; the security failures and every other variant keep their
  /// `Display` text.
  function ToMcpError(e: ServerError): (s: string)
    ensures e.ProcessNotFound? ==> s == "Process '" + e.id + "' not found"
    ensures e.ProcessAlreadyExists? ==> s == "Process '" + e.id + "' already exists"
    ensures e.SecurityValidation? ==> s == "Security validation failed: " + e.msg
    ensures e.CommandInjection? ==> s == "Command injection detected: " + e.msg
    ensures !(e.ProcessNotFound? || e.ProcessAlreadyExists? || e.SecurityValidation? || e.CommandInjection?) ==>
              s == Display(e)
  {
    match e
    case ProcessNotFound(id) => "Process '" + id + "' not found"
    case ProcessAlreadyExists(id) => "Process '" + id + "' already exists"
    case SecurityValidation(msg) => "Security validation failed: " + msg
    case CommandInjection(msg) => "Command injection detected: " + msg
    case _ => Display(e)
  }

  /// The MCP text differs from the `Display` text exactly for the two
  /// lookup failures: the security special cases spell out the same text.
  lemma McpTextDiffersOnlyForLookups(e: ServerError)
    ensures ToMcpError(e) != Display(e) <==> e.ProcessNotFound? || e.ProcessAlreadyExists?
  {
    if e.ProcessNotFound? || e.ProcessAlreadyExists? {
      assert ToMcpError(e)[8] == '\'';
      assert Display(e)[8] != '\'';
    }
  }

  /// `is_security_error`.
  predicate IsSecurityError(e: ServerError)
  {
    e.SecurityValidation? || e.CommandInjection? || e.InvalidPath? || e.PermissionDenied?
  }

  /// `is_retryable`.
  predicate IsRetryable(e: ServerError)
  {
    e.Io? || e.DatabaseConnection? || e.Timeout?
  }

  /// A security failure is never worth retrying, and the retryable errors
  /// are all failures of the environment rather than of the request.
  lemma SecurityErrorsAreNotRetryable(e: ServerError)
    ensures !(IsSecurityError(e) && IsRetryable(e))
    ensures IsRetryable(e) ==> !e.ProcessNotFound? && !e.InvalidArgument? && !e.Other?
  {
  }

  /// The two web-server variants, which the `crates/vantage-atom` copy
  /// always has, are neither security errors nor retryable, and their MCP
  /// text is their displayed text.
  lemma WebVariantsAreOrdinary(m: string, port: U16)
    ensures VariantExists(WebServer(m), VantageAtomCrate) && VariantExists(PortInUse(port), VantageAtomCrate)
    ensures !IsSecurityError(WebServer(m)) && !IsRetryable(WebServer(m))
    ensures !IsSecurityError(PortInUse(port)) && !IsRetryable(PortInUse(port))
    ensures ToMcpError(WebServer(m)) == "Web server error: " + m
    ensures ToMcpError(PortInUse(port)) == "Port already in use: " + NatToString(port)
  {
  }

  /// The conversions into the error type: a message string becomes `Other`,
  /// whose text is the message itself, and any other library error becomes
  /// `Internal` carrying its text.
  function FromMessage(s: string): (e: ServerError)
    ensures e.Other? && Display(e) == s
    ensures !IsSecurityError(e) && !IsRetryable(e)
  {
    Other(s)
  }

  function FromLibraryError(text: string): (e: ServerError)
    ensures e.Internal? && Display(e) == "Internal error: " + text
    ensures !IsSecurityError(e) && !IsRetryable(e)
  {
    Internal(text)
  }

  /// A message converted into an error and shown again is unchanged, so
  /// the string-based errors of older code pass through untouched.
  lemma MessageRoundTrip(s: string)
    ensures Display(FromMessage(s)) == s
    ensures ToMcpError(FromMessage(s)) == s
  {
  }
}
