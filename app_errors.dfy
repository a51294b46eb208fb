/** The application error taxonomy (src/domain/entities/AppErrors.ts): an
    `AppError` carries a technical message, a fixed code and severity per
    subclass, a message for the user, optional metadata and the time of its
    creation. The clock (`Date.now()`) is the parameter `now`. */
module AppErrors {
  import opened Wrappers

  datatype Severity = Low | Medium | High | Critical

  /** The string values of the `ErrorSeverity` enum. */
  function SeverityText(s: Severity): string {
    match s
    case Low => "low"
    case Medium => "medium"
    case High => "high"
    case Critical => "critical"
  }

  function SeverityFromText(t: string): (s: Option<Severity>)
    ensures s.Some? ==> SeverityText(s.value) == t
  {
    if t == "low" then Some(Low)
    else if t == "medium" then Some(Medium)
    else if t == "high" then Some(High)
    else if t == "critical" then Some(Critical)
    else None
  }

  lemma SeverityTextRoundTrip(s: Severity)
    ensures SeverityFromText(SeverityText(s)) == Some(s)
  {
  }

  /** The JavaScript values metadata and `toJSON` hold. */
  datatype JsValue =
    | JsUndefined
    | JsString(s: string)
    | JsNumber(n: int)
    | JsObject(fields: map<string, JsValue>)

  type Metadata = map<string, JsValue>

  /** A constructed `AppError`. `name` is the name of the concrete class. */
  datatype AppError = AppError(
    name: string,
    code: string,
    message: string,
    userMessage: string,
    severity: Severity,
    metadata: Option<Metadata>,
    timestamp: int)

  /** The `AppError` base constructor: `userMessage || message` falls back to
      the technical message when no user message, or an empty one, is given. */
  function NewAppError(name: string, message: string, code: string, severity: Severity,
                       userMessage: Option<string>, metadata: Option<Metadata>, now: int): (e: AppError)
    ensures userMessage.None? || userMessage == Some("") ==> e.userMessage == message
    ensures userMessage.Some? && userMessage.value != "" ==> e.userMessage == userMessage.value
    ensures e.name == name && e.code == code && e.severity == severity
    ensures e.message == message && e.metadata == metadata && e.timestamp == now
  {
    var shown := if userMessage.Some? && userMessage.value != "" then userMessage.value else message;
    AppError(name, code, message, shown, severity, metadata, now)
  }

  /** `{ key, ...metadata }`: the key is always present (with `undefined` when
      it was not given) and any key of `metadata` overrides it. */
  function Overlay(base: Metadata, metadata: Option<Metadata>): (m: Metadata)
    ensures metadata.None? ==> m == base
    ensures metadata.Some? ==> forall k :: k in metadata.value ==> k in m && m[k] == metadata.value[k]
    ensures forall k :: k in base && (metadata.None? || k !in metadata.value) ==> k in m && m[k] == base[k]
    ensures m.Keys == base.Keys + (if metadata.Some? then metadata.value.Keys else {})
  {
    if metadata.Some? then base + metadata.value else base
  }

  function OptionalString(s: Option<string>): JsValue {
    if s.Some? then JsString(s.value) else JsUndefined
  }

  function OptionalNumber(n: Option<int>): JsValue {
    if n.Some? then JsNumber(n.value) else JsUndefined
  }

  /** A parameter with a default value: the default applies only when the
      argument is left out (`undefined`), not when it is empty. */
  function WithDefault(message: Option<string>, default: string): string {
    if message.Some? then message.value else default
  }

  const NETWORK_USER_MESSAGE := "Unable to connect. Please check your internet connection."
  const PAYMENT_USER_MESSAGE := "Payment could not be processed. Please verify your payment details."
  const LIMIT_USER_MESSAGE := "You have reached the maximum number of favorites. Upgrade to premium for unlimited favorites."
  const VALIDATION_USER_MESSAGE := "Please check your input and try again."
  const AUTH_USER_MESSAGE := "Session expired. Please log in again."
  const STORAGE_USER_MESSAGE := "Unable to save data. Please try again."
  const API_USER_MESSAGE := "Service temporarily unavailable. Please try again later."

  function NetworkError(message: Option<string>, metadata: Option<Metadata>, now: int): (e: AppError)
    ensures e.name == "NetworkError" && e.code == "ERR_NETWORK_001" && e.severity == High
    ensures e.message == (if message.None? then "Connection error" else message.value)
    ensures e.userMessage == NETWORK_USER_MESSAGE && e.metadata == metadata
  {
    NewAppError("NetworkError", WithDefault(message, "Connection error"), "ERR_NETWORK_001", High,
                Some(NETWORK_USER_MESSAGE), metadata, now)
  }

  function PaymentError(message: Option<string>, metadata: Option<Metadata>, now: int): (e: AppError)
    ensures e.name == "PaymentError" && e.code == "ERR_PAYMENT_001" && e.severity == High
    ensures e.message == (if message.None? then "Payment was declined" else message.value)
    ensures e.userMessage == PAYMENT_USER_MESSAGE && e.metadata == metadata
  {
    NewAppError("PaymentError", WithDefault(message, "Payment was declined"), "ERR_PAYMENT_001", High,
                Some(PAYMENT_USER_MESSAGE), metadata, now)
  }

  /** `LimitReachedError` takes no argument: its message is fixed and it has
      no metadata. */
  function LimitReachedError(now: int): (e: AppError)
    ensures e.name == "LimitReachedError" && e.code == "ERR_LIMIT_001" && e.severity == Medium
    ensures e.message == "Free favorites limit reached"
    ensures e.userMessage == LIMIT_USER_MESSAGE && e.metadata.None?
  {
    NewAppError("LimitReachedError", "Free favorites limit reached", "ERR_LIMIT_001", Medium,
                Some(LIMIT_USER_MESSAGE), None, now)
  }

  function ValidationError(message: string, field: Option<string>, metadata: Option<Metadata>, now: int): (e: AppError)
    ensures e.name == "ValidationError" && e.code == "ERR_VALIDATION_001" && e.severity == Low
    ensures e.message == message && e.userMessage == VALIDATION_USER_MESSAGE
    ensures e.metadata.Some? && "field" in e.metadata.value
    ensures e.metadata == Some(Overlay(map["field" := OptionalString(field)], metadata))
  {
    NewAppError("ValidationError", message, "ERR_VALIDATION_001", Low, Some(VALIDATION_USER_MESSAGE),
                Some(Overlay(map["field" := OptionalString(field)], metadata)), now)
  }

  function AuthenticationError(message: Option<string>, metadata: Option<Metadata>, now: int): (e: AppError)
    ensures e.name == "AuthenticationError" && e.code == "ERR_AUTH_001" && e.severity == High
    ensures e.message == (if message.None? then "Authentication failed" else message.value)
    ensures e.userMessage == AUTH_USER_MESSAGE && e.metadata == metadata
  {
    NewAppError("AuthenticationError", WithDefault(message, "Authentication failed"), "ERR_AUTH_001", High,
                Some(AUTH_USER_MESSAGE), metadata, now)
  }

  /** The storage operation a `StorageError` names. */
  datatype StorageOperation = Read | Write | Delete

  function OperationText(op: StorageOperation): string {
    match op
    case Read => "read"
    case Write => "write"
    case Delete => "delete"
  }

  function StorageError(message: Option<string>, operation: Option<StorageOperation>,
                        metadata: Option<Metadata>, now: int): (e: AppError)
    ensures e.name == "StorageError" && e.code == "ERR_STORAGE_001" && e.severity == Medium
    ensures e.message == (if message.None? then "Storage operation failed" else message.value)
    ensures e.userMessage == STORAGE_USER_MESSAGE
    ensures e.metadata.Some? && "operation" in e.metadata.value
    ensures e.metadata.value.Keys == {"operation"} + (if metadata.Some? then metadata.value.Keys else {})
    ensures metadata.Some? ==> forall k :: k in metadata.value ==> e.metadata.value[k] == metadata.value[k]
    ensures metadata.None? || "operation" !in metadata.value
            ==> e.metadata.value["operation"]
                == (if operation.Some? then JsString(OperationText(operation.value)) else JsUndefined)
  {
    var op := if operation.Some? then JsString(OperationText(operation.value)) else JsUndefined;
    NewAppError("StorageError", WithDefault(message, "Storage operation failed"), "ERR_STORAGE_001", Medium,
                Some(STORAGE_USER_MESSAGE), Some(Overlay(map["operation" := op], metadata)), now)
  }

  function ApiError(message: string, statusCode: Option<int>, endpoint: Option<string>,
                    metadata: Option<Metadata>, now: int): (e: AppError)
    ensures e.name == "ApiError" && e.code == "ERR_API_001" && e.severity == High
    ensures e.message == message && e.userMessage == API_USER_MESSAGE
    ensures e.metadata.Some? && "statusCode" in e.metadata.value && "endpoint" in e.metadata.value
    ensures e.metadata.value.Keys == {"statusCode", "endpoint"} + (if metadata.Some? then metadata.value.Keys else {})
    ensures metadata.Some? ==> forall k :: k in metadata.value ==> e.metadata.value[k] == metadata.value[k]
    ensures metadata.None? || "statusCode" !in metadata.value
            ==> e.metadata.value["statusCode"] == (if statusCode.Some? then JsNumber(statusCode.value) else JsUndefined)
    ensures metadata.None? || "endpoint" !in metadata.value
            ==> e.metadata.value["endpoint"] == (if endpoint.Some? then JsString(endpoint.value) else JsUndefined)
  {
    var base := map["statusCode" := OptionalNumber(statusCode), "endpoint" := OptionalString(endpoint)];
    NewAppError("ApiError", message, "ERR_API_001", High, Some(API_USER_MESSAGE),
                Some(Overlay(base, metadata)), now)
  }

  /** The metadata of a `ValidationError` given a field: the field, unless
      the extra metadata has its own "field", which wins. */
  lemma ValidationMetadataOverlay(message: string, field: string, metadata: Metadata, now: int)
    ensures var e := ValidationError(message, Some(field), Some(metadata), now);
            && e.metadata.value["field"] == (if "field" in metadata then metadata["field"] else JsString(field))
            && (forall k :: k in metadata ==> k in e.metadata.value && e.metadata.value[k] == metadata[k])
            && e.metadata.value.Keys == {"field"} + metadata.Keys
  {
  }

  /** The metadata of a `StorageError` with an operation and of an
      `ApiError` with a status code and an endpoint, before any overlay. */
  lemma StorageAndApiMetadata(op: StorageOperation, statusCode: int, endpoint: string, now: int)
    ensures StorageError(None, Some(op), None, now).metadata == Some(map["operation" := JsString(OperationText(op))])
    ensures ApiError("Not found", Some(statusCode), Some(endpoint), None, now).metadata
            == Some(map["statusCode" := JsNumber(statusCode), "endpoint" := JsString(endpoint)])
  {
  }

  /** `toJSON()`: the error's own fields under their own names; `metadata`
      is `undefined` when there is none. */
  function ToJSON(e: AppError): (json: map<string, JsValue>)
    ensures json.Keys == {"name", "code", "message", "userMessage", "severity", "metadata", "timestamp"}
  {
    map[
      "name" := JsString(e.name),
      "code" := JsString(e.code),
      "message" := JsString(e.message),
      "userMessage" := JsString(e.userMessage),
      "severity" := JsString(SeverityText(e.severity)),
      "metadata" := (if e.metadata.Some? then JsObject(e.metadata.value) else JsUndefined),
      "timestamp" := JsNumber(e.timestamp)]
  }

  function StringField(json: map<string, JsValue>, key: string): Option<string> {
    if key in json && json[key].JsString? then Some(json[key].s) else None
  }

  /** Reads an error back from its `toJSON()` form. */
  function FromJSON(json: map<string, JsValue>): Option<AppError> {
    var name := StringField(json, "name");
    var code := StringField(json, "code");
    var message := StringField(json, "message");
    var userMessage := StringField(json, "userMessage");
    var severityText := StringField(json, "severity");
    if name.None? || code.None? || message.None? || userMessage.None? || severityText.None? then None
    else if "metadata" !in json || "timestamp" !in json || !json["timestamp"].JsNumber? then None
    else
      var severity := SeverityFromText(severityText.value);
      var metadata := json["metadata"];
      if severity.None? || !(metadata.JsUndefined? || metadata.JsObject?) then None
      else
        Some(AppError(name.value, code.value, message.value, userMessage.value, severity.value,
                      if metadata.JsObject? then Some(metadata.fields) else None, json["timestamp"].n))
  }

  /** `toJSON()` loses nothing: every field of the error can be read back. */
  lemma ToJSONRoundTrip(e: AppError)
    ensures FromJSON(ToJSON(e)) == Some(e)
  {
    SeverityTextRoundTrip(e.severity);
  }

  /** A thrown JavaScript value as a `catch` block sees it: an `Error` (with
      its name and message) or anything else. */
  datatype Thrown = ErrorThrown(name: string, message: string) | OtherThrown

  /** Every `AppError` is an `Error`. */
  function Throw(e: AppError): (t: Thrown)
    ensures t.ErrorThrown? && t.message == e.message
  {
    ErrorThrown(e.name, e.message)
  }
}
