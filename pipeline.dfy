/**
 * The request pipeline of the prediction Lambda (lambdas/predict.py): parse
 * the event into an `InputPayload`, check the challenge secret, route the
 * action to a handler, run it, and turn the outcome into an API-Gateway
 * response envelope. Python exceptions are `Errors.Outcome` values; the
 * JSON decoder, the schema validator and the pickled model are
 * collaborators passed in as values.
 */
module Pipeline {

  import opened Wrappers
  import opened Errors
  import opened Json
  import Config
  import Text

  // HTTP status codes, with the meanings of sections 15.3.1, 15.5.1, 15.5.2
  // and 15.6.1 of RFC 9110.
  const StatusOk := 200
  const StatusBadRequest := 400
  const StatusUnauthorized := 401
  const StatusInternalServerError := 500

  // ---------------------------------------------------------------------
  // The payload
  // ---------------------------------------------------------------------

  /** The `InputPayload` dataclass; an absent `features` is None (JNull). */
  datatype InputPayload = InputPayload(action: JsonValue, challengeSecret: JsonValue, features: JsonValue)

  /** The dataclass's field names, the only keywords its constructor accepts. */
  const PayloadFields: set<string> := {"action", "challenge_secret", "features"}

  /** `InputPayload.to_dict`: the fields whose value is not None, with their values. */
  function ToDict(p: InputPayload): (d: map<string, JsonValue>)
    ensures d.Keys <= PayloadFields
    ensures "action" in d <==> p.action != JNull
    ensures "challenge_secret" in d <==> p.challengeSecret != JNull
    ensures "features" in d <==> p.features != JNull
    ensures "action" in d ==> d["action"] == p.action
    ensures "challenge_secret" in d ==> d["challenge_secret"] == p.challengeSecret
    ensures "features" in d ==> d["features"] == p.features
  {
    var all := map["action" := p.action, "challenge_secret" := p.challengeSecret, "features" := p.features];
    map k | k in all && all[k] != JNull :: all[k]
  }

  /** Why `InputPayload(**body)` raises TypeError. */
  datatype InitFault =
    | NotAMapping(typeName: string)
    | UnexpectedKeyword
    | SelfGivenTwice
    | MissingArguments(names: seq<string>)

  /** `'a'`, or `'a' and 'b'`, as Python lists missing arguments. */
  function QuotedNames(names: seq<string>): string {
    if |names| == 0 then ""
    else if |names| == 1 then "'" + names[0] + "'"
    else "'" + names[0] + "' and " + QuotedNames(names[1..])
  }

  /**
   * The text of the TypeError `InputPayload(**body)` raises. The call-site
   * complaint names the class with its module; the ones raised inside
   * `__init__` name it by its qualified name alone.
   */
  function FaultText(f: InitFault): string {
    match f
    case NotAMapping(t) => "lambdas.predict.InputPayload() argument after ** must be a mapping, not " + t
    case UnexpectedKeyword => "InputPayload.__init__() got an unexpected keyword argument"
    case SelfGivenTwice => "InputPayload.__init__() got multiple values for argument 'self'"
    case MissingArguments(names) =>
      "InputPayload.__init__() missing " + Text.IntToString(|names|) + " required positional argument"
      + (if |names| == 1 then "" else "s") + ": " + QuotedNames(names)
  }

  /** The prefix `_parse_payload` puts before the constructor's complaint. */
  const InvalidPayloadPrefix: string := "Invalid input payload: "

  /**
   * `InputPayload(**body)` and its `except` in `_parse_payload`: a mapping
   * whose keys are among the fields and include `action` and
   * `challenge_secret` builds the payload; anything else is a ValueError
   * whose message starts with "Invalid input payload: ".
   */
  function PayloadFromBody(body: JsonValue): (r: Outcome<InputPayload>)
    ensures r.Ok? <==>
      && body.JObject?
      && body.fields.Keys <= PayloadFields
      && "action" in body.fields
      && "challenge_secret" in body.fields
    ensures r.Ok? ==>
      && r.value.action == body.fields["action"]
      && r.value.challengeSecret == body.fields["challenge_secret"]
      && r.value.features == (if "features" in body.fields then body.fields["features"] else JNull)
    ensures r.Raise? ==> r.exc.kind == ValueError && InvalidPayloadPrefix <= r.exc.message
  {
    if !body.JObject? then
      Raise(Exc(ValueError, InvalidPayloadPrefix + FaultText(NotAMapping(TypeName(body)))))
    else
      var fields := body.fields;
      if fields.Keys - PayloadFields == {"self"} then
        // `self` is already bound, so a `self` keyword is a second value for it.
        Raise(Exc(ValueError, InvalidPayloadPrefix + FaultText(SelfGivenTwice)))
      else if !(fields.Keys <= PayloadFields) then
        Raise(Exc(ValueError, InvalidPayloadPrefix + FaultText(UnexpectedKeyword)))
      else
        var missing :=
          (if "action" in fields then [] else ["action"])
          + (if "challenge_secret" in fields then [] else ["challenge_secret"]);
        if missing != [] then
          Raise(Exc(ValueError, InvalidPayloadPrefix + FaultText(MissingArguments(missing))))
        else
          var features := if "features" in fields then fields["features"] else JNull;
          Ok(InputPayload(fields["action"], fields["challenge_secret"], features))
  }

  /** An invocation event: the wrapper of an HTTP call, or the payload itself. */
  type Event = map<string, JsonValue>

  /**
   * `_parse_payload`: an event with a "requestContext" key carries the
   * payload as JSON text under "body"; any other event is the payload.
   * The decoding happens outside the `try`, so a decoder error keeps its
   * own message, and a missing or non-text body raises KeyError or
   * TypeError, which no caller catches.
   */
  function ParsePayload(event: Event, decode: string -> Decoded): (r: Outcome<InputPayload>)
    ensures r.Raise? ==> r.exc.kind in {ValueError, KeyError, TypeError}
    ensures r.Raise? && r.exc.kind == KeyError <==> "requestContext" in event && "body" !in event
    ensures r.Raise? && r.exc.kind == TypeError <==>
      "requestContext" in event && "body" in event && !event["body"].JString?
  {
    if "requestContext" in event then
      if "body" !in event then
        Raise(Exc(KeyError, "'body'"))
      else
        match event["body"]
        case JString(text) =>
          (match decode(text)
           case Malformed(message) => Raise(Exc(ValueError, message))
           case Parsed(body) => PayloadFromBody(body))
        case other =>
          Raise(Exc(TypeError, "the JSON object must be str, bytes or bytearray, not " + TypeName(other)))
    else
      PayloadFromBody(JObject(event))
  }

  // ---------------------------------------------------------------------
  // The secret check and the router
  // ---------------------------------------------------------------------

  /** The message of the RuntimeError `_validate_secret` raises. */
  const SecretMismatch: string := "Challenge secret missing or mismatch"

  /** `self.config.CHALLENGE_SECRET`: the configured secret, read through the whitelist. */
  function ConfiguredSecret(env: Config.Env): (r: Option<string>)
    ensures r.Some? <==> "CHALLENGE_SECRET" in env
    ensures r.Some? ==> r.value == env["CHALLENGE_SECRET"]
  {
    match Config.GetAttr(Config.Default, env, "CHALLENGE_SECRET")
    case Ok(value) => value
    case Raise(_) => None
  }

  /**
   * `_validate_secret`: passes exactly when the secret is a non-empty string
   * whose stripped value equals the configured secret (which is not
   * stripped). A falsy secret or a mismatch raises RuntimeError; a truthy
   * value that is not a string has no `strip` and raises AttributeError.
   */
  function ValidateSecret(secret: JsonValue, configured: Option<string>): (r: Outcome<()>)
    ensures r.Ok? <==> secret.JString? && secret.s != "" && configured == Some(Text.Strip(secret.s))
    ensures r.Raise? && (!Truthy(secret) || secret.JString?) ==> r.exc == Exc(RuntimeError, SecretMismatch)
    ensures r.Raise? && Truthy(secret) && !secret.JString? ==> r.exc.kind == AttributeError
  {
    if !Truthy(secret) then
      Raise(Exc(RuntimeError, SecretMismatch))
    else if !secret.JString? then
      Raise(Exc(AttributeError, "'" + TypeName(secret) + "' object has no attribute 'strip'"))
    else if configured != Some(Text.Strip(secret.s)) then
      Raise(Exc(RuntimeError, SecretMismatch))
    else
      Ok(())
  }

  /** The closed set of request handlers. */
  datatype Handler = Ping | Predict

  /** The message of the ValueError `get_handler` raises for an unknown action. */
  function UnknownActionMessage(action: JsonValue): string {
    "Action not recognized: `" + Str(action) + "`"
  }

  /**
   * `get_handler`: "ping" and "predict" select their handlers; every other
   * action, string or not, raises ValueError naming it.
   */
  function GetHandler(action: JsonValue): (r: Outcome<Handler>)
    ensures r == Ok(Ping) <==> action == JString("ping")
    ensures r == Ok(Predict) <==> action == JString("predict")
    ensures r.Raise? ==> r.exc == Exc(ValueError, UnknownActionMessage(action))
  {
    if action == JString("ping") then Ok(Ping)
    else if action == JString("predict") then Ok(Predict)
    else Raise(Exc(ValueError, UnknownActionMessage(action)))
  }

  // ---------------------------------------------------------------------
  // The handlers
  // ---------------------------------------------------------------------

  /** A handler's result, the dict it returns. */
  type HandlerResult = map<string, JsonValue>

  /** `PingHandler.handle`: the payload is ignored. */
  function PingHandle(p: InputPayload): (r: HandlerResult)
    ensures r.Keys == {"response"} && r["response"] == JString("pong")
  {
    map["response" := JString("pong")]
  }

  /**
   * The unpickled model: whether `check_is_fitted` accepts it (and the text
   * of its NotFittedError otherwise), and what building the one-row
   * DataFrame from the features and calling `predict` on it gives:
   * `str(prediction[0])`, or the exception raised.
   */
  datatype Model = Model(fitted: bool, notFittedReason: string, predict: JsonValue -> Outcome<string>)

  /**
   * The collaborators of one invocation: `json.loads`; the result of opening
   * and `json.load`ing the features schema file (the schema, or what is
   * raised: an OSError when it cannot be opened, a ValueError when it is not
   * JSON); jsonschema's `validate` of an instance against a schema (None, or
   * `str()` of the ValidationError it raises: the error's message followed by
   * jsonschema's account of the failing schema part and instance); and the
   * result of opening and unpickling the model file.
   */
  datatype Collaborators = Collaborators(
    decode: string -> Decoded,
    schemaFile: Outcome<JsonValue>,
    validate: (JsonValue, map<string, JsonValue>) -> Option<string>,
    modelFile: Outcome<Model>)

  /** The schema file loads and `to_dict()` passes validation against it. */
  predicate SchemaAccepts(p: InputPayload, c: Collaborators) {
    c.schemaFile.Ok? && c.validate(c.schemaFile.value, ToDict(p)).None?
  }

  /** The prefix of the RuntimeError `load_model` raises for an unfitted model. */
  const NotFittedPrefix: string := "Model not fitted: "

  /**
   * What `load_model` leaves to `handle`: the model when it loaded and is
   * fitted; the loading error as raised; or a RuntimeError for an unfitted
   * model.
   */
  function LoadedModel(file: Outcome<Model>): (r: Outcome<Model>)
    ensures r.Ok? <==> file.Ok? && file.value.fitted
    ensures r.Ok? ==> r.value == file.value
    ensures file.Raise? ==> r == file
    ensures file.Ok? && !file.value.fitted ==>
      r.exc == Exc(RuntimeError, NotFittedPrefix + file.value.notFittedReason)
  {
    match file
    case Raise(_) => file
    case Ok(m) => if m.fitted then file else Raise(Exc(RuntimeError, NotFittedPrefix + m.notFittedReason))
  }

  /**
   * What `PredictHandler.handle` returns or raises: reading the schema file
   * and validating `to_dict()` against it first, then loading the model,
   * then one prediction.
   */
  function PredictOutcome(p: InputPayload, c: Collaborators): (r: Outcome<HandlerResult>)
    ensures c.schemaFile.Raise? ==> r == Raise(c.schemaFile.exc)
    ensures c.schemaFile.Ok? && c.validate(c.schemaFile.value, ToDict(p)).Some? ==>
      r == Raise(Exc(ValidationError, c.validate(c.schemaFile.value, ToDict(p)).value))
    ensures SchemaAccepts(p, c) && LoadedModel(c.modelFile).Raise? ==> r == Raise(LoadedModel(c.modelFile).exc)
    ensures r.Ok? ==>
      && SchemaAccepts(p, c)
      && c.modelFile.Ok? && c.modelFile.value.fitted
      && c.modelFile.value.predict(p.features).Ok?
      && r.value == map["response" := JString(c.modelFile.value.predict(p.features).value)]
  {
    match c.schemaFile
    case Raise(e) => Raise(e)
    case Ok(schema) =>
    match c.validate(schema, ToDict(p))
    case Some(message) => Raise(Exc(ValidationError, message))
    case None =>
      match LoadedModel(c.modelFile)
      case Raise(e) => Raise(e)
      case Ok(model) =>
        match model.predict(p.features)
        case Raise(e) => Raise(e)
        case Ok(prediction) => Ok(map["response" := JString(prediction)])
  }

  /** `PredictHandler`, whose `load_model` stores the unpickled model in a field. */
  class PredictHandler {
    var model: Option<Model>

    constructor ()
      ensures model == None
    {
      model := None;
    }

    /**
     * `load_model`: stores whatever the model file unpickles to, then checks
     * that it is fitted; a file that does not load leaves the field as it was.
     */
    method LoadModel(file: Outcome<Model>) returns (r: Outcome<()>)
      modifies this
      ensures model == (if file.Ok? then Some(file.value) else old(model))
      ensures r.Ok? <==> LoadedModel(file).Ok?
      ensures r.Raise? ==> r.exc == LoadedModel(file).exc
    {
      if file.Raise? {
        return Raise(file.exc);
      }
      model := Some(file.value);
      if !model.value.fitted {
        return Raise(Exc(RuntimeError, NotFittedPrefix + model.value.notFittedReason));
      }
      return Ok(());
    }

    /** `handle`: validate, load, predict; the model field is set once validation passes and the file loads. */
    method Handle(p: InputPayload, c: Collaborators) returns (r: Outcome<HandlerResult>)
      modifies this
      ensures r == PredictOutcome(p, c)
      ensures model == (if SchemaAccepts(p, c) && c.modelFile.Ok? then Some(c.modelFile.value) else old(model))
    {
      if c.schemaFile.Raise? {
        return Raise(c.schemaFile.exc);
      }
      var invalid := c.validate(c.schemaFile.value, ToDict(p));
      if invalid.Some? {
        return Raise(Exc(ValidationError, invalid.value));
      }
      var loaded := LoadModel(c.modelFile);
      if loaded.Raise? {
        return Raise(loaded.exc);
      }
      var prediction := model.value.predict(p.features);
      if prediction.Raise? {
        return Raise(prediction.exc);
      }
      return Ok(map["response" := JString(prediction.value)]);
    }
  }

  /**
   * `get_handler` followed by `handler.handle`, the body of the third `try`
   * block: a ping is answered by `PingHandler`, a predict by
   * `PredictHandler`, and any other action is the router's ValueError.
   */
  function HandleOutcome(p: InputPayload, c: Collaborators): (r: Outcome<HandlerResult>)
    ensures p.action == JString("ping") ==> r == Ok(PingHandle(p))
    ensures p.action == JString("predict") ==> r == PredictOutcome(p, c)
    ensures p.action != JString("ping") && p.action != JString("predict") ==>
      r == Raise(Exc(ValueError, UnknownActionMessage(p.action)))
  {
    match GetHandler(p.action)
    case Raise(e) => Raise(e)
    case Ok(Ping) => Ok(PingHandle(p))
    case Ok(Predict) => PredictOutcome(p, c)
  }

  // ---------------------------------------------------------------------
  // Response envelopes
  // ---------------------------------------------------------------------

  /** An API-Gateway response; `body` is the JSON value before `json.dumps`. */
  datatype Response = Response(
    statusCode: int,
    statusDescription: Option<string>,
    headers: map<string, string>,
    isBase64Encoded: bool,
    body: JsonValue)

  /** The one header every response carries. */
  const JsonHeaders: map<string, string> := map["Content-Type" := "application/json"]

  /** An error envelope with the given status and message. */
  predicate IsErrorEnvelope(r: Response, status: int, error: string) {
    && r.statusCode == status
    && r.statusDescription == None
    && r.headers == JsonHeaders
    && !r.isBase64Encoded
    && r.body.JObject?
    && r.body.fields.Keys == {"error", "error_details"}
    && r.body.fields["error"] == JString(error)
  }

  /** A success envelope whose body is the given handler result. */
  predicate IsSuccessEnvelope(r: Response, result: HandlerResult) {
    && r.statusCode == StatusOk
    && r.statusDescription == Some("200 OK")
    && r.headers == JsonHeaders
    && !r.isBase64Encoded
    && r.body == JObject(result)
  }

  /**
   * `_generate_http_error_response`: the given status, a JSON header, not
   * base64, and a body of exactly `error` and `error_details`.
   */
  function ErrorResponse(error: string, details: Option<map<string, JsonValue>>, status: int): (r: Response)
    ensures IsErrorEnvelope(r, status, error)
    ensures r.body.fields["error_details"] == (if details.Some? then JObject(details.value) else JNull)
  {
    var detailsValue := if details.Some? then JObject(details.value) else JNull;
    Response(status, None, JsonHeaders, false, JObject(map["error" := JString(error), "error_details" := detailsValue]))
  }

  /** `_generate_http_success_response`: status 200, "200 OK", and the result as the body. */
  function SuccessResponse(result: HandlerResult): (r: Response)
    ensures IsSuccessEnvelope(r, result)
  {
    Response(StatusOk, Some("200 OK"), JsonHeaders, false, JObject(result))
  }

  /**
   * The third `try` block of `process_event`: a result is a 200; a
   * ValueError or ValidationError is a 400; any other exception is a 500;
   * the message is `str(exc)` and no details are sent.
   */
  function Respond(o: Outcome<HandlerResult>): (r: Response)
    ensures o.Ok? ==> IsSuccessEnvelope(r, o.value)
    ensures o.Raise? && IsClientError(o.exc.kind) ==> IsErrorEnvelope(r, StatusBadRequest, o.exc.message)
    ensures o.Raise? && !IsClientError(o.exc.kind) ==> IsErrorEnvelope(r, StatusInternalServerError, o.exc.message)
    ensures o.Raise? ==> r.body.fields["error_details"] == JNull
  {
    match o
    case Ok(result) => SuccessResponse(result)
    case Raise(e) =>
      if IsClientError(e.kind) then ErrorResponse(e.message, None, StatusBadRequest)
      else ErrorResponse(e.message, None, StatusInternalServerError)
  }

  // ---------------------------------------------------------------------
  // One invocation
  // ---------------------------------------------------------------------

  /** What an invocation gives the host: a response, or an exception that escapes. */
  datatype Reply = Envelope(response: Response) | Escaped(exc: Exc)

  /**
   * `process_event` as a function: the environment check, then parsing,
   * the secret check and the handler, each stage catching only what the
   * source's `except` clause names.
   */
  function Invoke(env: Config.Env, event: Event, c: Collaborators): (r: Reply)
    ensures r.Escaped? ==> !IsClientError(r.exc.kind) && r.exc.kind != RuntimeError
  {
    match Config.CheckRequiredEnvVars(Config.Default, env)
    case Raise(e) => Escaped(e)
    case Ok(_) =>
      match ParsePayload(event, c.decode)
      case Raise(e) =>
        if IsClientError(e.kind) then Envelope(ErrorResponse(e.message, None, StatusBadRequest)) else Escaped(e)
      case Ok(payload) =>
        match ValidateSecret(payload.challengeSecret, ConfiguredSecret(env))
        case Raise(e) =>
          if e.kind == RuntimeError then Envelope(ErrorResponse(e.message, None, StatusUnauthorized)) else Escaped(e)
        case Ok(_) =>
          Envelope(Respond(HandleOutcome(payload, c)))
  }

  /**
   * `LambdaProcessor.process_event`, step by step: a fresh handler object
   * per routed request, the Predict one loading its model into its field.
   */
  method ProcessEvent(env: Config.Env, event: Event, c: Collaborators) returns (reply: Reply)
    ensures reply == Invoke(env, event, c)
  {
    var check := Config.CheckRequiredEnvVars(Config.Default, env);
    if check.Raise? {
      return Escaped(check.exc);
    }
    var parsed := ParsePayload(event, c.decode);
    if parsed.Raise? {
      if IsClientError(parsed.exc.kind) {
        return Envelope(ErrorResponse(parsed.exc.message, None, StatusBadRequest));
      }
      return Escaped(parsed.exc);
    }
    var payload := parsed.value;
    var auth := ValidateSecret(payload.challengeSecret, ConfiguredSecret(env));
    if auth.Raise? {
      if auth.exc.kind == RuntimeError {
        return Envelope(ErrorResponse(auth.exc.message, None, StatusUnauthorized));
      }
      return Escaped(auth.exc);
    }
    var result: Outcome<HandlerResult>;
    var handler := GetHandler(payload.action);
    match handler {
      case Raise(e) =>
        result := Raise(e);
      case Ok(Ping) =>
        result := Ok(PingHandle(payload));
      case Ok(Predict) =>
        var predictor := new PredictHandler();
        result := predictor.Handle(payload, c);
    }
    return Envelope(Respond(result));
  }
}
