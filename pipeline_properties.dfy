/**
 * What one invocation of the prediction Lambda answers, stated over the
 * specification `Pipeline.Invoke`: the order of the stages, the status
 * code of every outcome, and the two shapes of a response.
 */
module PipelineProperties {

  import opened Wrappers
  import opened Errors
  import opened Json
  import opened Pipeline
  import Config
  import Text

  /** The shipped required variables are all set: the check at the top of `process_event` passes. */
  predicate EnvReady(env: Config.Env) {
    Config.IsSet(env, "CHALLENGE_SECRET") && Config.IsSet(env, "WORKSPACE")
  }

  /** `EnvReady` is exactly the condition under which the environment check returns. */
  lemma EnvReadyIsCheckPassing(env: Config.Env)
    ensures EnvReady(env) <==> Config.CheckRequiredEnvVars(Config.Default, env).Ok?
  {
    assert Config.Default.required == ["CHALLENGE_SECRET", "WORKSPACE"];
  }

  /** The secret the payload must carry, once the environment check has passed. */
  lemma ReadySecret(env: Config.Env)
    requires EnvReady(env)
    ensures ConfiguredSecret(env) == Some(env["CHALLENGE_SECRET"])
    ensures Config.CheckRequiredEnvVars(Config.Default, env).Ok?
  {
    EnvReadyIsCheckPassing(env);
  }

  /** A missing required variable escapes as OSError before the event is looked at. */
  lemma MissingEnvEscapesFirst(env: Config.Env, event: Event, c: Collaborators)
    requires !EnvReady(env)
    ensures Invoke(env, event, c) == Escaped(Exc(OSError,
      Config.MissingVarsPrefix + Text.Join(Config.MissingVars(Config.Default.required, env), ", ")))
  {
    EnvReadyIsCheckPassing(env);
  }

  /** A direct invocation is its own payload. */
  lemma DirectEventIsPayload(event: Event, decode: string -> Decoded)
    requires "requestContext" !in event
    ensures ParsePayload(event, decode) == PayloadFromBody(JObject(event))
  {
  }

  /** A direct event with both required fields and no other key parses to the payload of its values. */
  lemma DirectPayload(event: Event, decode: string -> Decoded)
    requires "requestContext" !in event && event.Keys <= PayloadFields
    requires "action" in event && "challenge_secret" in event
    ensures ParsePayload(event, decode) == Ok(InputPayload(event["action"], event["challenge_secret"],
      if "features" in event then event["features"] else JNull))
  {
  }

  /** An HTTP invocation is parsed from its decoded body alone; the wrapper's other keys play no part. */
  lemma WrappedEventUsesBody(event: Event, decode: string -> Decoded, text: string, body: JsonValue)
    requires "requestContext" in event && "body" in event && event["body"] == JString(text)
    requires decode(text) == Parsed(body)
    ensures ParsePayload(event, decode) == PayloadFromBody(body)
  {
  }

  /** A body the decoder rejects gives 400 with the decoder's own message, unprefixed. */
  lemma UndecodableBodyIs400(env: Config.Env, event: Event, c: Collaborators, text: string, message: string)
    requires EnvReady(env)
    requires "requestContext" in event && "body" in event && event["body"] == JString(text)
    requires c.decode(text) == Malformed(message)
    ensures Invoke(env, event, c) == Envelope(ErrorResponse(message, None, StatusBadRequest))
  {
    ReadySecret(env);
  }

  /**
   * A payload that is not a mapping, has a key besides the three fields, or
   * lacks `action` or `challenge_secret` gives 400 with a message starting
   * "Invalid input payload: ", before the secret is looked at.
   */
  lemma InvalidPayloadIs400(env: Config.Env, event: Event, c: Collaborators, body: JsonValue)
    requires EnvReady(env)
    requires ParsePayload(event, c.decode) == PayloadFromBody(body)
    requires !(body.JObject? && body.fields.Keys <= PayloadFields
               && "action" in body.fields && "challenge_secret" in body.fields)
    ensures Invoke(env, event, c).Envelope?
    ensures Invoke(env, event, c).response.statusCode == StatusBadRequest
    ensures InvalidPayloadPrefix <= Invoke(env, event, c).response.body.fields["error"].s
  {
    ReadySecret(env);
  }

  /**
   * A body whose only key outside the three fields is "self" is refused with
   * CPython's complaint about a second value for `self`, whatever its order.
   */
  lemma SelfKeyIsSecondValue(body: JsonValue)
    requires body.JObject? && body.fields.Keys - PayloadFields == {"self"}
    ensures PayloadFromBody(body)
      == Raise(Exc(ValueError, InvalidPayloadPrefix + "InputPayload.__init__() got multiple values for argument 'self'"))
  {
  }

  /**
   * Leaving out `challenge_secret`, in a direct event or in the body of an
   * HTTP one, is a malformed payload (400), not a failed secret check (401).
   */
  lemma MissingSecretFieldIs400(env: Config.Env, event: Event, c: Collaborators, body: JsonValue)
    requires EnvReady(env)
    requires ParsePayload(event, c.decode) == PayloadFromBody(body)
    requires !(body.JObject? && "challenge_secret" in body.fields)
    ensures Invoke(env, event, c).Envelope?
    ensures Invoke(env, event, c).response.statusCode == StatusBadRequest
    ensures InvalidPayloadPrefix <= Invoke(env, event, c).response.body.fields["error"].s
  {
    InvalidPayloadIs400(env, event, c, body);
  }

  /**
   * A parsed payload whose secret is missing, empty or, once stripped,
   * different from the configured one gives 401 with the fixed message,
   * whatever its action: the secret check runs before routing.
   */
  lemma SecretFailureIs401(env: Config.Env, event: Event, c: Collaborators, p: InputPayload)
    requires EnvReady(env)
    requires ParsePayload(event, c.decode) == Ok(p)
    requires !Truthy(p.challengeSecret)
          || (p.challengeSecret.JString? && Text.Strip(p.challengeSecret.s) != env["CHALLENGE_SECRET"])
    ensures Invoke(env, event, c) == Envelope(ErrorResponse(SecretMismatch, None, StatusUnauthorized))
  {
    ReadySecret(env);
  }

  /** An unknown action with a wrong secret is refused as unauthorized, not as a bad action. */
  lemma WrongSecretBeatsUnknownAction(env: Config.Env, event: Event, c: Collaborators, p: InputPayload)
    requires EnvReady(env)
    requires ParsePayload(event, c.decode) == Ok(p)
    requires p.action != JString("ping") && p.action != JString("predict")
    requires p.challengeSecret.JString? && Text.Strip(p.challengeSecret.s) != env["CHALLENGE_SECRET"]
    ensures Invoke(env, event, c).Envelope?
    ensures Invoke(env, event, c).response.statusCode == StatusUnauthorized
    ensures Invoke(env, event, c).response.body.fields["error"] == JString(SecretMismatch)
  {
    SecretFailureIs401(env, event, c, p);
  }

  /** A secret that is truthy but not a string has no `strip`: the AttributeError escapes. */
  lemma NonStringSecretEscapes(env: Config.Env, event: Event, c: Collaborators, p: InputPayload)
    requires EnvReady(env)
    requires ParsePayload(event, c.decode) == Ok(p)
    requires Truthy(p.challengeSecret) && !p.challengeSecret.JString?
    ensures Invoke(env, event, c).Escaped?
    ensures Invoke(env, event, c).exc.kind == AttributeError
  {
    ReadySecret(env);
  }

  /** A configured secret with surrounding whitespace can never be matched: only the incoming value is stripped. */
  lemma PaddedConfiguredSecretNeverMatches(secret: JsonValue, configured: string)
    requires configured != [] && (Text.IsSpace(configured[0]) || Text.IsSpace(configured[|configured| - 1]))
    ensures ValidateSecret(secret, Some(configured)).Raise?
  {
    if secret.JString? && secret.s != "" && Text.Strip(secret.s) == configured {
      assert false;
    }
  }

  /** The payload passes the secret check. */
  predicate Authorised(env: Config.Env, p: InputPayload) {
    ValidateSecret(p.challengeSecret, ConfiguredSecret(env)).Ok?
  }

  /** An authorised payload with an action other than "ping" and "predict" gives 400 naming the action. */
  lemma UnknownActionIs400(env: Config.Env, event: Event, c: Collaborators, p: InputPayload)
    requires EnvReady(env) && ParsePayload(event, c.decode) == Ok(p) && Authorised(env, p)
    requires p.action != JString("ping") && p.action != JString("predict")
    ensures Invoke(env, event, c)
      == Envelope(ErrorResponse("Action not recognized: `" + Str(p.action) + "`", None, StatusBadRequest))
  {
    ReadySecret(env);
  }

  /**
   * An authorised ping answers 200 {"response": "pong"}, whatever the features
   * and collaborators, so repeated pings get identical envelopes.
   */
  lemma PingIsPong(env: Config.Env, event: Event, c: Collaborators, p: InputPayload)
    requires EnvReady(env) && ParsePayload(event, c.decode) == Ok(p) && Authorised(env, p)
    requires p.action == JString("ping")
    ensures Invoke(env, event, c) == Envelope(SuccessResponse(map["response" := JString("pong")]))
  {
    ReadySecret(env);
  }

  /** An authorised predict whose `to_dict()` fails the schema gives 400 with the text of the ValidationError, before any model is loaded. */
  lemma SchemaErrorIs400(env: Config.Env, event: Event, c: Collaborators, p: InputPayload, message: string)
    requires EnvReady(env) && ParsePayload(event, c.decode) == Ok(p) && Authorised(env, p)
    requires p.action == JString("predict")
    requires c.schemaFile.Ok? && c.validate(c.schemaFile.value, ToDict(p)) == Some(message)
    ensures Invoke(env, event, c) == Envelope(ErrorResponse(message, None, StatusBadRequest))
  {
    ReadySecret(env);
  }

  /**
   * A schema file that cannot be read fails the request before validation:
   * 400 when its text is not JSON (a ValueError), 500 when it cannot be opened.
   */
  lemma SchemaFileErrorStatus(env: Config.Env, event: Event, c: Collaborators, p: InputPayload)
    requires EnvReady(env) && ParsePayload(event, c.decode) == Ok(p) && Authorised(env, p)
    requires p.action == JString("predict")
    requires c.schemaFile.Raise?
    ensures Invoke(env, event, c) == Envelope(ErrorResponse(c.schemaFile.exc.message, None,
      if IsClientError(c.schemaFile.exc.kind) then StatusBadRequest else StatusInternalServerError))
  {
    ReadySecret(env);
  }

  /** An unfitted model is an internal error: 500 with "Model not fitted: " and the reason. */
  lemma UnfittedModelIs500(env: Config.Env, event: Event, c: Collaborators, p: InputPayload)
    requires EnvReady(env) && ParsePayload(event, c.decode) == Ok(p) && Authorised(env, p)
    requires p.action == JString("predict")
    requires SchemaAccepts(p, c)
    requires c.modelFile.Ok? && !c.modelFile.value.fitted
    ensures Invoke(env, event, c)
      == Envelope(ErrorResponse(NotFittedPrefix + c.modelFile.value.notFittedReason, None, StatusInternalServerError))
  {
    ReadySecret(env);
  }

  /** A valid request to a fitted model answers 200 with the model's prediction as text. */
  lemma PredictionIs200(env: Config.Env, event: Event, c: Collaborators, p: InputPayload, prediction: string)
    requires EnvReady(env) && ParsePayload(event, c.decode) == Ok(p) && Authorised(env, p)
    requires p.action == JString("predict")
    requires SchemaAccepts(p, c)
    requires c.modelFile.Ok? && c.modelFile.value.fitted
    requires c.modelFile.value.predict(p.features) == Ok(prediction)
    ensures Invoke(env, event, c) == Envelope(SuccessResponse(map["response" := JString(prediction)]))
  {
    ReadySecret(env);
  }

  /** A prediction failure is classified like any handler exception: ValueError 400, anything else 500. */
  lemma PredictionFailureStatus(env: Config.Env, event: Event, c: Collaborators, p: InputPayload, e: Exc)
    requires EnvReady(env) && ParsePayload(event, c.decode) == Ok(p) && Authorised(env, p)
    requires p.action == JString("predict")
    requires SchemaAccepts(p, c)
    requires c.modelFile.Ok? && c.modelFile.value.fitted
    requires c.modelFile.value.predict(p.features) == Raise(e)
    ensures Invoke(env, event, c) == Envelope(ErrorResponse(e.message, None,
      if IsClientError(e.kind) then StatusBadRequest else StatusInternalServerError))
  {
    ReadySecret(env);
  }

  /** The body of a successful response: a single text under "response". */
  predicate IsAnswer(result: HandlerResult) {
    result.Keys == {"response"} && result["response"].JString?
  }

  /** Every handler that returns, returns an answer. */
  lemma {:induction false} HandlersAnswer(p: InputPayload, c: Collaborators)
    requires HandleOutcome(p, c).Ok?
    ensures IsAnswer(HandleOutcome(p, c).value)
  {
    match GetHandler(p.action)
    case Raise(_) =>
    case Ok(Ping) =>
      assert HandleOutcome(p, c).value == map["response" := JString("pong")];
    case Ok(Predict) =>
      var prediction := c.modelFile.value.predict(p.features).value;
      assert HandleOutcome(p, c).value == map["response" := JString(prediction)];
  }

  /**
   * Every response has exactly one of the two documented shapes: 200 with
   * the answer and no `error_details`, or 400, 401 or 500 with exactly
   * `error` and a null `error_details`.
   */
  lemma {:induction false} EnvelopeShapes(env: Config.Env, event: Event, c: Collaborators)
    requires Invoke(env, event, c).Envelope?
    ensures var r := Invoke(env, event, c).response;
      || (r.statusCode == StatusOk && r.body.JObject? && IsAnswer(r.body.fields)
          && IsSuccessEnvelope(r, r.body.fields))
      || (r.statusCode in {StatusBadRequest, StatusUnauthorized, StatusInternalServerError}
          && r.body.JObject? && r.body.fields["error"].JString?
          && IsErrorEnvelope(r, r.statusCode, r.body.fields["error"].s)
          && r.body.fields["error_details"] == JNull)
  {
    var parsed := ParsePayload(event, c.decode);
    if parsed.Ok? && ValidateSecret(parsed.value.challengeSecret, ConfiguredSecret(env)).Ok? {
      var o := HandleOutcome(parsed.value, c);
      if o.Ok? {
        HandlersAnswer(parsed.value, c);
      }
    }
  }
}
