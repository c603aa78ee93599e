# Prediction Lambda request pipeline, in Dafny

This project models the entry pipeline of a single-function AWS Lambda
service that answers two actions, a liveness `ping` and a `predict` backed
by a pre-trained scikit-learn model, together with the small configuration
object it reads its settings from.

One invocation (`LambdaProcessor.process_event` in `lambdas/predict.py`)
runs these stages in a fixed order:

1. check that the required environment variables are set (an `OSError` that
   escapes otherwise);
2. parse the event into an `InputPayload`: an event with a `requestContext`
   key carries the payload as JSON text under `body`, any other event is the
   payload itself;
3. check the `challenge_secret` against the configured secret;
4. route the action (`ping` or `predict`) to a handler and run it;
5. turn the result, or the exception raised, into an API-Gateway response
   envelope with status 200, 400, 401 or 500 (sections 15.3.1, 15.5.1,
   15.5.2 and 15.6.1 of RFC 9110).

Python exceptions are values of `Errors.Outcome`, tagged with their class,
so each `except` clause of the source is modelled by the classes it names:
the parsing block catches `ValueError` and `ValidationError` (400), the
secret block only `RuntimeError` (401), and the handler block everything
(400 for `ValueError`/`ValidationError`, 500 otherwise). Exceptions that no
clause catches are `Pipeline.Reply.Escaped`.

Files:

- `wrappers.dfy`, `errors.dfy`: `Option`, the exception classes and `Outcome`.
- `text.dfy`: Python's `str.strip()` (with the full `str.isspace()` set),
  `str.lower()`, `str.join` and `str(int)`.
- `json.dfy`: decoded JSON values, Python truthiness, `type(v).__name__`,
  `str()` and `repr()`.
- `config.dfy`: `lambdas/config.py`, with the environment as a
  `map<string, string>` and the two whitelists as data.
- `pipeline.dfy`: `lambdas/predict.py`. Every stage is a function over
  `Outcome`; `Invoke` is `process_event` as a function. `PredictHandler` is
  a class whose `LoadModel` assigns its `model` field, as `load_model` does,
  and `ProcessEvent` is `process_event` step by step, allocating a handler
  per request, proved equal to `Invoke`.
- `pipeline_properties.dfy`: stage order, status codes and response shapes,
  stated over `Invoke`.

The JSON decoder (`json.loads`), the loaded features schema file, the
jsonschema validator, and the unpickled model file are the `Pipeline.Collaborators` of an
invocation, passed in as values. A model is whether `check_is_fitted`
accepts it, the text of its `NotFittedError`, and a function from the
payload's features to `str(prediction[0])` or a raised exception. Response
bodies are JSON values before `json.dumps`.

Points where the code may surprise a reader:

- The secret field is `challenge_secret`, a required dataclass field. A
  payload without it fails at parsing with 400, not at the secret check with
  401 (`MissingSecretFieldIs400`).
- A body that fails JSON decoding gives 400 with the decoder's own message.
  It has no "Invalid input payload: " prefix, because the decoding is outside
  the `try` (`UndecodableBodyIs400`).
- Some exceptions do reach the host. These are a missing `body` under
  `requestContext` (`KeyError`), a `body` that is not text (`TypeError`), and
  a truthy secret that is not a string (`AttributeError` from `.strip()`;
  see `NonStringSecretEscapes`).
- An unfitted model raises `RuntimeError`. The generic handler turns it into
  500.
- `to_dict` drops every field whose value is None. A `"features": null`
  entry is therefore the same as no features.

`check_required_env_vars`, `__getattr__` and `sentry_dsn` are pure functions
of the environment map, so none of them can change the environment.

## Model

| member | source | states |
|---|---|---|
| `Config.GetAttr` | lambdas/config.py:19-24 | a name in the required or optional whitelist reads its environment value (None exactly when unset); any other name raises AttributeError "'<name>' not a valid configuration variable" |
| `Config.WhitelistIsDataDriven` | lambdas/config.py:13-24 | appending a name to the optional whitelist makes it readable with its environment value and changes no other name's lookup |
| `Config.UnlistedNameRefused` | tests/test_config.py:30-35 | with the shipped whitelists, a name other than the three variables is refused whatever the environment holds |
| `Config.MissingVars` | lambdas/config.py:28 | the result holds exactly the listed variables that are unset or empty, as a subsequence of the list (list order kept) |
| `Config.SubsequenceUnique` | lambdas/config.py:28 | in a list without duplicates, two subsequences with the same members are equal |
| `Config.MissingVarsInOrder` | lambdas/config.py:28-30 | any list of exactly the missing variables in whitelist order is the one the check reports, so the message's order is determined |
| `Config.NothingSetAllMissing` | lambdas/config.py:28 | when no listed variable is set, all of them are reported, in their order |
| `Config.CheckRequiredEnvVars` | lambdas/config.py:26-31 | raises exactly when some required variable is unset or empty, as OSError "Missing required environment variables: " followed by the missing ones joined by ", "; otherwise returns |
| `Config.NoRequiredVarSet` | lambdas/config.py:26-31 | with neither shipped variable set, the message names CHALLENGE_SECRET then WORKSPACE |
| `Config.SentryDsn` | lambdas/config.py:33-38 | the DSN exactly as set (untrimmed), unless it is unset, empty, or some casing of "none" after stripping, when it is None |
| `Config.SentryDsnDisabledSpellings` | lambdas/config.py:33-38 | "", "None" and " NONE " each give None |
| `Config.BlankSentryDsnKept` | lambdas/config.py:36-37 | a DSN of whitespace only is truthy and is returned as it is |
| `Text.Strip` | lambdas/predict.py:140 | the result is the input with leading and trailing whitespace removed, and neither starts nor ends with whitespace |
| `Text.StripAllSpace` | lambdas/config.py:36 | a string of whitespace only strips to the empty string |
| `Text.LowerIsNone` | lambdas/config.py:36 | lowering gives "none" exactly for the case variants of "none" |
| `Text.NatToString` | lambdas/predict.py:152 | `str(n)` is a non-empty run of decimal digits, with a leading 0 only for zero |
| `Text.NatToStringRoundTrip` | lambdas/predict.py:152 | reading the digits of `str(n)` back gives `n` |
| `Pipeline.ToDict` | lambdas/predict.py:27-28 | keys are exactly the fields whose value is not None, with values unchanged; no `features` key when features are absent |
| `Pipeline.PayloadFromBody` | lambdas/predict.py:127-134 | builds the payload exactly when the body is a mapping whose keys are among action, challenge_secret, features and include the first two, carrying their values; otherwise a ValueError starting "Invalid input payload: " |
| `Pipeline.ParsePayload` | lambdas/predict.py:123-134 | only ValueError, KeyError or TypeError are raised; KeyError exactly when requestContext is present without body, TypeError exactly when the body is not text |
| `Pipeline.ConfiguredSecret` | lambdas/predict.py:140 | the configured secret is the CHALLENGE_SECRET environment value, None when unset |
| `Pipeline.ValidateSecret` | lambdas/predict.py:136-143 | passes exactly when the secret is a non-empty string whose stripped value equals the unstripped configured secret; a falsy value or mismatch raises RuntimeError "Challenge secret missing or mismatch"; a truthy non-string raises AttributeError |
| `Pipeline.GetHandler` | lambdas/predict.py:145-153 | "ping" selects Ping and "predict" selects Predict, each exactly; anything else raises ValueError "Action not recognized: `<action>`" |
| `Pipeline.LoadedModel` | lambdas/predict.py:48-63 | yields the model exactly when the file loads and the model is fitted; a load error passes through unchanged; an unfitted model raises RuntimeError "Model not fitted: " plus the reason |
| `Pipeline.PingHandle` | lambdas/predict.py:41-42 | the answer is {"response": "pong"}, whatever the payload |
| `Pipeline.PredictOutcome` | lambdas/predict.py:65-76 | a schema file that cannot be read raises its own exception; a validation failure of to_dict() raises ValidationError with the text of the validator's ValidationError; after validation, a load or fitted-check failure is raised as `LoadedModel` gives it; a result means validation passed, the model is fitted, and the body is {"response": prediction} |
| `Pipeline.PredictHandler.LoadModel` | lambdas/predict.py:48-63 | stores the unpickled model in the field before the fitted check; an unloadable file leaves the field unchanged; returns or raises as `LoadedModel` |
| `Pipeline.PredictHandler.Handle` | lambdas/predict.py:65-76 | returns or raises exactly what `PredictOutcome` specifies; the field holds the model once validation passes and the file loads |
| `Pipeline.HandleOutcome` | lambdas/predict.py:108-109 | "ping" is answered by `PingHandle`, "predict" by `PredictOutcome`, and any other action raises the router's ValueError "Action not recognized: `<action>`" |
| `Pipeline.ErrorResponse` | lambdas/predict.py:155-175 | the given status, Content-Type application/json, not base64, no status description, a body of exactly `error` and `error_details` (null unless details are given) |
| `Pipeline.SuccessResponse` | lambdas/predict.py:177-189 | status 200, "200 OK", the JSON header, not base64, and the handler result as the body |
| `Pipeline.Respond` | lambdas/predict.py:107-121 | a result gives 200; ValueError or ValidationError gives 400; any other exception gives 500; the error text is str(exc) and details are null |
| `Pipeline.Invoke` | lambdas/predict.py:83-121 | an escaping exception is never one the pipeline catches (not ValueError, ValidationError or RuntimeError) |
| `Pipeline.ProcessEvent` | lambdas/predict.py:83-121 | the step-by-step processor, with a fresh PredictHandler per predict request, returns exactly the reply `Invoke` specifies |
| `PipelineProperties.EnvReadyIsCheckPassing` | lambdas/config.py:26-31 | the environment check passes exactly when CHALLENGE_SECRET and WORKSPACE are both set and non-empty |
| `PipelineProperties.MissingEnvEscapesFirst` | lambdas/predict.py:84 | with a required variable missing, the OSError escapes whatever the event |
| `PipelineProperties.DirectEventIsPayload` | lambdas/predict.py:125 | an event without requestContext is itself the payload |
| `PipelineProperties.DirectPayload` | lambdas/predict.py:125-134 | a direct event with both required fields and no other key parses to the payload of its values, features None when absent |
| `PipelineProperties.WrappedEventUsesBody` | lambdas/predict.py:125 | an event with requestContext is parsed from its decoded body alone |
| `PipelineProperties.UndecodableBodyIs400` | lambdas/predict.py:91-97 | a body the decoder rejects gives 400 with the decoder's message, unprefixed |
| `PipelineProperties.InvalidPayloadIs400` | lambdas/predict.py:91-97 | a non-mapping, an extra key, or a missing action or challenge_secret gives 400 with a message starting "Invalid input payload: " |
| `PipelineProperties.SelfKeyIsSecondValue` | lambdas/predict.py:128-132 | a body whose only extra key is "self" is refused with "Invalid input payload: InputPayload.__init__() got multiple values for argument 'self'" |
| `PipelineProperties.MissingSecretFieldIs400` | lambdas/predict.py:24 | a payload without challenge_secret, whether the event itself or the decoded body of an HTTP event, gets 400 with the "Invalid input payload: " prefix, not 401 |
| `PipelineProperties.SecretFailureIs401` | lambdas/predict.py:99-105 | a falsy secret, or a string whose stripped value differs from the configured one, gives 401 "Challenge secret missing or mismatch" whatever the action |
| `PipelineProperties.WrongSecretBeatsUnknownAction` | lambdas/predict.py:99-115 | an unknown action with a wrong secret gives 401, not 400 |
| `PipelineProperties.NonStringSecretEscapes` | lambdas/predict.py:99-105 | a truthy secret that is not a string raises AttributeError, which escapes the pipeline |
| `PipelineProperties.PaddedConfiguredSecretNeverMatches` | lambdas/predict.py:138-141 | a configured secret with surrounding whitespace is never matched, since only the incoming value is stripped |
| `PipelineProperties.UnknownActionIs400` | lambdas/predict.py:107-115 | an authorised request with another action gives 400 "Action not recognized: `<action>`" |
| `PipelineProperties.PingIsPong` | lambdas/predict.py:41-42 | an authorised ping gives 200 {"response": "pong"}, whatever the event, features and collaborators, so repeated pings get identical envelopes |
| `PipelineProperties.SchemaErrorIs400` | lambdas/predict.py:67-71 | a schema failure gives 400 with the text of the validator's ValidationError, whatever the model file |
| `PipelineProperties.SchemaFileErrorStatus` | lambdas/predict.py:67-68 | a schema file that cannot be read fails an authorised predict with its exception's message: 400 when it is a ValueError (not JSON), 500 otherwise (cannot be opened) |
| `PipelineProperties.UnfittedModelIs500` | lambdas/predict.py:58-63 | an unfitted model gives 500 "Model not fitted: " plus the reason |
| `PipelineProperties.PredictionIs200` | lambdas/predict.py:73-76 | a valid request to a fitted model gives 200 with the prediction's text under "response" |
| `PipelineProperties.PredictionFailureStatus` | lambdas/predict.py:111-121 | an exception from prediction gives 400 for ValueError or ValidationError and 500 otherwise |
| `PipelineProperties.HandlersAnswer` | lambdas/predict.py:107-110 | whatever a handler returns is a single text under "response" |
| `PipelineProperties.EnvelopeShapes` | lambdas/predict.py:155-189 | every envelope is either 200 with a single "response" text and no error_details, or 400, 401 or 500 with exactly `error` and a null `error_details` |

## Left out

- Reading the schema file and unpickling the model file are not modelled as
  I/O. Each is given by its result, the loaded value or the exception raised,
  and that result does shape the response.
- Telemetry is not modelled: the logging calls, `json.dumps(event)` for the
  debug log, `configure_sentry` and `sentry_sdk.init`. The logging does not
  change a response. `configure_sentry` runs outside every `try`, so an
  exception from `sentry_sdk.init` would escape every invocation before
  parsing. A malformed DSN can cause one, including the whitespace-only DSN
  that `Config.BlankSentryDsnKept` shows is kept. The model does not capture
  this.
- `os.getenv` is replaced by an explicit environment map. The module-level
  `CONFIG` and the `LambdaProcessor` object that holds it are replaced by
  passing the environment to each stage. `lambda_handler` is
  `ProcessEvent` itself.
- `json.loads` and jsonschema's `validate` are parameters, not
  implementations. The decoder's own exceptions other than `JSONDecodeError`
  (such as `RecursionError`) and the validator's `SchemaError` for a broken
  schema are not modelled.
- `Json.JsonValue` has integer numbers only. JSON floats, and with them the
  truthiness and `repr` of `0.0` and other floats, are not modelled.
- `Json.Repr`: a non-empty dict is rendered "{...}", because a Dafny map
  keeps no insertion order. Strings inside a list are quoted with `'`,
  without Python's choice of quote character or its escapes. This matters
  only for the text of "Action not recognized" when the action is not a
  string.
- `Pipeline.FaultText`: the text after "Invalid input payload: " follows
  the wording of Python 3.10 and later for a missing argument and for a
  non-mapping body, where the class is named with its module
  (`lambdas.predict.InputPayload()`), and for a body whose only key outside
  the three fields is `self` ("got multiple values for argument 'self'").
  For any other unexpected key, CPython names the first one in the body's
  insertion order, which a Dafny map does not keep. The model then gives
  "got an unexpected keyword argument" without the name. It gives that text
  even when `self` comes first, where CPython would complain about multiple
  values for `self` instead.
- `Text.Lower` maps only the ASCII letters A to Z. Its only use is the
  comparison with "none". No other character lowers to n, o or e, so the
  outcome of that comparison is the same as with Python's full Unicode
  `str.lower()`.
- `Pipeline.Model`: `check_is_fitted` is a flag with a reason text. Building
  the one-row DataFrame and calling `model.predict` is one function from the
  features to `str(prediction[0])` or an exception. Its `TypeError` for an
  object that is not an estimator is not modelled.
- `tests/test_predict.py` and `tests/test_my_function.py` are not part of
  this model. They describe behaviour the current `lambdas/predict.py` no
  longer has.
