# create_function: request assembly and call sequencing

This project is a Dafny model of `create_function` from python-lambda, the step that deploys a
new AWS Lambda function. The Python function does two things:

- It turns the configuration dictionary, the artifact path, the `use_s3` / `s3_file` arguments
  and the environment values `S3_BUCKET_NAME` and `LAMBDA_FUNCTION_NAME` into the exact keyword
  set it passes to the boto3 client's `create_function`.
- It then calls `put_function_concurrency` if the resolved reserved concurrency is positive.

The implementation module (`aws_lambda/aws_lambda.py`) is not part of this model. Its behaviour
is taken from `tests/unit/test_create_function.py`. Those tests compare the complete keyword set
with `assert_called_with(**kwargs)`, so they fix which keys are present and which are absent.

Modules, one per component:

- `Options` (`options.dfy`): an optional value. It models a configuration key that may be
  absent, and a request key that is sent only for a non-empty mapping.
- `Strings` (`strings.dfy`): Python's `str.split(',')` and `str.strip()`. Each is proved against
  an independent characterisation:
  - split is the inverse of `','.join` on comma-free pieces;
  - strip removes exactly a whitespace prefix and a whitespace suffix.
- `NetworkConfig` (`network_config.dfy`): the `VpcConfig` fragment built from the
  comma-separated `subnet_ids` and `security_group_ids` strings.
- `EnvironmentVariables` (`environment.dfy`): `Environment.Variables`. Each configured value goes
  through the external coercion `get_environment_variable_value`, once per entry, in mapping order.
- `Request` (`request.dfy`): the configuration, the collaborators, the tagged `Code` choice
  (inline `ZipFile` bytes, or `S3Bucket`/`S3Key`), and the assembled create request with its key set.
- `Orchestrator` (`orchestrator.dfy`): the trace of provider calls. It holds the create call,
  followed by the concurrency call when the limit is positive.
- `Scenarios` (`scenarios.dfy`): the six unit tests, with their fixtures and the exact calls
  each one expects.

The collaborators are parameters: `read`, `get_role_name` (which uses `get_account_id`),
`get_concurrency` and `get_environment_variable_value`. The two environment values are a
parameter too (`Ambient`). The coercion is modelled as a function of the call number and the raw
text. This covers both cases the tests need:

- a real coercion, which looks only at the text;
- the tests' scripted mock (`side_effect=[1, 'testing']`), which answers by call number.

The contract "entry `i` receives the answer to call `i`, made on its own raw value" is therefore
the statement that coercion happens once per entry, in order.

Where the tests are silent, the model makes these choices:

- `Description`, `Timeout` and `MemorySize` take the configured value when one is given, and the
  defaults `''`, 15 and 512 otherwise. The tests exercise only the defaults.
- A present but empty id string is split like any other, giving `[""]`. An absent one gives `[]`.
- The concurrency gate is `limit > 0`. The tests exercise only 0 and 1.
- `Tags` and `Environment` are sent only for a non-empty mapping. An absent or empty mapping
  leaves the key out entirely rather than sending an empty object, which keeps the request's
  shape exactly as the provider expects. The tests use only non-empty mappings (lines 107-116 and
  122-139), so they agree with this rule but do not decide the empty case.

## Model

| member | source | states |
|---|---|---|
| Strings.Split | tests/unit/test_create_function.py:71-74 | splitting on a comma gives one piece more than there are commas, and no piece contains a comma |
| Strings.JoinSplit | tests/unit/test_create_function.py:71-74 | joining the pieces of a split with the separator gives back the original string |
| Strings.SplitJoin | tests/unit/test_create_function.py:71-74 | splitting a join of at least one comma-free piece gives back those pieces in order |
| Strings.SplitIsInverseOfJoin | tests/unit/test_create_function.py:71-74 | `Split(s) == parts` holds exactly when the parts are non-empty in number, comma-free, and join to `s` |
| Strings.Strip | tests/unit/test_create_function.py:71-74 | the stripped string is no longer than the input and has no whitespace at either end |
| Strings.StripIsPaddedSlice | tests/unit/test_create_function.py:71-74 | the input is a whitespace prefix, then the stripped string, then a whitespace suffix, so only whitespace is removed |
| Strings.StripRemovesPadding | tests/unit/test_create_function.py:71-74 | padding a whitespace-free-ended string with whitespace on both sides and stripping it gives it back (uniqueness of strip) |
| Strings.StripIdempotent | tests/unit/test_create_function.py:71-74 | stripping twice equals stripping once |
| NetworkConfig.ParseIdList | tests/unit/test_create_function.py:71-74 | an id list is empty exactly when its key is absent; a present string gives one id more than it has commas, each comma-free and stripped |
| NetworkConfig.BuildVpcConfig | tests/unit/test_create_function.py:37 | `VpcConfig` is always built; each list is empty exactly when its key is absent, and otherwise is the parsed list |
| NetworkConfig.ParsePaddedList | tests/unit/test_create_function.py:71-74 | round trip: comma-free ids joined by commas, each with any whitespace around it, parse back to the same ids in order |
| NetworkConfig.ParsesCommaSpaceList | tests/unit/test_create_function.py:71-74 | `"x, y"` parses to `[x, y]` for comma-free ids with no whitespace at their ends |
| EnvironmentVariables.CoerceFrom | tests/unit/test_create_function.py:122-136 | the `i`-th entry keeps its name and gets the coercion's answer to call `calls + i` on its own raw value |
| EnvironmentVariables.CoerceVariables | tests/unit/test_create_function.py:122-136 | `Variables` has the configured names in configured order, and entry `i` holds the answer to the `i`-th coercion call on the `i`-th raw value |
| EnvironmentVariables.CoercePreservesDistinctNames | tests/unit/test_create_function.py:126-136 | the coerced mapping has distinct names exactly when the configured mapping does |
| Request.ResolveCode | tests/unit/test_create_function.py:80-89 | `Code` is an S3 reference exactly when `use_s3` is set; it is then `{S3Bucket: bucket, S3Key: s3_file}` with only those keys, and otherwise `{ZipFile: read(path)}` |
| Request.AssembleRequest | tests/unit/test_create_function.py:27-39 | the request's function name is the env name, runtime/handler come from config, role from the resolver, `Code` is the resolved code source (`{ZipFile: read(path)}` or the bucket/key pair), `VpcConfig` is the parsed id lists (empty exactly when unset), `Publish` is true, defaults `''`/15/512 apply when unset, `Tags` is present exactly when the configured tags are non-empty and then equals them, and `Environment` is present exactly when the configured variables are non-empty, with the configured names and per-call coerced values |
| Request.OptionalKeys | tests/unit/test_create_function.py:27-39 | a request carries `Tags` / `Environment` exactly when those fields are set, and carries only the ten base keys exactly when neither is set |
| Request.AssembledKeys | tests/unit/test_create_function.py:103-139 | the assembled request carries `Tags` exactly when the configured `tags` mapping is non-empty, `Environment` exactly when `environment_variables` is, and only the base keys exactly when neither is |
| Request.EmptyMappingsAreOmitted | tests/unit/test_create_function.py:103-139 | empty `tags` and `environment_variables` mappings send neither key: the request has only the base keys and equals the one for a configuration without them, apart from the resolved role |
| Request.S3ChangesOnlyCode | tests/unit/test_create_function.py:80-89 | with `use_s3` and a key, the request equals the inline request with only `Code` replaced by the bucket/key pair, and `Code` has no `ZipFile` key |
| Request.CredentialsReachOnlyRole | tests/unit/test_create_function.py:41-48 | changing profile, keys or region changes the request only through the role the resolver returns |
| Request.DefaultsApplyOnlyWhenAbsent | tests/unit/test_create_function.py:34-36 | configured description, timeout and memory size are passed through; the defaults are used only when these are absent |
| Orchestrator.ApplyConcurrency | tests/unit/test_create_function.py:92-101 | at most one follow-up call, made exactly when the limit is positive, with the function name and limit |
| Orchestrator.CreateFunction | tests/unit/test_create_function.py:59-66 | the trace starts with the create call for the assembled request, and has a second call exactly when the resolved concurrency is positive; that call is `put_function_concurrency(FunctionName=env name, ReservedConcurrentExecutions=limit)` |
| Orchestrator.CreateIsFirstAndOnly | tests/unit/test_create_function.py:59-66 | the create call is made exactly once, and it is the first call |
| Orchestrator.ConcurrencyGate | tests/unit/test_create_function.py:92-101 | the number of concurrency calls is 1 when the limit is positive and 0 otherwise, and no concurrency call comes before the create call |
| Orchestrator.ConcurrencyLeavesCreateUnchanged | tests/unit/test_create_function.py:92-101 | the create call is the same whatever concurrency the resolver returns |
| Scenarios.BasicCreation | tests/unit/test_create_function.py:59-66 | the fixture config with concurrency 0 gives exactly the base keyword set, with the ten base keys, and no concurrency call |
| Scenarios.CreationWithSubnetSecurity | tests/unit/test_create_function.py:68-78 | `'sub1, sub2'` and `'group1, group2'` become `['sub1','sub2']` and `['group1','group2']`; everything else is the base request |
| Scenarios.S3Creation | tests/unit/test_create_function.py:80-90 | `use_s3=True, s3_file='testFile'` gives `Code={S3Bucket:'testBucket', S3Key:'testFile'}` and otherwise the base request, with no concurrency call |
| Scenarios.CreateWithConcurrency | tests/unit/test_create_function.py:92-101 | concurrency 1 gives the base create call, then `put_function_concurrency('testFunc', 1)` |
| Scenarios.CreateWithTags | tests/unit/test_create_function.py:103-117 | configured tags appear unchanged under `Tags`, and there is no concurrency call |
| Scenarios.CreateWithEnvVars | tests/unit/test_create_function.py:119-140 | with coercion answers `1` then `'testing'`, `Environment.Variables` is `{numVar: 1, txtVar: 'testing'}` |

## Left out

- Provider client construction (`get_client` with profile, access key, secret and region) is
  left out. The client is represented by the trace of calls it receives. The credentials are
  kept in the configuration only because the role resolver may read them.
- The internals of `read`, `get_account_id` and `get_role_name` are left out, because they are
  file I/O and AWS lookups. They are function parameters; the account lookup is folded into the
  role resolver.
- The internals of `get_environment_variable_value` are left out; the coercion is a parameter.
  Its answers are integers or text. Floating-point answers are not modelled.
- The internals of `get_concurrency` are left out; only its integer answer is used.
- Request.ResolveCode: calling with `use_s3=True` and no `s3_file` is excluded by a precondition,
  and so is the same case in Request.AssembleRequest and Orchestrator.CreateFunction. No test
  covers it, and the model treats ruling it out as the caller's duty, because there is no key to
  put in `Code`.
- Failure of either provider call, and error propagation, are left out. No test covers them.
  The model has no failing collaborator, so the trace is always complete.
- Reading the process environment and logging are left out. The two environment values are the
  `Ambient` parameter.
- A configuration without `handler` or `runtime` is left out. The model requires both, as every
  test supplies them.
- Duplicate names in `tags` or `environment_variables` are left out. They cannot occur in a
  Python dict. The model keeps mappings as ordered pairs and does not forbid repeats;
  EnvironmentVariables.CoercePreservesDistinctNames relates the two cases.
- The whitespace set stripped from ids is the one Python's `str.isspace()` uses. The code that
  splits and strips the id strings is not part of this model. The model assumes the usual
  `[s.strip() for s in value.split(',')]` form, which gives the tested results.
