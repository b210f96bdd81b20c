/** RequestAssembler and CodeSourceResolver: the keyword set `create_function`
    passes to the provider's `create_function` call, assembled from the
    configuration, the two ambient values and the collaborators' answers. */
module Request {
  import opened Options
  import opened NetworkConfig
  import opened EnvironmentVariables

  type Bytes = seq<bv8>

  /** The configuration dictionary. Credentials and region are only read by
      the collaborators (account, role and client lookups); `handler` and
      `runtime` are always given. */
  datatype FunctionConfig = FunctionConfig(
    handler: string,
    runtime: string,
    profile: Option<string>,
    awsAccessKeyId: Option<string>,
    awsSecretAccessKey: Option<string>,
    region: Option<string>,
    role: Option<string>,
    description: Option<string>,
    timeout: Option<int>,
    memorySize: Option<int>,
    subnetIds: Option<string>,
    securityGroupIds: Option<string>,
    tags: Option<Mapping<string>>,
    environmentVariables: Option<Mapping<string>>)

  /** The values read from the process environment: `S3_BUCKET_NAME` and
      `LAMBDA_FUNCTION_NAME`. */
  datatype Ambient = Ambient(s3BucketName: string, lambdaFunctionName: string)

  /** The collaborators whose internals are not modelled, as functions of
      their inputs: reading the artifact, resolving the execution role (which
      looks up the account first), resolving the reserved concurrency, and
      coercing environment values. */
  datatype Collaborators = Collaborators(
    read: string -> Bytes,
    roleName: FunctionConfig -> string,
    concurrency: FunctionConfig -> int,
    coerce: Coercer)

  /** The `Code` fragment: inline archive bytes, or a reference to an object in S3. */
  datatype Code = ZipFile(zipFile: Bytes) | S3Object(s3Bucket: string, s3Key: string)

  datatype Environment = Environment(variables: Mapping<EnvValue>)

  /** The keyword arguments of the provider's `create_function` call. */
  datatype CreateRequest = CreateRequest(
    functionName: string,
    runtime: string,
    role: string,
    handler: string,
    code: Code,
    description: string,
    timeout: int,
    memorySize: int,
    vpcConfig: VpcConfig,
    publish: bool,
    tags: Option<Mapping<string>>,
    environment: Option<Environment>)

  const DefaultDescription: string := ""
  const DefaultTimeout: int := 15
  const DefaultMemorySize: int := 512

  /** The keys every create request carries. */
  const BaseKeys: set<string> := {"FunctionName", "Runtime", "Role", "Handler", "Code",
                                  "Description", "Timeout", "MemorySize", "VpcConfig", "Publish"}

  /** The keys of the `Code` dictionary. */
  function CodeKeys(c: Code): set<string>
  {
    match c
    case ZipFile(_) => {"ZipFile"}
    case S3Object(_, _) => {"S3Bucket", "S3Key"}
  }

  /** The keyword names the provider receives. */
  function WireKeys(r: CreateRequest): set<string>
  {
    BaseKeys
    + (if r.tags.Some? then {"Tags"} else {})
    + (if r.environment.Some? then {"Environment"} else {})
  }

  /** The code source a call asks for: `use_s3` with a key names an object in
      the ambient bucket; otherwise the artifact at `path` is read and sent
      inline, and a given `s3_file` is ignored. Asking for object storage
      without a key is left to the caller to rule out. */
  function ResolveCode(useS3: bool, s3File: Option<string>, path: string, bucket: string,
                       read: string -> Bytes): (c: Code)
    requires useS3 ==> s3File.Some?
    ensures c.S3Object? <==> useS3
    ensures useS3 ==> c == S3Object(bucket, s3File.value) && CodeKeys(c) == {"S3Bucket", "S3Key"}
    ensures !useS3 ==> c == ZipFile(read(path)) && CodeKeys(c) == {"ZipFile"}
  {
    if useS3 then S3Object(bucket, s3File.value) else ZipFile(read(path))
  }

  /** A configured mapping that is worth sending: present and non-empty. */
  predicate Configured<V>(m: Option<Mapping<V>>)
  {
    m.Some? && m.value != []
  }

  /** The create request for one invocation. Every base key is present and
      `VpcConfig` is never omitted; `Tags` and `Environment` are present
      exactly when the configuration has a non-empty `tags` and
      `environment_variables` mapping: an absent or empty one is omitted, not
      sent as an empty object. */
  function AssembleRequest(cfg: FunctionConfig, path: string, useS3: bool, s3File: Option<string>,
                           env: Ambient, c: Collaborators): (req: CreateRequest)
    requires useS3 ==> s3File.Some?
    ensures req.functionName == env.lambdaFunctionName
    ensures req.runtime == cfg.runtime && req.handler == cfg.handler
    ensures req.role == c.roleName(cfg)
    ensures req.code == ResolveCode(useS3, s3File, path, env.s3BucketName, c.read)
    ensures req.publish
    ensures cfg.description.None? ==> req.description == ""
    ensures cfg.timeout.None? ==> req.timeout == 15
    ensures cfg.memorySize.None? ==> req.memorySize == 512
    ensures req.vpcConfig == BuildVpcConfig(cfg.subnetIds, cfg.securityGroupIds)
    ensures req.vpcConfig.subnetIds == [] <==> cfg.subnetIds.None?
    ensures req.vpcConfig.securityGroupIds == [] <==> cfg.securityGroupIds.None?
    ensures req.tags.Some? <==> Configured(cfg.tags)
    ensures req.tags.Some? ==> req.tags == cfg.tags
    ensures req.environment.Some? <==> Configured(cfg.environmentVariables)
    ensures req.environment.Some? ==>
              Names(req.environment.value.variables) == Names(cfg.environmentVariables.value)
    ensures req.environment.Some? ==>
              forall i :: 0 <= i < |cfg.environmentVariables.value| ==>
                req.environment.value.variables[i].1 == c.coerce(i, cfg.environmentVariables.value[i].1)
  {
    CreateRequest(
      functionName := env.lambdaFunctionName,
      runtime := cfg.runtime,
      role := c.roleName(cfg),
      handler := cfg.handler,
      code := ResolveCode(useS3, s3File, path, env.s3BucketName, c.read),
      description := cfg.description.GetOr(DefaultDescription),
      timeout := cfg.timeout.GetOr(DefaultTimeout),
      memorySize := cfg.memorySize.GetOr(DefaultMemorySize),
      vpcConfig := BuildVpcConfig(cfg.subnetIds, cfg.securityGroupIds),
      publish := true,
      tags := if Configured(cfg.tags) then cfg.tags else None,
      environment :=
        if Configured(cfg.environmentVariables)
        then Some(Environment(CoerceVariables(cfg.environmentVariables.value, c.coerce)))
        else None)
  }

  /** `Tags` and `Environment` are the only optional keys: a request carries
      the base keys, plus each of these exactly when its field is set. */
  lemma OptionalKeys(r: CreateRequest)
    ensures "Tags" in WireKeys(r) <==> r.tags.Some?
    ensures "Environment" in WireKeys(r) <==> r.environment.Some?
    ensures WireKeys(r) == BaseKeys <==> r.tags.None? && r.environment.None?
  {
    assert "Tags" !in BaseKeys && "Environment" !in BaseKeys;
    if r.tags.Some? {
      assert "Tags" in WireKeys(r);
    }
    if r.environment.Some? {
      assert "Environment" in WireKeys(r);
    }
  }

  /** The keyword names of the assembled request: the base keys, plus `Tags`
      exactly when the configured `tags` mapping is non-empty, plus
      `Environment` exactly when `environment_variables` is. */
  lemma AssembledKeys(cfg: FunctionConfig, path: string, useS3: bool, s3File: Option<string>,
                      env: Ambient, c: Collaborators)
    requires useS3 ==> s3File.Some?
    ensures var req := AssembleRequest(cfg, path, useS3, s3File, env, c);
            && ("Tags" in WireKeys(req) <==> cfg.tags.Some? && cfg.tags.value != [])
            && ("Environment" in WireKeys(req) <==>
                  cfg.environmentVariables.Some? && cfg.environmentVariables.value != [])
            && (WireKeys(req) == BaseKeys <==> !Configured(cfg.tags) && !Configured(cfg.environmentVariables))
  {
    OptionalKeys(AssembleRequest(cfg, path, useS3, s3File, env, c));
  }

  /** An empty `tags` or `environment_variables` mapping is treated as an
      absent one: neither key is sent, and the request is the one for the
      configuration without them (up to the role the resolver returns for
      each configuration). */
  lemma EmptyMappingsAreOmitted(cfg: FunctionConfig, path: string, useS3: bool, s3File: Option<string>,
                                env: Ambient, c: Collaborators)
    requires useS3 ==> s3File.Some?
    ensures var empty := cfg.(tags := Some([]), environmentVariables := Some([]));
            var req := AssembleRequest(empty, path, useS3, s3File, env, c);
            && req.tags.None? && req.environment.None?
            && WireKeys(req) == BaseKeys
            && req == AssembleRequest(cfg.(tags := None, environmentVariables := None),
                                      path, useS3, s3File, env, c).(role := c.roleName(empty))
  {
  }

  /** Choosing object storage changes only `Code`: the request is the inline
      request with `Code` replaced by the bucket and key, and no `ZipFile`. */
  lemma S3ChangesOnlyCode(cfg: FunctionConfig, path: string, key: string, ignored: Option<string>,
                          env: Ambient, c: Collaborators)
    ensures AssembleRequest(cfg, path, true, Some(key), env, c)
            == AssembleRequest(cfg, path, false, ignored, env, c).(code := S3Object(env.s3BucketName, key))
    ensures "ZipFile" !in CodeKeys(AssembleRequest(cfg, path, true, Some(key), env, c).code)
  {
  }

  /** The request depends on the credentials and region only through the role
      the role resolver returns for them. */
  lemma CredentialsReachOnlyRole(cfg: FunctionConfig, cfg': FunctionConfig, path: string, useS3: bool,
                                 s3File: Option<string>, env: Ambient, c: Collaborators)
    requires useS3 ==> s3File.Some?
    requires cfg' == cfg.(profile := cfg'.profile, awsAccessKeyId := cfg'.awsAccessKeyId,
                          awsSecretAccessKey := cfg'.awsSecretAccessKey, region := cfg'.region)
    ensures AssembleRequest(cfg', path, useS3, s3File, env, c)
            == AssembleRequest(cfg, path, useS3, s3File, env, c).(role := c.roleName(cfg'))
  {
  }

  /** With the configured values absent, `Description`, `Timeout` and
      `MemorySize` take their defaults; configured values are passed through. */
  lemma DefaultsApplyOnlyWhenAbsent(cfg: FunctionConfig, path: string, useS3: bool,
                                    s3File: Option<string>, env: Ambient, c: Collaborators)
    requires useS3 ==> s3File.Some?
    ensures var req := AssembleRequest(cfg, path, useS3, s3File, env, c);
            && (cfg.description.Some? ==> req.description == cfg.description.value)
            && (cfg.timeout.Some? ==> req.timeout == cfg.timeout.value)
            && (cfg.memorySize.Some? ==> req.memorySize == cfg.memorySize.value)
  {
  }
}
