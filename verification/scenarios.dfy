/** The six unit-test scenarios of `create_function`: the fixture
    configuration, environment and mocked collaborators, and the exact
    provider calls each scenario expects. */
module Scenarios {
  import opened Options
  import opened Strings
  import opened NetworkConfig
  import opened EnvironmentVariables
  import opened Request
  import opened Orchestrator

  /** The mocked `read` returns the text `bytes`. */
  const ArchiveBytes: Bytes := [0x62, 0x79, 0x74, 0x65, 0x73]

  const TestPath: string := "testPath"

  const TestAmbient: Ambient := Ambient(s3BucketName := "testBucket", lambdaFunctionName := "testFunc")

  /** The fixture configuration: credentials, region, handler and runtime only. */
  const BaseConfig: FunctionConfig := FunctionConfig(
    handler := "test.py",
    runtime := "testPython",
    profile := Some("testAWSProfile"),
    awsAccessKeyId := Some("testKey"),
    awsSecretAccessKey := Some("testSecret"),
    region := Some("testRegion"),
    role := None,
    description := None,
    timeout := None,
    memorySize := None,
    subnetIds := None,
    securityGroupIds := None,
    tags := None,
    environmentVariables := None)

  /** The expected keyword set of the base scenario. */
  const BaseRequest: CreateRequest := CreateRequest(
    functionName := "testFunc",
    runtime := "testPython",
    role := "testRole",
    handler := "test.py",
    code := ZipFile(ArchiveBytes),
    description := "",
    timeout := 15,
    memorySize := 512,
    vpcConfig := VpcConfig([], []),
    publish := true,
    tags := None,
    environment := None)

  /** The mocked collaborators: `read` and `get_role_name` with fixed answers,
      `get_concurrency` answering `limit`, and the given coercion. */
  function Mocks(limit: int, coerce: Coercer): Collaborators
  {
    Collaborators(
      read := (p: string) => ArchiveBytes,
      roleName := (cfg: FunctionConfig) => "testRole",
      concurrency := (cfg: FunctionConfig) => limit,
      coerce := coerce)
  }

  /** A coercion mock answering its calls from a list, in call order. Past the
      end of the list it echoes the raw text (the Python mock would raise
      instead; no scenario gets there). */
  function Scripted(answers: seq<EnvValue>): Coercer
  {
    (n: nat, raw: string) => if n < |answers| then answers[n] else Text(raw)
  }

  /** Basic creation: exactly the base keyword set, and no concurrency call. */
  lemma BasicCreation(coerce: Coercer)
    ensures CreateFunction(BaseConfig, TestPath, false, None, TestAmbient, Mocks(0, coerce))
            == [CreateFunctionCall(BaseRequest)]
    ensures WireKeys(BaseRequest) == BaseKeys
  {
  }

  /** Subnets and security groups: the comma-separated strings become ordered
      lists of stripped identifiers, everything else as in the base request. */
  lemma CreationWithSubnetSecurity(coerce: Coercer)
    ensures CreateFunction(BaseConfig.(subnetIds := Some("sub1, sub2"),
                                       securityGroupIds := Some("group1, group2")),
                           TestPath, false, None, TestAmbient, Mocks(0, coerce))
            == [CreateFunctionCall(BaseRequest.(vpcConfig := VpcConfig(["sub1", "sub2"], ["group1", "group2"])))]
  {
    var cfg := BaseConfig.(subnetIds := Some("sub1, sub2"), securityGroupIds := Some("group1, group2"));
    FixtureSubnetsParse();
    FixtureGroupsParse();
    var req := AssembleRequest(cfg, TestPath, false, None, TestAmbient, Mocks(0, coerce));
    assert req.vpcConfig == VpcConfig(["sub1", "sub2"], ["group1", "group2"]);
    assert req == BaseRequest.(vpcConfig := VpcConfig(["sub1", "sub2"], ["group1", "group2"]));
  }

  lemma FixtureSubnetsParse()
    ensures ParseIdList(Some("sub1, sub2")) == ["sub1", "sub2"]
  {
    assert "sub1, sub2" == "sub1" + ", " + "sub2";
    assert ',' !in "sub1" && ',' !in "sub2" && Stripped("sub1") && Stripped("sub2");
    ParsesCommaSpaceList("sub1", "sub2");
  }

  lemma FixtureGroupsParse()
    ensures ParseIdList(Some("group1, group2")) == ["group1", "group2"]
  {
    assert "group1, group2" == "group1" + ", " + "group2";
    assert ',' !in "group1" && ',' !in "group2" && Stripped("group1") && Stripped("group2");
    ParsesCommaSpaceList("group1", "group2");
  }

  /** Object storage: `Code` names the ambient bucket and the given key. */
  lemma S3Creation(coerce: Coercer)
    ensures CreateFunction(BaseConfig, TestPath, true, Some("testFile"), TestAmbient, Mocks(0, coerce))
            == [CreateFunctionCall(BaseRequest.(code := S3Object("testBucket", "testFile")))]
  {
  }

  /** Concurrency 1: the base create call, then one concurrency call for the
      same function name. */
  lemma CreateWithConcurrency(coerce: Coercer)
    ensures CreateFunction(BaseConfig, TestPath, false, None, TestAmbient, Mocks(1, coerce))
            == [CreateFunctionCall(BaseRequest), PutFunctionConcurrencyCall("testFunc", 1)]
  {
  }

  /** Tags: passed through unchanged under `Tags`. */
  lemma CreateWithTags(coerce: Coercer)
    ensures CreateFunction(BaseConfig.(tags := Some([("test", "test")])),
                           TestPath, false, None, TestAmbient, Mocks(0, coerce))
            == [CreateFunctionCall(BaseRequest.(tags := Some([("test", "test")])))]
  {
  }

  /** Environment variables: the coercion mock answers `1` then `testing`, and
      those answers become the values of `numVar` and `txtVar`. */
  lemma CreateWithEnvVars()
    ensures CreateFunction(BaseConfig.(environmentVariables := Some([("numVar", "1"), ("txtVar", "testing")])),
                           TestPath, false, None, TestAmbient,
                           Mocks(0, Scripted([Number(1), Text("testing")])))
            == [CreateFunctionCall(BaseRequest.(environment := Some(Environment(
                  [("numVar", Number(1)), ("txtVar", Text("testing"))]))))]
  {
    var vars := [("numVar", "1"), ("txtVar", "testing")];
    var r := CoerceVariables(vars, Scripted([Number(1), Text("testing")]));
    assert Names(r) == Names(vars);
    assert r[0] == (Names(r)[0], Number(1));
    assert r[1] == (Names(r)[1], Text("testing"));
    assert r == [("numVar", Number(1)), ("txtVar", Text("testing"))];
  }
}
