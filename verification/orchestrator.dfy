/** CreationOrchestrator and ConcurrencyApplier: the sequence of provider calls
    one `create_function` invocation makes. The provider client is modelled
    by the trace of calls it receives. */
module Orchestrator {
  import opened Options
  import opened Request

  /** One call on the provider client, with its keyword arguments. */
  datatype ProviderCall =
    | CreateFunctionCall(request: CreateRequest)
    | PutFunctionConcurrencyCall(functionName: string, reservedConcurrentExecutions: int)

  /** Number of `put_function_concurrency` calls in a trace. */
  function ConcurrencyCallCount(calls: seq<ProviderCall>): nat
  {
    if |calls| == 0 then 0
    else (if calls[0].PutFunctionConcurrencyCall? then 1 else 0) + ConcurrencyCallCount(calls[1..])
  }

  /** ConcurrencyApplier: the follow-up calls for a resolved limit, made only
      when the limit is strictly positive. */
  function ApplyConcurrency(functionName: string, limit: int): (calls: seq<ProviderCall>)
    ensures |calls| <= 1
    ensures calls != [] <==> limit > 0
    ensures forall i :: 0 <= i < |calls| ==> calls[i] == PutFunctionConcurrencyCall(functionName, limit)
  {
    if limit > 0 then [PutFunctionConcurrencyCall(functionName, limit)] else []
  }

  /** `create_function(cfg, path, use_s3, s3_file)`: create the function with
      the assembled request, then set its reserved concurrency if the resolved
      limit is positive, under the same function name. */
  function CreateFunction(cfg: FunctionConfig, path: string, useS3: bool, s3File: Option<string>,
                          env: Ambient, c: Collaborators): (calls: seq<ProviderCall>)
    requires useS3 ==> s3File.Some?
    ensures 1 <= |calls| <= 2
    ensures calls[0] == CreateFunctionCall(AssembleRequest(cfg, path, useS3, s3File, env, c))
    ensures |calls| == 2 <==> c.concurrency(cfg) > 0
    ensures |calls| == 2 ==>
              calls[1] == PutFunctionConcurrencyCall(env.lambdaFunctionName, c.concurrency(cfg))
  {
    var request := AssembleRequest(cfg, path, useS3, s3File, env, c);
    [CreateFunctionCall(request)] + ApplyConcurrency(request.functionName, c.concurrency(cfg))
  }

  /** Exactly one create call, and it comes first. */
  lemma CreateIsFirstAndOnly(cfg: FunctionConfig, path: string, useS3: bool,
                               s3File: Option<string>, env: Ambient, c: Collaborators)
    requires useS3 ==> s3File.Some?
    ensures var calls := CreateFunction(cfg, path, useS3, s3File, env, c);
            forall i :: 0 <= i < |calls| ==> (calls[i].CreateFunctionCall? <==> i == 0)
  {
  }

  /** The concurrency gate: `put_function_concurrency` is called once when the
      resolved limit is positive and never otherwise, and it always follows
      the create call. */
  lemma ConcurrencyGate(cfg: FunctionConfig, path: string, useS3: bool, s3File: Option<string>,
                        env: Ambient, c: Collaborators)
    requires useS3 ==> s3File.Some?
    ensures var calls := CreateFunction(cfg, path, useS3, s3File, env, c);
            ConcurrencyCallCount(calls) == (if c.concurrency(cfg) > 0 then 1 else 0)
    ensures var calls := CreateFunction(cfg, path, useS3, s3File, env, c);
            forall i :: 0 <= i < |calls| && calls[i].PutFunctionConcurrencyCall? ==> i > 0
  {
    var calls := CreateFunction(cfg, path, useS3, s3File, env, c);
    assert calls[1..] == ApplyConcurrency(env.lambdaFunctionName, c.concurrency(cfg));
    assert ConcurrencyCallCount(calls) == ConcurrencyCallCount(calls[1..]);
    if |calls| == 2 {
      assert calls[1..][1..] == [];
      assert ConcurrencyCallCount(calls[1..]) == 1 + ConcurrencyCallCount(calls[1..][1..]);
    }
  }

  /** The create request does not depend on the concurrency the resolver
      returns: a positive limit only appends the follow-up call. */
  lemma ConcurrencyLeavesCreateUnchanged(cfg: FunctionConfig, path: string, useS3: bool,
                                         s3File: Option<string>, env: Ambient, c: Collaborators,
                                         other: FunctionConfig -> int)
    requires useS3 ==> s3File.Some?
    ensures CreateFunction(cfg, path, useS3, s3File, env, c.(concurrency := other))[0]
            == CreateFunction(cfg, path, useS3, s3File, env, c)[0]
  {
  }
}
