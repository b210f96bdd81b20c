/** EnvironmentVariableCoercer: the `Environment.Variables` fragment, built by
    passing each configured variable through the external value coercion
    (`get_environment_variable_value`). */
module EnvironmentVariables {

  /** An insertion-ordered mapping from names to values, as a Python dict is. */
  type Mapping<V> = seq<(string, V)>

  /** The names of a mapping, in insertion order. */
  function Names<V>(m: Mapping<V>): (ns: seq<string>)
    ensures |ns| == |m|
    ensures forall i :: 0 <= i < |m| ==> ns[i] == m[i].0
  {
    seq(|m|, i requires 0 <= i < |m| => m[i].0)
  }

  /** No name occurs twice: true of every mapping read from configuration. */
  predicate DistinctNames<V>(m: Mapping<V>)
  {
    forall i, j :: 0 <= i < j < |m| ==> m[i].0 != m[j].0
  }

  /** A coerced value: the coercion turns numeric-looking text into a number
      and leaves other text as text. */
  datatype EnvValue = Number(n: int) | Text(s: string)

  /** The external coercion, seen from outside: the answer to its `n`-th call
      (counting from 0) on raw text `raw`. A coercion that only looks at its
      argument ignores `n`; a scripted stand-in that answers from a list, as
      the tests use, ignores `raw`. */
  type Coercer = (nat, string) -> EnvValue

  /** Coerces the entries of `vars`, whose first entry is the coercion's
      `calls`-th call. Entry `i` keeps its name and receives the answer to call
      `calls + i` on its own raw value: one call per entry, in mapping order. */
  function CoerceFrom(vars: Mapping<string>, coerce: Coercer, calls: nat): (r: Mapping<EnvValue>)
    ensures |r| == |vars|
    ensures forall i :: 0 <= i < |vars| ==> r[i] == (vars[i].0, coerce(calls + i, vars[i].1))
    decreases |vars|
  {
    if |vars| == 0 then []
    else [(vars[0].0, coerce(calls, vars[0].1))] + CoerceFrom(vars[1..], coerce, calls + 1)
  }

  /** The `Variables` mapping for configured `vars`: the same names in the
      same order, the `i`-th value being the coercion's answer to its `i`-th
      call, made on the `i`-th raw value. */
  function CoerceVariables(vars: Mapping<string>, coerce: Coercer): (r: Mapping<EnvValue>)
    ensures Names(r) == Names(vars)
    ensures forall i :: 0 <= i < |vars| ==> r[i].1 == coerce(i, vars[i].1)
  {
    CoerceFrom(vars, coerce, 0)
  }

  /** Coercion keeps names exactly, so the result has distinct names if and
      only if the configuration did. */
  lemma CoercePreservesDistinctNames(vars: Mapping<string>, coerce: Coercer)
    ensures DistinctNames(CoerceVariables(vars, coerce)) <==> DistinctNames(vars)
  {
  }
}
