/** The sequential specification of one key of the key/value service. */
module KvModel {
  import opened Linearizability

  const GET := 0
  const PUT := 1
  const APPEND := 2

  /** Inputs and outputs of operations; any other code than the three above is an append that
      also returns the old value. */
  datatype KvValue = KvInput(op: nat, key: string, value: string) | KvOutput(value: string)

  function Step(state: string, input: KvValue, output: KvValue): (bool, string) {
    if !input.KvInput? || !output.KvOutput? then (false, state)
    else if input.op == GET then (output.value == state, state)
    else if input.op == PUT then (true, input.value)
    else if input.op == APPEND then (true, state + input.value)
    else (output.value == state, state + input.value)
  }

  const MODEL: Model<string, KvValue> := Model("", (s: string, i: KvValue, o: KvValue) => Step(s, i, o))

  function KeyOf(v: KvValue): string { if v.KvInput? then v.key else "" }

  /** A read returns one value in any state; a write may return anything, and what it leaves is
      what a read may then return. */
  lemma ReadsExactly(state: string, key: string, value: string, a: string, b: string)
    ensures Step(state, KvInput(GET, key, value), KvOutput(a)).0 && Step(state, KvInput(GET, key, value), KvOutput(b)).0 ==> a == b
    ensures Step(state, KvInput(GET, key, value), KvOutput(a)).1 == state
    ensures Step(state, KvInput(PUT, key, value), KvOutput(a)).0 && Step(state, KvInput(APPEND, key, value), KvOutput(a)).0
    ensures var next := Step(state, KvInput(PUT, key, value), KvOutput(a)).1;
            Step(next, KvInput(GET, key, value), KvOutput(b)).0 <==> b == value
    ensures var next := Step(state, KvInput(APPEND, key, value), KvOutput(a)).1;
            Step(state, KvInput(GET, key, value), KvOutput(a)).0 ==> (Step(next, KvInput(GET, key, value), KvOutput(b)).0 <==> b == a + value)
  {
  }

  /** An operation with any other code is a read and then an append. */
  lemma OtherCodes(state: string, op: nat, key: string, value: string, output: KvValue)
    requires op != GET && op != PUT && op != APPEND
    ensures Step(state, KvInput(op, key, value), output).0 <==> Step(state, KvInput(GET, key, value), output).0
    ensures output.KvOutput? ==> Step(state, KvInput(op, key, value), output).1 == Step(state, KvInput(APPEND, key, value), output).1
  {
  }
}
