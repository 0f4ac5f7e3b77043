/** Go `error` values as the model sees them: only their text is ever
    observed, so an error is its message. `Chain` is `common.ChainError`,
    which prefixes a context line to a cause and keeps the cause verbatim. */
module Errors {

  type Error = string

  /** The run-time panic Go raises on an assignment into a nil map. */
  const NilMapPanic: string := "assignment to entry in nil map"

  /** The text `ChainError` puts between the context and the cause. */
  const Separator: string := "\n\t"

  /** `ChainError(message, err)`: the context comes first, then a newline and
      a tab, then the cause's own text unchanged. */
  function Chain(context: string, cause: Error): (e: Error)
    ensures |e| == |context| + |Separator| + |cause|
    ensures e[..|context|] == context
    ensures e[|context|..|context| + |Separator|] == Separator
    ensures e[|context| + |Separator|..] == cause
  {
    context + Separator + cause
  }

  /** Wrapping the same context around two causes gives the same text only
      when the causes were the same: the cause can be read back. */
  lemma ChainKeepsCause(context: string, a: Error, b: Error)
    ensures Chain(context, a) == Chain(context, b) <==> a == b
  {
    if Chain(context, a) == Chain(context, b) {
      assert a == Chain(context, a)[|context| + |Separator|..];
    }
  }

  /** The error an operation returns after its callees each wrapped the
      cause once: `contexts[0]` is the outermost (the last to wrap). */
  function ChainAll(contexts: seq<string>, cause: Error): Error
  {
    if |contexts| == 0 then cause
    else Chain(contexts[0], ChainAll(contexts[1..], cause))
  }

  /** The contexts laid out in order, each followed by the separator. */
  function Header(contexts: seq<string>): string
  {
    if |contexts| == 0 then ""
    else contexts[0] + Separator + Header(contexts[1..])
  }

  /** Nesting: the text of a chained error is the outermost context, then
      each inner context in turn, then the original cause as its suffix. */
  lemma {:induction false} ChainAllLayout(contexts: seq<string>, cause: Error)
    ensures ChainAll(contexts, cause) == Header(contexts) + cause
    ensures |contexts| > 0 ==> ChainAll(contexts, cause)[..|contexts[0]|] == contexts[0]
    ensures ChainAll(contexts, cause)[|Header(contexts)|..] == cause
  {
    if |contexts| > 0 {
      ChainAllLayout(contexts[1..], cause);
      calc {
        ChainAll(contexts, cause);
        contexts[0] + Separator + (Header(contexts[1..]) + cause);
        { assert contexts[0] + Separator + (Header(contexts[1..]) + cause)
              == (contexts[0] + Separator + Header(contexts[1..])) + cause; }
        Header(contexts) + cause;
      }
    }
  }

  /** The error `os.Open` and `os.ReadFile` give for a path that does not
      exist. */
  function NoSuchFile(path: string): Error
  {
    "open " + path + ": no such file or directory"
  }
}
