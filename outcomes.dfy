/** Optional values, the outcome of a call that may raise, a chat message
    as the two front ends keep their histories, and the grouping of
    concatenations. */
module Outcomes {

  datatype Option<T> = None | Some(value: T)

  /** What a call into a collaborator produced: a value, or the text of the
      exception it raised (`str(e)`). */
  datatype Result<T> = Ok(value: T) | Raised(reason: string)

  /** Opening an MCP stdio session (`stdio_client` + `ClientSession` +
      `session.initialize()`): it either succeeds or raises. */
  datatype Opening = Opened | OpenFailed(reason: string)

  /** `{"role": role, "content": content}` in a chat history. */
  datatype ChatMessage = ChatMessage(role: string, content: string)

  /** Concatenation groups either way; stated for the steps the solver does
      not take unaided. */
  lemma AppendAssoc<T>(a: seq<T>, b: seq<T>, c: seq<T>)
    ensures (a + b) + c == a + (b + c)
  {
  }

  /** Past the front of what follows index k comes the back. */
  lemma DropFront<T>(xs: seq<T>, k: nat, rest: seq<T>, front: seq<T>, back: seq<T>)
    requires k <= |xs| && xs[k..] == rest && rest == front + back
    ensures k + |front| <= |xs| && xs[k + |front|..] == back
  {
    assert xs[k + |front|..] == xs[k..][|front|..];
  }
}
