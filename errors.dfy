/** The rejection reasons that travel through the pipeline. In JavaScript a promise may be
    rejected with any value; these are the kinds the cache-aside lookup tells apart. */
module Errors {

  datatype Error =
    | Blank                                       // a rejection whose reason is falsy
    | StoreFault(notFound: bool, message: string) // raised by the key-value store
    | SyntaxError(message: string)                // raised by `JSON.parse` on a stored text
    | RemoteFault(status: int)                    // a remote catalog call that did not succeed

  /** The store's "no such key" error. */
  const NotFound: Error := StoreFault(true, "NotFound")

  /** The guard of the read's `catch` handler: the reason is truthy and carries no
      `notFound` flag, so the handler throws it again. */
  predicate Rethrown(e: Error): (r: bool)
    ensures e == NotFound || e == Blank ==> !r
    ensures e.StoreFault? ==> (r <==> !e.notFound)
    ensures e.SyntaxError? || e.RemoteFault? ==> r
  {
    !e.Blank? && !(e.StoreFault? && e.notFound)
  }
}
