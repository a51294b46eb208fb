/** `Failure` (src/core/errors/Failure.ts): the error arm of the use cases'
    `Either` results, one kind per subclass, each carrying a message. */
module Failures {
  datatype FailureKind = Server | Cache | Network | InvalidCard | Payment | Storage | LimitReached

  datatype Failure = Failure(kind: FailureKind, message: string)
}
