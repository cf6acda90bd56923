/** The values every other module talks about. */
module Domain {

  datatype Option<+T> = None | Some(value: T)

  /** JavaScript strings are sequences of UTF-16 code units; a lone surrogate is a legal unit. */
  type CodeUnit = n: nat | n < 0x1_0000
  type Text = seq<CodeUnit>

  type Key = string
  type Fingerprint = string

  /** A UUID, read as the 128-bit number whose order PostgreSQL uses for `ORDER BY id`. */
  type Id = nat

  const MAX_SAFE_INTEGER := 9007199254740991

  datatype TransactionInput = TransactionInput(amount: int, currency: Text, description: Text)

  /** `status` has the single value "approved" and is not stored. */
  datatype Transaction = Transaction(
    id: Id,
    amount: int,
    currency: Text,
    description: Text,
    providerTransactionId: Text,
    createdAt: int)
  {
    /** The business fields the transaction was created from. */
    function Payload(): TransactionInput {
      TransactionInput(amount, currency, description)
    }
  }

  /** The errors `PaymentProvider.process` can throw; `Unrecognized` is any other value. */
  datatype ProviderError =
    | TimedOut
    | Unavailable
    | NetworkFailed
    | RateLimited
    | ServerFailed(status: nat)
    | CircuitOpen
    | InvalidResponse
    | Rejected(code: Option<nat>)
    | Unrecognized

  /** What one provider call comes back with. */
  datatype Reply = Approved(providerTransactionId: Text) | Failed(error: ProviderError)
}

module Arithmetic {
  function Min(a: int, b: int): int {
    if a <= b then a else b
  }

  function Max(a: int, b: int): int {
    if a >= b then a else b
  }

  lemma ProductGrows(a: int, b: int, m: nat)
    ensures a <= b ==> a * m <= b * m
  {}
}
