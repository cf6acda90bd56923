/** The development provider, and that it keeps the contract the protocol relies on. */
module FakeProvider {
  import opened Domain
  import opened FailurePolicy
  import opened Fingerprints
  import opened Protocol

  datatype FakeOutcome = Succeed | TimeOut | NetworkError | InvalidJson | InvalidSchema | Status(code: nat)

  /** What the request body turns out to be. */
  datatype Body = NotJson | OutsideSchema | WellFormed

  const SUPPORTED_STATUSES: set<nat> := {400, 401, 403, 404, 409, 429, 500, 502, 503, 504}

  predicate Supported(o: FakeOutcome) {
    o.Status? ==> o.code in SUPPORTED_STATUSES
  }

  /** The HTTP adapter's reading of a status that is not a success. */
  function FromStatus(status: nat): ProviderError {
    if status == 429 then RateLimited
    else if status >= 500 then ServerFailed(status)
    else Rejected(Some(status))
  }

  /**
   * What the caller's adapter sees of a scripted outcome, when the new transaction would be
   * `providerId`. A timeout is a late success; `patient` says whether the caller is still there.
   */
  function Seen(outcome: FakeOutcome, providerId: Text, patient: bool): Reply {
    match outcome
    case Succeed => Approved(providerId)
    case TimeOut => if patient then Approved(providerId) else Failed(TimedOut)
    case NetworkError => Failed(NetworkFailed)
    case InvalidJson => Failed(InvalidResponse)
    case InvalidSchema => Failed(InvalidResponse)
    case Status(code) => Failed(FromStatus(code))
  }

  /** A scripted status is a rejection, or leaves the outcome in doubt and is worth another attempt. */
  lemma StatusesMean(code: nat)
    requires code in SUPPORTED_STATUSES
    ensures Classify(FromStatus(code)).outcome.DefinitiveRejection? <==>
      code == 400 || code == 401 || code == 403 || code == 404 || code == 409
    ensures Classify(FromStatus(code)).retryable <==>
      code == 429 || code == 500 || code == 502 || code == 503 || code == 504
    ensures Classify(FromStatus(code)).countsTowardCircuitBreaker <==>
      code == 500 || code == 502 || code == 503 || code == 504
    ensures FromStatus(code).ServerFailed? ==> FromStatus(code).status == code
    ensures FromStatus(code).Rejected? ==> FromStatus(code).code == Some(code)
    ensures FromStatus(code).ServerFailed? || FromStatus(code).Rejected? || FromStatus(code).RateLimited?
  {}

  /** A scripted success is the transaction; every other named outcome has one behind it, and leaves doubt. */
  lemma NamedOutcomesMean(outcome: FakeOutcome, providerId: Text, patient: bool)
    requires !outcome.Status?
    ensures var reply := Seen(outcome, providerId, patient);
      && (reply == Approved(providerId) <==> outcome.Succeed? || (outcome.TimeOut? && patient))
      && (reply.Failed? ==> Classify(reply.error).outcome.Ambiguous?)
      && (reply.Failed? ==> (Classify(reply.error).retryable <==> outcome.TimeOut? || outcome.NetworkError?))
      && (reply.Approved? ==> reply.providerTransactionId == providerId)
  {}

  function Zeros(n: nat): (t: Text)
    ensures |t| == n
  {
    seq(n, _ => 0x30)
  }

  function PadStart(t: Text, width: nat): Text {
    if |t| >= width then t else Zeros(width - |t|) + t
  }

  const PREFIX := Units("fake-provider-")

  function Label(sequence: nat): Text {
    PREFIX + PadStart(Decimal(sequence), 6)
  }

  lemma {:induction false} LeadingZerosRead(n: nat, t: Text)
    ensures ReadDigits(Zeros(n) + t, 0) == ReadDigits(t, 0)
  {
    if n == 0 {
      assert Zeros(0) + t == t;
    } else {
      assert (Zeros(n) + t)[1..] == Zeros(n - 1) + t;
      LeadingZerosRead(n - 1, t);
    }
  }

  lemma LabelReads(n: nat)
    ensures ReadDigits(Label(n)[|PREFIX|..], 0) == (n, [])
  {
    assert Label(n)[|PREFIX|..] == PadStart(Decimal(n), 6);
    if |Decimal(n)| < 6 {
      LeadingZerosRead(6 - |Decimal(n)|, Decimal(n));
    }
    DecimalReads(n, []);
    assert Decimal(n) + [] == Decimal(n);
  }

  /** The prefix, and the number in decimal, filled up with zeros to six digits. */
  lemma LabelSpells(n: nat)
    ensures |Label(n)| == |PREFIX| + if |Decimal(n)| < 6 then 6 else |Decimal(n)|
    ensures Label(n)[..|PREFIX|] == PREFIX
    ensures ReadDigits(Label(n)[|PREFIX|..], 0) == (n, [])
  {
    LabelReads(n);
    assert Label(n) == PREFIX + PadStart(Decimal(n), 6);
  }

  /** Different sequence numbers give different provider ids. */
  lemma LabelsDiffer(m: nat, n: nat)
    ensures Label(m) == Label(n) <==> m == n
  {
    LabelReads(m);
    LabelReads(n);
  }

  /** One record per key, each under its own sequence number. */
  ghost predicate Numbered(transactions: map<Key, Text>, charges: map<Key, Charge>, numbers: map<Key, nat>, last: nat) {
    && transactions.Keys == charges.Keys == numbers.Keys
    && (forall k :: k in transactions ==> transactions[k] == charges[k].providerTransactionId)
    && (forall k :: k in numbers ==> transactions[k] == Label(numbers[k]))
    && (forall k :: k in numbers ==> numbers[k] <= last)
    && (forall j, k :: j in numbers && k in numbers && numbers[j] == numbers[k] ==> j == k)
  }

  lemma NextNumberIsNew(transactions: map<Key, Text>, charges: map<Key, Charge>, numbers: map<Key, nat>, last: nat)
    requires Numbered(transactions, charges, numbers, last)
    ensures forall k :: k in charges ==> charges[k].providerTransactionId != Label(last + 1)
  {
    forall k | k in charges
      ensures charges[k].providerTransactionId != Label(last + 1)
    {
      LabelsDiffer(numbers[k], last + 1);
    }
  }

  class FakeProviderHandler {
    const outcomes: seq<FakeOutcome>
    var transactions: map<Key, Text>
    var outcomeIndex: nat
    var transactionSequence: nat
    ghost var charges: map<Key, Charge>
    ghost var numbers: map<Key, nat>

    ghost predicate Valid()
      reads this
    {
      && (forall i :: 0 <= i < |outcomes| ==> Supported(outcomes[i]))
      && Numbered(transactions, charges, numbers, transactionSequence)
    }

    constructor (outcomes: seq<FakeOutcome>)
      requires |outcomes| > 0 && forall i :: 0 <= i < |outcomes| ==> Supported(outcomes[i])
      ensures Valid() && charges == map[]
    {
      this.outcomes := outcomes;
      transactions, outcomeIndex, transactionSequence := map[], 0, 0;
      charges, numbers := map[], map[];
    }

    /** The script, and plain success once it has run out. */
    function Scripted(index: nat): FakeOutcome {
      if index < |outcomes| then outcomes[index] else Succeed
    }

    /** Numbers a new transaction and records it under the key. */
    method Remember(m: Sent) returns (result: Text)
      requires Valid() && m.key !in transactions
      modifies `transactions, `transactionSequence, `charges, `numbers
      ensures Valid()
      ensures result == Label(old(transactionSequence) + 1)
      ensures charges == old(charges)[m.key := Charge(m.payload, result)]
      ensures forall k :: k in old(charges) ==> old(charges)[k].providerTransactionId != result
    {
      NextNumberIsNew(transactions, charges, numbers, transactionSequence);
      transactionSequence := transactionSequence + 1;
      result := Label(transactionSequence);
      transactions := transactions[m.key := result];
      charges := charges[m.key := Charge(m.payload, result)];
      numbers := numbers[m.key := transactionSequence];
    }

    /**
     * One request, handled in one step; the key is looked up before the body is read. The reply is
     * what the HTTP adapter makes of the response.
     */
    method Handle(m: Sent, body: Body, patient: bool) returns (reply: Reply, recorded: Option<Text>)
      requires Valid()
      modifies this
      ensures Valid()
      ensures HonoursContract(old(charges), m, recorded, reply)
      ensures charges ==
        if recorded.Some? then old(charges)[m.key := Charge(m.payload, recorded.value)] else old(charges)
      ensures recorded.Some? ==> forall k :: k in old(charges) ==>
        old(charges)[k].providerTransactionId != recorded.value
      // The script is consulted, and moves on, for new and well-formed requests only.
      ensures m.key in old(charges) || !body.WellFormed? ==> outcomeIndex == old(outcomeIndex) && recorded.None?
      ensures m.key in old(charges) ==> reply == Approved(old(charges)[m.key].providerTransactionId)
      ensures m.key !in old(charges) && !body.WellFormed? ==>
        reply == Failed(Rejected(Some(if body.NotJson? then 400 else 422)))
      ensures m.key !in old(charges) && body.WellFormed? ==>
        var outcome, next := Scripted(old(outcomeIndex)), Label(old(transactionSequence) + 1);
        && outcomeIndex == old(outcomeIndex) + 1
        && reply == Seen(outcome, next, patient)
        && recorded == if outcome.Status? then None else Some(next)
    {
      if m.key in transactions {
        return Approved(transactions[m.key]), None;
      }
      if body.NotJson? {
        return Failed(FromStatus(400)), None;
      }
      if body.OutsideSchema? {
        return Failed(FromStatus(422)), None;
      }
      var outcome := Scripted(outcomeIndex);
      outcomeIndex := outcomeIndex + 1;
      if outcome.Status? {
        return Failed(FromStatus(outcome.code)), None;
      }
      var result := Remember(m);
      recorded := Some(result);
      match outcome
      case Succeed => reply := Approved(result);
      case TimeOut => reply := if patient then Approved(result) else Failed(TimedOut);
      case NetworkError => reply := Failed(NetworkFailed);
      case _ => reply := Failed(InvalidResponse);
    }
  }
}
