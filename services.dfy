/** courses/services.py: opening a payment intent with the payment processor
    and reading back its status. The processor itself is outside the model:
    it appears as a function from the request (or the payment id) to its
    response, of which only `id`, `amount` and `amount_received` are read. */
module Services {

  /** The request `create_payment` sends: the amount, the currency, and
      whether the processor may choose payment methods automatically. */
  datatype IntentRequest = IntentRequest(amount: int, currency: string, automaticPaymentMethods: bool)

  /** The processor's answer: the intent's id, the requested amount and the
      amount received so far. */
  datatype IntentResponse = IntentResponse(id: string, amount: int, amountReceived: int)

  /** The two answers of `retrieve_payment`. */
  datatype Status = Paid | Unprocessed

  function StatusText(st: Status): (t: string)
    ensures t == "paid" || t == "unprocessed"
    ensures t == "paid" <==> st == Paid
  {
    match st
    case Paid => "paid"
    case Unprocessed => "unprocessed"
  }

  /** The request `create_payment(amount)` builds: the amount as given, in US
      dollars, with automatic payment methods enabled. */
  function PaymentRequest(amount: int): (req: IntentRequest)
    ensures req.amount == amount
    ensures req.currency == "usd"
    ensures req.automaticPaymentMethods
  {
    IntentRequest(amount, "usd", true)
  }

  /** `create_payment`: sends the request and hands back the processor's id
      for the new intent. */
  function CreatePayment(amount: int, processor: IntentRequest -> IntentResponse): (id: string)
    ensures id == processor(IntentRequest(amount, "usd", true)).id
  {
    processor(PaymentRequest(amount)).id
  }

  /** The status rule as the code states it: 'paid' when the requested amount
      exceeds what was received. This is the reverse of what a payment status
      should say (a fully received intent comes out 'unprocessed'); it is kept
      as written, and IntendedStatus below states the evident intention. */
  function PaymentStatus(amount: int, amountReceived: int): (st: Status)
    ensures st == Paid <==> amount - amountReceived > 0
  {
    if amount - amountReceived > 0 then Paid else Unprocessed
  }

  /** `retrieve_payment`: looks the intent up and reports its status. */
  function RetrievePayment(paymentId: string, processor: string -> IntentResponse): (t: string)
    ensures t == "paid" || t == "unprocessed"
    ensures t == "paid" <==> processor(paymentId).amountReceived < processor(paymentId).amount
  {
    var response := processor(paymentId);
    StatusText(PaymentStatus(response.amount, response.amountReceived))
  }

  /** Receiving the whole amount, or more, reports 'unprocessed'. */
  lemma FullReceiptIsUnprocessed(amount: int, amountReceived: int)
    requires amountReceived >= amount
    ensures PaymentStatus(amount, amountReceived) == Unprocessed
  {
  }

  /** Only the outstanding difference matters. */
  lemma StatusDependsOnlyOnDifference(a: int, r: int, a': int, r': int)
    requires a - r == a' - r'
    ensures PaymentStatus(a, r) == PaymentStatus(a', r')
  {
  }

  /** Once 'unprocessed', receiving more keeps it 'unprocessed'. */
  lemma UnprocessedStaysUnprocessed(amount: int, r: int, r': int)
    requires PaymentStatus(amount, r) == Unprocessed && r' >= r
    ensures PaymentStatus(amount, r') == Unprocessed
  {
  }

  /** The evidently intended rule: 'paid' once the received amount reaches
      the requested amount. */
  function IntendedStatus(amount: int, amountReceived: int): (st: Status)
    ensures st == Paid <==> amountReceived >= amount
  {
    if amountReceived >= amount then Paid else Unprocessed
  }

  function Flip(st: Status): Status
  {
    if st == Paid then Unprocessed else Paid
  }

  /** The rule as written answers the opposite of the intended rule on every
      input. */
  lemma PaymentStatusIsInverted(amount: int, amountReceived: int)
    ensures PaymentStatus(amount, amountReceived) == Flip(IntendedStatus(amount, amountReceived))
  {
  }

  /** A concrete witness: an intent for 500 with nothing received reads
      'paid', and one with all 500 received reads 'unprocessed'. */
  lemma InversionWitness()
    ensures PaymentStatus(500, 0) == Paid && IntendedStatus(500, 0) == Unprocessed
    ensures PaymentStatus(500, 500) == Unprocessed && IntendedStatus(500, 500) == Paid
  {
  }

  /** `retrieve_payment` with the intended rule. */
  function IntendedRetrievePayment(paymentId: string, processor: string -> IntentResponse): (t: string)
    ensures t == "paid" || t == "unprocessed"
    ensures t == "paid" <==> processor(paymentId).amountReceived >= processor(paymentId).amount
  {
    var response := processor(paymentId);
    StatusText(IntendedStatus(response.amount, response.amountReceived))
  }

  /** Retrieving by the id `create_payment` returned: while the processor
      reports nothing received for that id the intended rule reads
      "unprocessed", and once it reports the full amount it reads "paid". */
  lemma IntendedCreateThenRetrieve(amount: int, processor: IntentRequest -> IntentResponse,
                                   before: string -> IntentResponse, after: string -> IntentResponse)
    requires amount > 0
    requires var id := CreatePayment(amount, processor);
             && before(id).amount == amount && before(id).amountReceived == 0
             && after(id).amount == amount && after(id).amountReceived == amount
    ensures var id := CreatePayment(amount, processor);
            && IntendedRetrievePayment(id, before) == "unprocessed"
            && IntendedRetrievePayment(id, after) == "paid"
  {
  }

  /** The same sequence under the rule as written reads the other way round:
      "paid" before anything is received, "unprocessed" after full receipt. */
  lemma AsWrittenCreateThenRetrieve(amount: int, processor: IntentRequest -> IntentResponse,
                                    before: string -> IntentResponse, after: string -> IntentResponse)
    requires amount > 0
    requires var id := CreatePayment(amount, processor);
             && before(id).amount == amount && before(id).amountReceived == 0
             && after(id).amount == amount && after(id).amountReceived == amount
    ensures var id := CreatePayment(amount, processor);
            && RetrievePayment(id, before) == "paid"
            && RetrievePayment(id, after) == "unprocessed"
  {
  }
}
