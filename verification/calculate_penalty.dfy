/** The serverless penalty endpoint, api/calculate-penalty.js. */
module ApiPenalty {
  import opened Wrappers
  import opened Js
  import opened Http

  /**
   * The request body as the handler reads it: `parseFloat(value)` and
   * `parseInt(breachNumber)`, with None where the parse gives NaN.
   */
  datatype PenaltyRequest = PenaltyRequest(value: Option<real>, breachNumber: Option<int>)

  datatype PenaltyBody = PenaltyBody(
    success: bool,
    value: real,
    breachNumber: int,
    multiplier: int,
    fine: real,
    formatted: string)

  /** The multiplier table, indexed by breach number minus one. */
  const Multipliers: seq<int> := [2, 5, 10]

  const CurrencyPrefix: string := "Nu. "

  /** The echoed breach number, `parseInt(breachNumber) || 1`. */
  function EchoedBreach(breach: Option<int>): (e: int)
    ensures e != 0
    ensures breach == None || breach == Some(0) ==> e == 1
    ensures breach.Some? && breach.value != 0 ==> e == breach.value
  {
    IntOr(breach, 1)
  }

  /**
   * `[2, 5, 10][(parseInt(breachNumber) || 1) - 1] || 2`: x5 for exactly 2, x10 for
   * exactly 3, and x2 for everything else, including 4 and above.
   */
  function Multiplier(breach: Option<int>): (m: int)
    ensures m == 5 <==> breach == Some(2)
    ensures m == 10 <==> breach == Some(3)
    ensures m == 2 <==> breach != Some(2) && breach != Some(3)
  {
    ElementOr(Multipliers, EchoedBreach(breach) - 1, 2)
  }

  /** The POST branch. `locale` stands for `Number.prototype.toLocaleString`. */
  function Compute(req: PenaltyRequest, locale: real -> string): PenaltyBody
  {
    var numValue := RealOr(req.value, 0.0);
    var multiplier := Multiplier(req.breachNumber);
    var fine := numValue * multiplier as real;
    PenaltyBody(true, numValue, EchoedBreach(req.breachNumber), multiplier, fine, CurrencyPrefix + locale(fine))
  }

  function Handler(verb: string, req: PenaltyRequest, locale: real -> string): Reply<PenaltyBody>
  {
    if verb == "POST" then Ok(Compute(req, locale)) else NotAllowed(verb, ["POST"])
  }

  /** The multiplier is one of the table's three values, so it is always positive. */
  lemma MultiplierInTable(breach: Option<int>)
    ensures Multiplier(breach) in Multipliers && Multiplier(breach) > 0
  {
  }

  /** A breach number of 4 or more, or below 1, reads outside the table: x2, never x10. */
  lemma NoEscalationBeyondThird(n: int)
    ensures n >= 4 || n <= 0 ==> Multiplier(Some(n)) == 2
  {
  }

  /**
   * A POST answers 200 with success, fine = value x multiplier, a fine of 0 for an
   * unparseable value, and the "Nu. " prefix on the formatted fine; any other method
   * answers 405 with Allow = [POST] and no computed body.
   */
  lemma HandlerReply(verb: string, req: PenaltyRequest, locale: real -> string)
    ensures var r := Handler(verb, req, locale);
      && (verb == "POST" ==>
            && r.status == 200 && r.payload.Body?
            && var b := r.payload.body;
            && b.success
            && b.multiplier == Multiplier(req.breachNumber)
            && b.breachNumber == EchoedBreach(req.breachNumber)
            && b.fine == b.value * b.multiplier as real
            && (req.value == None ==> b.value == 0.0 && b.fine == 0.0)
            && (req.value.Some? ==> b.value == req.value.value)
            && |b.formatted| >= 4 && b.formatted[..4] == CurrencyPrefix)
      && (verb != "POST" ==>
            r.status == 405 && r.allow == ["POST"] && r.payload == Error("Method " + verb + " Not Allowed"))
  {
  }
}
