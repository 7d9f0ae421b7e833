/**
 * The Express server, server.js: its own copies of the penalty and source
 * handlers, a gift POST that stores nothing, and fixed demo listings.
 */
module Server {
  import opened Wrappers
  import opened Js
  import opened Http
  import opened SourceRules
  import opened References
  import ApiPenalty
  import ApiCheckSource

  // POST /api/calculate-penalty

  const Multipliers: seq<int> := [2, 5, 10]

  /** The route's own copy of the computation; the route exists for POST only. */
  function CalculatePenalty(req: ApiPenalty.PenaltyRequest, locale: real -> string): Reply<ApiPenalty.PenaltyBody>
  {
    var numValue := RealOr(req.value, 0.0);
    var multiplier := ElementOr(Multipliers, IntOr(req.breachNumber, 1) - 1, 2);
    var fine := numValue * multiplier as real;
    Ok(ApiPenalty.PenaltyBody(true, numValue, IntOr(req.breachNumber, 1), multiplier, fine, "Nu. " + locale(fine)))
  }

  /** For every body, the server's route answers exactly as the serverless handler does for POST. */
  lemma PenaltyAgreesWithApi(req: ApiPenalty.PenaltyRequest, locale: real -> string)
    ensures CalculatePenalty(req, locale) == ApiPenalty.Handler("POST", req, locale)
    ensures CalculatePenalty(req, locale).payload.body.multiplier == ApiPenalty.Multiplier(req.breachNumber)
  {
  }

  // POST /api/check-source

  const SeeksAction: Classification := Classification(
    "PROHIBITED SOURCE",
    "This giver is a prohibited source under Rule 8(a). You cannot accept gifts from them.",
    Rule8a + ": Who seeks official action or business from the public servant's agency.",
    Some(true))

  const DoesBusiness: Classification := Classification(
    "PROHIBITED SOURCE",
    "This giver is a prohibited source under Rule 8(b). You cannot accept gifts from them.",
    Rule8b + ": Who does business or seeks to do business with the public servant's agency.",
    Some(true))

  const Family: Classification := Classification(
    "ALLOWED (with conditions)",
    "Gifts from immediate relatives are allowed if clearly motivated by the relationship.",
    Rule11b + ": Gift from an immediate relative when the circumstances make it clear that it is the relationship rather than the position which is the motivating factor.",
    Some(false))

  const Table: map<string, Classification> :=
    map["seeks-action" := SeeksAction, "does-business" := DoesBusiness, "family" := Family]

  /** The route as written: `{ success: true, ...(results[relationship] || REVIEW_REQUIRED) }`. */
  function CheckSourceAsWritten(relationship: string): Reply<Object>
  {
    Ok(map["success" := Bool(true)] + LookupAsWritten(Table, relationship))
  }

  /** The route with the lookup restricted to the table's own keys. */
  function CheckSource(relationship: string): (r: Reply<Object>)
    ensures r.status == 200 && r.payload.Body?
    ensures r.payload.body.Keys == EntryKeys + {"success"} && r.payload.body["success"] == Bool(true)
  {
    Ok(map["success" := Bool(true)] + Fields(Classify(Table, relationship)))
  }

  /**
   * The verdicts: true for "seeks-action" (Rule 8(a)) and "does-business" (Rule 8(b)),
   * false for "family" (Rule 11(b)), REVIEW REQUIRED with null for every other key.
   */
  lemma Verdicts(key: string)
    ensures Classify(Table, key).isProhibited == Some(true) <==> key == "seeks-action" || key == "does-business"
    ensures Classify(Table, key).isProhibited == Some(false) <==> key == "family"
    ensures key == "seeks-action" ==> Rule8a <= Classify(Table, key).rule
    ensures key == "does-business" ==> Rule8b <= Classify(Table, key).rule
    ensures key == "family" ==> Rule11b <= Classify(Table, key).rule
    ensures key !in {"seeks-action", "does-business", "family"} ==> Classify(Table, key) == ReviewRequired
  {
  }

  /**
   * The serverless table is contained in this one, entry for entry; so wherever
   * the serverless handler gives a verdict this route gives the same verdict,
   * title, description and rule. The one key where they differ is
   * "does-business", which only this table knows.
   */
  lemma ContainsApiTable(key: string)
    ensures key in ApiCheckSource.Table ==> key in Table && Table[key] == ApiCheckSource.Table[key]
    ensures Classify(ApiCheckSource.Table, key).isProhibited.Some? ==>
              Classify(Table, key) == Classify(ApiCheckSource.Table, key)
    ensures Classify(Table, key) != Classify(ApiCheckSource.Table, key) <==> key == "does-business"
  {
    ClassifySubTable(ApiCheckSource.Table, Table, key);
  }

  /** "toString" reaches Object.prototype.toString: the as-written reply carries no verdict. */
  lemma PrototypeKeyLosesVerdict()
    ensures CheckSourceAsWritten("toString").payload.body == map["success" := Bool(true)]
    ensures CheckSource("toString").payload.body == map["success" := Bool(true)] + Fields(ReviewRequired)
  {
    LookupAsWrittenOwnKeys(Table, "toString");
  }

  /** Off the inherited member names, the as-written route is the own-key route. */
  lemma AsWrittenAgreesOffPrototype(relationship: string)
    ensures relationship !in ObjectPrototypeKeys ==> CheckSourceAsWritten(relationship) == CheckSource(relationship)
  {
    LookupAsWrittenOwnKeys(Table, relationship);
  }

  // POST /api/gifts

  datatype GiftPosted = GiftPosted(success: bool, message: string, reference: string, data: Object)

  /** `BGTS-<year>-` then `Date.now().toString().slice(-6)`. */
  function TimestampReference(year: nat, nowMs: nat): string
  {
    Prefix + Decimal(year) + "-" + SliceLast(Decimal(nowMs), 6)
  }

  /**
   * The route builds a reply and stores nothing. It reads the clock three times:
   * `refNowMs` for the reference, `idNowMs` for the id, `submittedAt` for the time
   * stamp; `year` is `new Date().getFullYear()`. The data is
   * `{ ...req.body, id, status: 'pending', submittedAt }`: the generated keys come
   * after the spread and win, and the data has no generated reference.
   */
  function PostGift(body: Object, year: nat, refNowMs: nat, idNowMs: nat, submittedAt: string): (r: Reply<GiftPosted>)
    ensures r.status == 200 && r.payload.Body?
    ensures var d := r.payload.body.data;
      && d.Keys == body.Keys + {"id", "status", "submittedAt"}
      && d["id"] == Num(idNowMs as real)
      && d["status"] == Str("pending")
      && d["submittedAt"] == Str(submittedAt)
      && (forall k :: k in body && k !in {"id", "status", "submittedAt"} ==> d[k] == body[k])
  {
    Ok(GiftPosted(
      true,
      "Gift declaration submitted successfully",
      TimestampReference(year, refNowMs),
      body + map["id" := Num(idNowMs as real), "status" := Str("pending"), "submittedAt" := Str(submittedAt)]))
  }

  /**
   * The reference is the prefix, the year's digits, a dash, and the last (at most)
   * six digits of the timestamp, which read back as the timestamp modulo 10^6.
   */
  lemma TimestampReferenceShape(year: nat, nowMs: nat)
    ensures var s := TimestampReference(year, nowMs);
      var y := Decimal(year);
      var serial := s[|Prefix| + |y| + 1..];
      && s[..|Prefix|] == Prefix
      && s[|Prefix|..|Prefix| + |y|] == y
      && s[|Prefix| + |y|] == '-'
      && AllDigits(serial) && 1 <= |serial| <= 6
      && ParseDecimal(serial) == nowMs % 1000000
      && (nowMs >= 100000 ==> |serial| == 6)
  {
    var s := TimestampReference(year, nowMs);
    var y := Decimal(year);
    assert s == Prefix + y + "-" + SliceLast(Decimal(nowMs), 6);
    assert s[|Prefix| + |y| + 1..] == SliceLast(Decimal(nowMs), 6);
    LastSixDigits(nowMs);
  }

  // GET /api/penalties and GET /api/gifts: fixed demo data

  const DemoPenalty: Object := map[
    "id" := Num(1.0),
    "date" := Str("2023-09-15"),
    "publicServant" := Str("Karma Wangdi"),
    "breachType" := Str("Late Declaration (24h rule)"),
    "giftValue" := Num(7000.0),
    "fineAmount" := Num(14000.0),
    "status" := Str("unpaid")]

  const DemoGift: Object := map[
    "id" := Num(1.0),
    "description" := Str("Traditional Thanka painting"),
    "value" := Num(5000.0),
    "date" := Str("2023-10-15"),
    "giver" := Str("Local Artist"),
    "status" := Str("pending")]

  function ListPenalties(): Reply<seq<Object>>
  {
    Ok([DemoPenalty])
  }

  function ListGifts(): Reply<seq<Object>>
  {
    Ok([DemoGift])
  }

  /** The demo fine is what the penalty route computes for the demo value at a first breach (x2). */
  lemma DemoFineIsFirstBreach(locale: real -> string)
    ensures var demo := ListPenalties().payload.body;
      && |demo| == 1 && "giftValue" in demo[0] && "fineAmount" in demo[0]
      && var b := CalculatePenalty(ApiPenalty.PenaltyRequest(Some(demo[0]["giftValue"].n), Some(1)), locale).payload.body;
      && b.multiplier == 2 && Num(b.fine) == demo[0]["fineAmount"]
  {
  }

  /**
   * Nothing a POST answers with ever shows up in the listing. The real guarantee
   * is structural: `ListGifts` is a constant and the route writes nowhere; this
   * lemma shows only that the posted data (which has a submittedAt) is not the
   * demo record (which has none).
   */
  lemma PostedGiftNeverListed(body: Object, year: nat, refNowMs: nat, idNowMs: nat, submittedAt: string)
    ensures PostGift(body, year, refNowMs, idNowMs, submittedAt).payload.body.data !in ListGifts().payload.body
  {
    var d := PostGift(body, year, refNowMs, idNowMs, submittedAt).payload.body.data;
    assert "submittedAt" in d && "submittedAt" !in DemoGift;
  }
}
