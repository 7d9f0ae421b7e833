/** The serverless prohibited-source endpoint, api/check-source.js: a two-entry table. */
module ApiCheckSource {
  import opened Wrappers
  import opened Js
  import opened Http
  import opened SourceRules

  const SeeksAction: Classification := Classification(
    "PROHIBITED SOURCE",
    "This giver is a prohibited source under Rule 8(a). You cannot accept gifts from them.",
    Rule8a + ": Who seeks official action or business from the public servant's agency.",
    Some(true))

  const Family: Classification := Classification(
    "ALLOWED (with conditions)",
    "Gifts from immediate relatives are allowed if clearly motivated by the relationship.",
    Rule11b + ": Gift from an immediate relative when the circumstances make it clear that it is the relationship rather than the position which is the motivating factor.",
    Some(false))

  const Table: map<string, Classification> := map["seeks-action" := SeeksAction, "family" := Family]

  /** The handler as written: `{ success: true, ...(results[relationship] || REVIEW_REQUIRED) }`. */
  function HandlerAsWritten(verb: string, relationship: string): Reply<Object>
  {
    if verb == "POST" then Ok(map["success" := Bool(true)] + LookupAsWritten(Table, relationship))
    else NotAllowed(verb, ["POST"])
  }

  /** The handler with the lookup restricted to the table's own keys. */
  function Handler(verb: string, relationship: string): (r: Reply<Object>)
    ensures verb == "POST" ==>
              && r.status == 200 && r.payload.Body?
              && r.payload.body.Keys == EntryKeys + {"success"}
              && r.payload.body["success"] == Bool(true)
    ensures verb != "POST" ==> r.status == 405 && r.allow == ["POST"] && r.payload.Error?
  {
    if verb == "POST" then Ok(map["success" := Bool(true)] + Fields(Classify(Table, relationship)))
    else NotAllowed(verb, ["POST"])
  }

  /**
   * The verdicts: true for exactly "seeks-action" (Rule 8(a)), false for exactly
   * "family" (Rule 11(b)), and REVIEW REQUIRED with null for every other key,
   * "does-business" and "regulated" included. The match is exact.
   */
  lemma Verdicts(key: string)
    ensures Classify(Table, key).isProhibited == Some(true) <==> key == "seeks-action"
    ensures Classify(Table, key).isProhibited == Some(false) <==> key == "family"
    ensures Classify(Table, key).isProhibited == None <==> key != "seeks-action" && key != "family"
    ensures key == "seeks-action" ==>
              Classify(Table, key).title == "PROHIBITED SOURCE" && Rule8a <= Classify(Table, key).rule
    ensures key == "family" ==>
              Classify(Table, key).title == "ALLOWED (with conditions)" && Rule11b <= Classify(Table, key).rule
    ensures key != "seeks-action" && key != "family" ==> Classify(Table, key) == ReviewRequired
  {
  }

  /** The as-written handler agrees with the own-key handler on every key except the inherited member names. */
  lemma AsWrittenAgreesOffPrototype(verb: string, relationship: string)
    ensures relationship !in ObjectPrototypeKeys ==> HandlerAsWritten(verb, relationship) == Handler(verb, relationship)
  {
    LookupAsWrittenOwnKeys(Table, relationship);
  }

  /** "toString" reaches Object.prototype.toString: the as-written reply carries no title, rule or verdict. */
  lemma PrototypeKeyLosesVerdict()
    ensures HandlerAsWritten("POST", "toString").payload.body == map["success" := Bool(true)]
    ensures "title" !in HandlerAsWritten("POST", "toString").payload.body
    ensures Handler("POST", "toString").payload.body == map["success" := Bool(true)] + Fields(ReviewRequired)
  {
    LookupAsWrittenOwnKeys(Table, "toString");
  }
}
