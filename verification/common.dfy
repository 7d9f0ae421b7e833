/** The shape of an HTTP reply as the handlers build it with `res.status`, `res.setHeader('Allow', …)` and `res.json`. */
module Http {
  datatype Payload<T> = Body(body: T) | Error(error: string)

  /** `allow` is the Allow header; it is empty when the handler does not set it. */
  datatype Reply<T> = Reply(status: nat, allow: seq<string>, payload: Payload<T>)

  /** `res.json(body)` with Express's default status. */
  function Ok<T>(body: T): Reply<T>
  {
    Reply(200, [], Body(body))
  }

  /** The 405 branch: the Allow header, then `{ error: "Method <m> Not Allowed" }`. */
  function NotAllowed<T>(verb: string, allow: seq<string>): Reply<T>
  {
    Reply(405, allow, Error("Method " + verb + " Not Allowed"))
  }
}

/**
 * What every copy of the prohibited-source checker shares: the shape of a
 * table entry, the REVIEW REQUIRED default, and the two ways of reading a
 * relationship key from a table.
 */
module SourceRules {
  import opened Wrappers
  import opened Js

  /** A table entry; `isProhibited` is true, false, or (None) null. */
  datatype Classification = Classification(title: string, desc: string, rule: string, isProhibited: Option<bool>)

  /** Citation labels of the Gift Rules that the tables quote. */
  const Rule8a: string := "Rule 8(a)"
  const Rule8b: string := "Rule 8(b)"
  const Rule8c: string := "Rule 8(c)"
  const Rule11b: string := "Rule 11(b)"

  const ReviewRequired: Classification := Classification(
    "REVIEW REQUIRED",
    "This relationship requires further review.",
    "Please consult with your Gift Disclosure Administrator.",
    None)

  /** The keys an entry contributes when it is spread into a response. */
  const EntryKeys: set<string> := {"title", "desc", "rule", "isProhibited"}

  /** An entry as a JSON object. */
  function Fields(c: Classification): Object
  {
    map["title" := Str(c.title), "desc" := Str(c.desc), "rule" := Str(c.rule),
        "isProhibited" := match c.isProhibited { case None => Null case Some(b) => Bool(b) }]
  }

  /** Distinct entries give distinct responses: the JSON object determines the entry it was built from. */
  lemma FieldsInjective(c1: Classification, c2: Classification)
    ensures Fields(c1) == Fields(c2) ==> c1 == c2
    ensures map["success" := Bool(true)] + Fields(c1) == map["success" := Bool(true)] + Fields(c2) ==> c1 == c2
  {
    var r1 := map["success" := Bool(true)] + Fields(c1);
    var r2 := map["success" := Bool(true)] + Fields(c2);
    if r1 == r2 {
      assert r1["title"] == Fields(c1)["title"] && r2["title"] == Fields(c2)["title"];
      assert r1["desc"] == Fields(c1)["desc"] && r2["desc"] == Fields(c2)["desc"];
      assert r1["rule"] == Fields(c1)["rule"] && r2["rule"] == Fields(c2)["rule"];
      assert r1["isProhibited"] == Fields(c1)["isProhibited"] && r2["isProhibited"] == Fields(c2)["isProhibited"];
    }
    if Fields(c1) == Fields(c2) {
      assert Fields(c1)["title"] == Fields(c2)["title"];
      assert Fields(c1)["desc"] == Fields(c2)["desc"];
      assert Fields(c1)["rule"] == Fields(c2)["rule"];
      assert Fields(c1)["isProhibited"] == Fields(c2)["isProhibited"];
    }
  }

  /** Own-key lookup: an entry of the table, and REVIEW REQUIRED for every other key. */
  function Classify(table: map<string, Classification>, key: string): Classification
  {
    if key in table then table[key] else ReviewRequired
  }

  /**
   * Classification never invents a verdict: a true or false isProhibited comes
   * from a table entry, and every key outside the table is left for review.
   */
  lemma ClassifyNeverInventsVerdict(table: map<string, Classification>, key: string)
    ensures Classify(table, key).isProhibited.Some? ==> key in table && table[key].isProhibited.Some?
    ensures key !in table ==> Classify(table, key).isProhibited == None && Classify(table, key).title == "REVIEW REQUIRED"
  {
  }

  /**
   * A table that contains another entry for entry classifies every key of the
   * smaller table, and every key neither table knows, exactly as the smaller
   * one does: the two can differ only on the keys the larger table adds.
   */
  lemma ClassifySubTable(small: map<string, Classification>, large: map<string, Classification>, key: string)
    requires forall k :: k in small ==> k in large && large[k] == small[k]
    ensures key in small ==> Classify(large, key) == Classify(small, key)
    ensures key !in large ==> Classify(large, key) == Classify(small, key)
    ensures Classify(large, key) != Classify(small, key) ==> key in large.Keys - small.Keys
  {
  }

  /**
   * `(table[key] || REVIEW_REQUIRED)` as JavaScript evaluates it, as the fields it
   * contributes to a spread: a member inherited from Object.prototype is a truthy
   * function (or, for `__proto__`, an object) with no own enumerable fields.
   */
  function LookupAsWritten(table: map<string, Classification>, key: string): Object
  {
    match GetProperty(table, key)
    case Own(c) => Fields(c)
    case Inherited => map[]
    case Missing => Fields(ReviewRequired)
  }

  /** Outside the inherited member names, the as-written lookup is own-key classification. */
  lemma LookupAsWrittenOwnKeys(table: map<string, Classification>, key: string)
    ensures key !in ObjectPrototypeKeys ==> LookupAsWritten(table, key) == Fields(Classify(table, key))
    ensures key in ObjectPrototypeKeys && key !in table ==> LookupAsWritten(table, key) == map[]
  {
  }
}

/** The reference `BGTS-<year>-<n>` with a random four-digit n, built in api/gifts.js and in the browser's offline path. */
module References {
  import opened Js

  const Prefix: string := "BGTS-"

  /** `Math.floor(1000 + Math.random() * 9000)`, for Math.random() in [0, 1). */
  function RandomSerial(random: real): (n: nat)
    requires 0.0 <= random < 1.0
    ensures 1000 <= n <= 9999
  {
    (1000.0 + random * 9000.0).Floor
  }

  function RandomReference(year: nat, random: real): string
    requires 0.0 <= random < 1.0
  {
    Prefix + Decimal(year) + "-" + Decimal(RandomSerial(random))
  }

  /**
   * A well-formed random reference: the prefix, a run of year digits, a dash and
   * exactly four serial digits that do not start with 0.
   */
  predicate IsRandomReference(s: string)
  {
    && |s| >= 11
    && s[..5] == Prefix
    && s[|s| - 5] == '-'
    && AllDigits(s[5..|s| - 5])
    && AllDigits(s[|s| - 4..])
    && 1000 <= ParseDecimal(s[|s| - 4..])
  }

  function ReferenceYear(s: string): nat
    requires IsRandomReference(s)
  {
    ParseDecimal(s[5..|s| - 5])
  }

  function ReferenceSerial(s: string): nat
    requires IsRandomReference(s)
  {
    ParseDecimal(s[|s| - 4..])
  }

  /** A generated reference is well formed and reads back as the year and the serial it was built from. */
  lemma RandomReferenceParses(year: nat, random: real)
    requires 0.0 <= random < 1.0
    ensures IsRandomReference(RandomReference(year, random))
    ensures ReferenceYear(RandomReference(year, random)) == year
    ensures ReferenceSerial(RandomReference(year, random)) == RandomSerial(random)
  {
    var n := RandomSerial(random);
    var y, d := Decimal(year), Decimal(n);
    assert Pow10(3) == 1000 && Pow10(4) == 10000;
    DecimalLength(n, 3);
    var s := RandomReference(year, random);
    assert s == Prefix + y + "-" + d;
    assert s[..5] == Prefix;
    assert s[5..|s| - 5] == y;
    assert s[|s| - 4..] == d;
    ParseDecimalOfDecimal(year);
    ParseDecimalOfDecimal(n);
  }
}
