/**
 * The serverless gift store, api/gifts.js: a module-level array of records that
 * POST appends to and GET returns whole.
 */
module ApiGifts {
  import opened Js
  import opened Http
  import opened References

  /** The keys the handler writes after spreading the request body. */
  const GeneratedKeys: set<string> := {"status", "submittedAt", "reference"}

  const SubmittedMessage: string := "Gift declaration submitted successfully"

  datatype GiftsBody =
    | Posted(success: bool, message: string, reference: string, data: Object)
    | Listing(gifts: seq<Object>)

  /**
   * `{ id: Date.now(), ...req.body, status: 'pending', submittedAt, reference }`:
   * the body overrides the generated id, and the three keys written after the
   * spread override the body.
   */
  function NewRecord(body: Object, nowMs: nat, submittedAt: string, reference: string): (g: Object)
    ensures g.Keys == body.Keys + {"id"} + GeneratedKeys
    ensures g["status"] == Str("pending")
    ensures g["submittedAt"] == Str(submittedAt)
    ensures g["reference"] == Str(reference)
    ensures g["id"] == if "id" in body then body["id"] else Num(nowMs as real)
    ensures forall k :: k in body && k !in GeneratedKeys ==> g[k] == body[k]
  {
    map["id" := Num(nowMs as real)] + body
      + map["status" := Str("pending"), "submittedAt" := Str(submittedAt), "reference" := Str(reference)]
  }

  /** What every record the store holds satisfies: pending, time-stamped, with a generated reference. */
  predicate IsStoredRecord(g: Object)
  {
    && "status" in g && g["status"] == Str("pending")
    && "submittedAt" in g && g["submittedAt"].Str?
    && "reference" in g && g["reference"].Str? && IsRandomReference(g["reference"].s)
  }

  /** A record built with a generated reference is a stored record, whatever the body held. */
  lemma NewRecordIsStored(body: Object, nowMs: nat, submittedAt: string, year: nat, random: real)
    requires 0.0 <= random < 1.0
    ensures IsStoredRecord(NewRecord(body, nowMs, submittedAt, RandomReference(year, random)))
  {
    RandomReferenceParses(year, random);
  }

  class GiftStore {
    /** The module-level `gifts` array. */
    var gifts: seq<Object>

    ghost predicate Valid()
      reads this
    {
      forall i :: 0 <= i < |gifts| ==> IsStoredRecord(gifts[i])
    }

    constructor ()
      ensures Valid() && gifts == []
    {
      gifts := [];
    }

    /**
     * The handler. The clock and the random source are parameters: `nowMs` is
     * `Date.now()`, `submittedAt` is `new Date().toISOString()`, `year` is
     * `new Date().getFullYear()` and `random` is `Math.random()`.
     */
    method Handle(verb: string, body: Object, nowMs: nat, submittedAt: string, year: nat, random: real)
      returns (reply: Reply<GiftsBody>)
      requires Valid()
      requires 0.0 <= random < 1.0
      modifies this
      ensures Valid()
      ensures verb == "POST" ==>
                var g := NewRecord(body, nowMs, submittedAt, RandomReference(year, random));
                && gifts == old(gifts) + [g]
                && reply == Reply(201, [], Body(Posted(true, SubmittedMessage, g["reference"].s, g)))
      ensures verb == "GET" ==> gifts == old(gifts) && reply == Ok(Listing(gifts))
      ensures verb != "POST" && verb != "GET" ==>
                gifts == old(gifts) && reply == NotAllowed(verb, ["GET", "POST"])
    {
      if verb == "POST" {
        var newGift := NewRecord(body, nowMs, submittedAt, RandomReference(year, random));
        NewRecordIsStored(body, nowMs, submittedAt, year, random);
        gifts := gifts + [newGift];
        reply := Reply(201, [], Body(Posted(true, SubmittedMessage, newGift["reference"].s, newGift)));
      } else if verb == "GET" {
        reply := Ok(Listing(gifts));
      } else {
        reply := NotAllowed(verb, ["GET", "POST"]);
      }
    }
  }

  /**
   * A POST followed by a GET lists every earlier record unchanged and in order,
   * then the new one, whose reference is the one the POST answered with.
   */
  method PostThenList(store: GiftStore, body: Object, nowMs: nat, submittedAt: string, year: nat, random: real)
    returns (posted: Reply<GiftsBody>, listed: Reply<GiftsBody>)
    requires store.Valid()
    requires 0.0 <= random < 1.0
    modifies store
    ensures store.Valid()
    ensures listed.payload.Body? && listed.payload.body.Listing? && store.gifts == listed.payload.body.gifts
    ensures listed.payload.Body? && listed.payload.body.Listing?
    ensures var all := listed.payload.body.gifts;
      && |all| == |old(store.gifts)| + 1
      && all[..|all| - 1] == old(store.gifts)
      && posted.payload.Body? && posted.payload.body.Posted?
      && all[|all| - 1] == posted.payload.body.data
      && "reference" in all[|all| - 1] && all[|all| - 1]["reference"] == Str(posted.payload.body.reference)
      && IsRandomReference(posted.payload.body.reference)
  {
    posted := store.Handle("POST", body, nowMs, submittedAt, year, random);
    listed := store.Handle("GET", map[], nowMs, submittedAt, year, random);
    RandomReferenceParses(year, random);
  }
}
