/**
 * The prompt-record router: save, list, get, update and delete over the
 * `Prompt` collection. The collection is a map from ids to records; whether the
 * database answers at all is an input (`storeUp`); `Date.now()` reads a clock
 * that advances by one at each reading.
 */
module PromptRoutes {
  import opened Wrappers
  import opened Text
  import opened PromptModel

  predicate IsHexDigit(c: char) {
    '0' <= c <= '9' || 'a' <= c <= 'f' || 'A' <= c <= 'F'
  }

  /** The id strings that cast to an ObjectId: 24 hexadecimal digits. */
  predicate IsValidId(id: string) {
    |id| == 24 && forall i :: 0 <= i < |id| ==> IsHexDigit(id[i])
  }

  /** The id the database gives a new record. */
  type ObjectId = id: string | IsValidId(id) witness "000000000000000000000000"

  /** A record with its id, as the router returns it. */
  datatype Entry = Entry(id: string, prompt: Prompt)

  /** The JSON body of a reply. */
  datatype Payload =
    | Saved(message: string, data: Entry, id: string)
    | Listing(entries: seq<Entry>)
    | Found(data: Entry)
    | Done(message: string, data: Entry)
    | Error(error: string)

  datatype Reply = Reply(status: nat, payload: Payload)

  const Required: string := "Title and combined prompt are required"
  const NotFound: string := "Prompt not found"
  const InvalidId: string := "Invalid prompt ID format"

  /** The most records the listing returns. */
  const ListLimit: nat := 50

  /** The router's own check: `title` and `combinedPrompt` are truthy. */
  predicate BodyComplete(body: Fields) {
    Given(body.title) && Given(body.combinedPrompt)
  }

  /** The record `id` appears in the listing. */
  predicate IsListed(listing: seq<Entry>, id: string) {
    exists k :: 0 <= k < |listing| && listing[k].id == id
  }

  /**
   * What `find().sort({createdAt: -1}).limit(50)` returns: as many records as
   * there are, up to 50, each with its stored content and id, no record twice,
   * newest first, and no record left out that is newer than one listed.
   */
  predicate NewestFirst(records: map<string, Prompt>, listing: seq<Entry>) {
    && |listing| == (if |records| < ListLimit then |records| else ListLimit)
    && (forall k :: 0 <= k < |listing| ==> listing[k].id in records && records[listing[k].id] == listing[k].prompt)
    && (forall k, l :: 0 <= k < l < |listing| ==> listing[k].id != listing[l].id)
    && (forall k, l :: 0 <= k < l < |listing| ==> listing[k].prompt.createdAt >= listing[l].prompt.createdAt)
    && (forall id, k :: id in records && !IsListed(listing, id) && 0 <= k < |listing| ==>
          records[id].createdAt <= listing[k].prompt.createdAt)
  }

  /** Some record among `ids` is at least as new as every other one. */
  lemma {:induction false} NewestExists(records: map<string, Prompt>, ids: set<string>)
    requires ids != {} && ids <= records.Keys
    ensures exists id :: id in ids && forall j :: j in ids ==> records[j].createdAt <= records[id].createdAt
    decreases ids
  {
    var x :| x in ids;
    if ids != {x} {
      var rest := ids - {x};
      NewestExists(records, rest);
      var y :| y in rest && forall j :: j in rest ==> records[j].createdAt <= records[y].createdAt;
      if records[x].createdAt <= records[y].createdAt {
        assert forall j :: j in ids ==> records[j].createdAt <= records[y].createdAt;
      } else {
        assert forall j :: j in ids ==> records[j].createdAt <= records[x].createdAt;
      }
    } else {
      assert forall j :: j in ids ==> j == x;
    }
  }

  /** The selection so far: `listing` holds the newest records, newest first,
      and `remaining` the records not yet listed. */
  predicate Selecting(records: map<string, Prompt>, listing: seq<Entry>, remaining: set<string>) {
    && remaining <= records.Keys
    && |remaining| + |listing| == |records|
    && (forall k :: 0 <= k < |listing| ==>
          listing[k].id in records && records[listing[k].id] == listing[k].prompt && listing[k].id !in remaining)
    && (forall k, l :: 0 <= k < l < |listing| ==> listing[k].id != listing[l].id)
    && (forall k, l :: 0 <= k < l < |listing| ==> listing[k].prompt.createdAt >= listing[l].prompt.createdAt)
    && (forall id, k :: id in remaining && 0 <= k < |listing| ==>
          records[id].createdAt <= listing[k].prompt.createdAt)
    && (forall id :: id in records && id !in remaining ==> IsListed(listing, id))
  }

  /** Appending an entry no newer than any listed one, with an id not yet
      listed, keeps the ids distinct and the listing newest first. */
  lemma AppendedOldest(listing: seq<Entry>, e: Entry)
    requires forall k, l :: 0 <= k < l < |listing| ==> listing[k].id != listing[l].id
    requires forall k, l :: 0 <= k < l < |listing| ==> listing[k].prompt.createdAt >= listing[l].prompt.createdAt
    requires forall k :: 0 <= k < |listing| ==> listing[k].id != e.id && e.prompt.createdAt <= listing[k].prompt.createdAt
    ensures var next := listing + [e];
      forall k, l :: 0 <= k < l < |next| ==> next[k].id != next[l].id && next[k].prompt.createdAt >= next[l].prompt.createdAt
  {
    var next := listing + [e];
    forall k, l | 0 <= k < l < |next|
      ensures next[k].id != next[l].id && next[k].prompt.createdAt >= next[l].prompt.createdAt
    {
      assert next[k] == listing[k];
      if l < |listing| {
        assert next[l] == listing[l];
      }
    }
  }

  /** After listing `id`, every listed entry is its record and no longer
      remaining. */
  lemma TakeNewestListed(records: map<string, Prompt>, listing: seq<Entry>, remaining: set<string>, id: string)
    requires Selecting(records, listing, remaining) && id in remaining
    ensures var next := listing + [Entry(id, records[id])];
      forall k :: 0 <= k < |next| ==>
        next[k].id in records && records[next[k].id] == next[k].prompt && next[k].id !in remaining - {id}
  {
    var next := listing + [Entry(id, records[id])];
    forall k | 0 <= k < |next|
      ensures next[k].id in records && records[next[k].id] == next[k].prompt && next[k].id !in remaining - {id}
    {
      if k < |listing| {
        assert next[k] == listing[k];
      }
    }
  }

  /** After listing the newest remaining record, what remains is no newer than
      anything listed. */
  lemma TakeNewestOlder(records: map<string, Prompt>, listing: seq<Entry>, remaining: set<string>, id: string)
    requires Selecting(records, listing, remaining)
    requires id in remaining && forall j :: j in remaining ==> records[j].createdAt <= records[id].createdAt
    ensures var next := listing + [Entry(id, records[id])];
      forall j, k :: j in remaining - {id} && 0 <= k < |next| ==> records[j].createdAt <= next[k].prompt.createdAt
  {
    var next := listing + [Entry(id, records[id])];
    forall j, k | j in remaining - {id} && 0 <= k < |next|
      ensures records[j].createdAt <= next[k].prompt.createdAt
    {
      if k < |listing| {
        assert next[k] == listing[k];
      }
    }
  }

  /** After listing `id`, every record not remaining is listed. */
  lemma TakeNewestCovers(records: map<string, Prompt>, listing: seq<Entry>, remaining: set<string>, id: string)
    requires Selecting(records, listing, remaining) && id in remaining
    ensures forall j :: j in records && j !in remaining - {id} ==> IsListed(listing + [Entry(id, records[id])], j)
  {
    var next := listing + [Entry(id, records[id])];
    forall j | j in records && j !in remaining - {id} ensures IsListed(next, j) {
      if j != id {
        var k :| 0 <= k < |listing| && listing[k].id == j;
        assert next[k].id == j;
      } else {
        assert next[|listing|].id == id;
      }
    }
  }

  /** Listing the newest remaining record keeps the selection consistent. */
  lemma TakeNewest(records: map<string, Prompt>, listing: seq<Entry>, remaining: set<string>, id: string)
    requires Selecting(records, listing, remaining)
    requires id in remaining && forall j :: j in remaining ==> records[j].createdAt <= records[id].createdAt
    ensures Selecting(records, listing + [Entry(id, records[id])], remaining - {id})
  {
    TakeNewestListed(records, listing, remaining, id);
    AppendedOldest(listing, Entry(id, records[id]));
    TakeNewestOlder(records, listing, remaining, id);
    TakeNewestCovers(records, listing, remaining, id);
  }

  /** A selection that has reached 50 records or run out of records is the
      listing. */
  lemma SelectionDone(records: map<string, Prompt>, listing: seq<Entry>, remaining: set<string>)
    requires Selecting(records, listing, remaining)
    requires |listing| <= ListLimit && (|listing| == ListLimit || remaining == {})
    ensures NewestFirst(records, listing)
  {
    assert |records.Keys| == |records|;
    forall id, k | id in records && !IsListed(listing, id) && 0 <= k < |listing|
      ensures records[id].createdAt <= listing[k].prompt.createdAt
    {
      assert id in remaining;
    }
  }

  class PromptRouter {
    var records: map<string, Prompt>
    var clock: int

    /** Every stored id is an ObjectId, and every record was created no later
        than it was last updated, and updated no later than now. */
    ghost predicate Valid()
      reads this
    {
      forall id :: id in records ==>
        IsValidId(id) && records[id].createdAt <= records[id].updatedAt <= clock
    }

    constructor (start: int)
      ensures records == map[] && clock == start && Valid()
    {
      records := map[];
      clock := start;
    }

    /** `Date.now()`: the clock advances and its new value is read. */
    method Now() returns (t: int)
      modifies this
      ensures clock == old(clock) + 1 && t == clock && records == old(records)
    {
      clock := clock + 1;
      t := clock;
    }

    /**
     * `POST /save`. An incomplete body is refused with 400 before anything else.
     * Otherwise the document is created (first clock reading) and saved: a
     * validation failure, a database failure or an id already taken all give
     * 500; a save runs the pre-save hook (second reading) and stores the record,
     * which a later get then finds.
     */
    method Save(body: Fields, newId: ObjectId, storeUp: bool) returns (reply: Reply)
      requires Valid()
      modifies this
      ensures Valid()
      ensures !BodyComplete(body) ==>
        reply == Reply(400, Error(Required)) && records == old(records) && clock == old(clock)
      ensures BodyComplete(body) && ValidationError(Cast(body)).Some? ==>
        reply == Reply(500, Error("Failed to save prompt to database"))
        && records == old(records) && clock == old(clock) + 1
      ensures BodyComplete(body) && ValidationError(Cast(body)).None? && (!storeUp || newId in old(records)) ==>
        reply == Reply(500, Error("Failed to save prompt to database"))
        && records == old(records) && clock == old(clock) + 2
      ensures BodyComplete(body) && ValidationError(Cast(body)).None? && storeUp && newId !in old(records) ==>
        var p := Prompt(Cast(body), old(clock) + 1, old(clock) + 2);
        && reply == Reply(201, Saved("Prompt saved successfully", Entry(newId, p), newId))
        && records == old(records)[newId := p] && clock == old(clock) + 2
        && Get(newId, true) == Reply(200, Found(Entry(newId, p)))
    {
      if !(Given(body.title) && Given(body.combinedPrompt)) {
        return Reply(400, Error(Required));
      }
      var created := Now();
      var doc := new PromptDocument(body, created);
      if ValidationError(doc.fields).Some? {
        return Reply(500, Error("Failed to save prompt to database"));
      }
      var stamped := Now();
      doc.PreSave(stamped);
      if !storeUp || newId in records {
        return Reply(500, Error("Failed to save prompt to database"));
      }
      var saved := doc.Record();
      records := records[newId := saved];
      reply := Reply(201, Saved("Prompt saved successfully", Entry(newId, saved), newId));
    }

    /** `GET /`: the 50 newest records, newest first, by repeatedly taking the
        newest record not yet listed. */
    method List(storeUp: bool) returns (reply: Reply)
      ensures !storeUp ==> reply == Reply(500, Error("Failed to fetch prompts"))
      ensures storeUp ==> reply.status == 200 && reply.payload.Listing? && NewestFirst(records, reply.payload.entries)
    {
      if !storeUp {
        return Reply(500, Error("Failed to fetch prompts"));
      }
      var listing: seq<Entry> := [];
      var remaining := records.Keys;
      while |listing| < ListLimit && remaining != {}
        invariant |listing| <= ListLimit
        invariant Selecting(records, listing, remaining)
        decreases |remaining|
      {
        NewestExists(records, remaining);
        var id :| id in remaining && forall j :: j in remaining ==> records[j].createdAt <= records[id].createdAt;
        TakeNewest(records, listing, remaining, id);
        listing := listing + [Entry(id, records[id])];
        remaining := remaining - {id};
      }
      SelectionDone(records, listing, remaining);
      reply := Reply(200, Listing(listing));
    }

    /** `GET /:id`. A malformed id is a cast error, which lands in the generic
        500 branch like a database failure. */
    function Get(id: string, storeUp: bool): (reply: Reply)
      reads this
      ensures !IsValidId(id) || !storeUp ==> reply == Reply(500, Error("Failed to fetch prompt"))
      ensures IsValidId(id) && storeUp && id !in records ==> reply == Reply(404, Error(NotFound))
      ensures IsValidId(id) && storeUp && id in records ==> reply == Reply(200, Found(Entry(id, records[id])))
    {
      if !IsValidId(id) || !storeUp then Reply(500, Error("Failed to fetch prompt"))
      else if id !in records then Reply(404, Error(NotFound))
      else Reply(200, Found(Entry(id, records[id])))
    }

    /**
     * `PUT /:id`. The body is checked before any lookup. Then `Date.now()` is
     * read for `updatedAt`, the id is cast (400 if malformed), the setters and
     * validators run on the update (400 with the validation message), and the
     * record, if it exists, has all eight fields replaced and `updatedAt` set,
     * keeping its `createdAt`.
     */
    method Update(id: string, body: Fields, storeUp: bool) returns (reply: Reply)
      requires Valid()
      modifies this
      ensures Valid()
      ensures !BodyComplete(body) ==>
        reply == Reply(400, Error(Required)) && records == old(records) && clock == old(clock)
      ensures BodyComplete(body) ==> clock == old(clock) + 1
      ensures BodyComplete(body) && !IsValidId(id) ==>
        reply == Reply(400, Error(InvalidId)) && records == old(records)
      ensures BodyComplete(body) && IsValidId(id) && ValidationError(Trimmed(body)).Some? ==>
        reply == Reply(400, Error("Validation error: Validation failed: " + ValidationError(Trimmed(body)).value))
        && records == old(records)
      ensures BodyComplete(body) && IsValidId(id) && ValidationError(Trimmed(body)).None? && !storeUp ==>
        reply == Reply(500, Error("Failed to update prompt")) && records == old(records)
      ensures BodyComplete(body) && IsValidId(id) && ValidationError(Trimmed(body)).None? && storeUp
              && id !in old(records) ==>
        reply == Reply(404, Error(NotFound)) && records == old(records)
      ensures BodyComplete(body) && IsValidId(id) && ValidationError(Trimmed(body)).None? && storeUp
              && id in old(records) ==>
        var p := Prompt(Trimmed(body), old(records)[id].createdAt, old(clock) + 1);
        && reply == Reply(200, Done("Prompt updated successfully", Entry(id, p)))
        && records == old(records)[id := p]
    {
      if !(Given(body.title) && Given(body.combinedPrompt)) {
        return Reply(400, Error(Required));
      }
      var now := Now();
      if !IsValidId(id) {
        return Reply(400, Error(InvalidId));
      }
      var fields := Trimmed(body);
      var invalid := ValidationError(fields);
      if invalid.Some? {
        return Reply(400, Error("Validation error: Validation failed: " + invalid.value));
      }
      if !storeUp {
        return Reply(500, Error("Failed to update prompt"));
      }
      if id !in records {
        return Reply(404, Error(NotFound));
      }
      var updated := Prompt(fields, records[id].createdAt, now);
      records := records[id := updated];
      reply := Reply(200, Done("Prompt updated successfully", Entry(id, updated)));
    }

    /** `DELETE /:id`: a malformed id is 400, an absent one 404; otherwise the
        record is removed and returned, and a later get no longer finds it. */
    method Delete(id: string, storeUp: bool) returns (reply: Reply)
      requires Valid()
      modifies this
      ensures Valid() && clock == old(clock)
      ensures !IsValidId(id) ==> reply == Reply(400, Error(InvalidId)) && records == old(records)
      ensures IsValidId(id) && !storeUp ==>
        reply == Reply(500, Error("Failed to delete prompt")) && records == old(records)
      ensures IsValidId(id) && storeUp && id !in old(records) ==>
        reply == Reply(404, Error(NotFound)) && records == old(records)
      ensures IsValidId(id) && storeUp && id in old(records) ==>
        && reply == Reply(200, Done("Prompt deleted successfully", Entry(id, old(records)[id])))
        && records == old(records) - {id}
        && Get(id, true) == Reply(404, Error(NotFound))
    {
      if !IsValidId(id) {
        return Reply(400, Error(InvalidId));
      }
      if !storeUp {
        return Reply(500, Error("Failed to delete prompt"));
      }
      if id !in records {
        return Reply(404, Error(NotFound));
      }
      var deleted := records[id];
      records := records - {id};
      reply := Reply(200, Done("Prompt deleted successfully", Entry(id, deleted)));
    }
  }
}
