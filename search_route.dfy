/** The search route: a case-insensitive substring filter over five fixed
    locations, and a vector search delegated to a database that is seeded
    once per server process. The vector search itself is an input. */
module SearchRoute {
  import opened Wrappers
  import opened Text
  import opened Seqs

  datatype Place = Place(id: string, location: string, lat: real, lng: real, aqi: int, distance: string)

  const MockLocations: seq<Place> := [
    Place("1", "New Delhi, India", 28.6139, 77.2090, 156, "1.2 km away"),
    Place("2", "Mumbai, India", 19.0760, 72.8777, 89, "1,200 km away"),
    Place("3", "Bangalore, India", 12.9716, 77.5946, 62, "2,100 km away"),
    Place("4", "Chennai, India", 13.0827, 80.2707, 75, "2,200 km away"),
    Place("5", "Kolkata, India", 22.5726, 88.3639, 110, "1,500 km away")
  ]

  /** The filter's test for an already lower-cased query. */
  predicate Matches(lowerQuery: string, p: Place) {
    Contains(ToLower(p.location), lowerQuery)
  }

  /** `query ? mockLocations.filter(...) : []` for a lower-cased query. */
  function LocationSearch(lowerQuery: string): (r: seq<Place>)
    ensures lowerQuery == "" ==> r == []
    ensures forall p :: p in r ==> p in MockLocations && Contains(ToLower(p.location), lowerQuery)
    ensures lowerQuery != "" ==>
      forall i :: 0 <= i < |MockLocations| && Matches(lowerQuery, MockLocations[i]) ==> MockLocations[i] in r
    ensures SubsequenceOf(r, MockLocations)
  {
    if lowerQuery == "" then []
    else
      FilterIsSubsequence(MockLocations, p => Matches(lowerQuery, p));
      Filter(MockLocations, p => Matches(lowerQuery, p))
  }

  /** A query in any case finds a location whose name contains it in any
      case: the query is lower-cased, and so is each name. */
  lemma SearchIgnoresCase(query: string, i: nat)
    requires query != "" && i < |MockLocations|
    requires Contains(MockLocations[i].location, query)
    ensures MockLocations[i] in LocationSearch(ToLower(query))
  {
    ContainsLower(MockLocations[i].location, query);
  }

  /** "delhi" finds New Delhi. */
  lemma SearchExample()
    ensures MockLocations[0] in LocationSearch("delhi")
  {
    var name := ToLower(MockLocations[0].location);
    assert name[4..9] == "delhi";
    ContainsAt(name, "delhi", 4);
  }

  /** A vector search hit: a summary and chart data, opaque here. */
  datatype VectorMatch = VectorMatch(summary: string, chart: string)

  datatype SearchResponse = VectorResult(result: Option<VectorMatch>) | Results(places: seq<Place>) | Failure(status: int, message: string)

  /** A JSON body field: missing (`undefined`), `null`, or a string. */
  datatype Field = Missing | Null | Given(text: string) {
    predicate Truthy() {
      Given? && text != ""
    }
  }

  /** The module-level `dbSeeded` flag. `seedings` counts the calls to
      `seedVectorDatabase`; that function catches and logs every error of
      its own, so it always returns and the flag is set after the first
      call. */
  class SearchState {
    var dbSeeded: bool
    ghost var seedings: nat

    /** The database is seeded at most once, and the flag records whether
        that has happened. */
    ghost predicate Valid()
      reads this
    {
      seedings <= 1 && (dbSeeded <==> seedings == 1)
    }

    constructor ()
      ensures Valid() && !dbSeeded && seedings == 0
    {
      dbSeeded := false;
      seedings := 0;
    }

    /** `ensureDbSeeded`: seeds on the first call only; `attempted` is
        whether `seedVectorDatabase` was called. */
    method EnsureDbSeeded() returns (attempted: bool)
      requires Valid()
      modifies this
      ensures Valid() && dbSeeded
      ensures attempted <==> !old(dbSeeded)
      ensures seedings == old(seedings) + (if attempted then 1 else 0)
    {
      attempted := !dbSeeded;
      if !dbSeeded {
        seedings := seedings + 1;
        dbSeeded := true;
      }
    }

    /** `findBestVectorMatch`: seeds if needed, then returns the search
        result `found` (itself `null` when the search fails or finds
        nothing). */
    method FindBestVectorMatch(found: Option<VectorMatch>) returns (r: Option<VectorMatch>)
      requires Valid()
      modifies this
      ensures Valid() && dbSeeded
      ensures r == found
      ensures seedings == (if old(dbSeeded) then old(seedings) else old(seedings) + 1)
    {
      var _ := EnsureDbSeeded();
      r := found;
    }

    /** `GET /api/search?query&type`: the query is lower-cased or `""`, the
        type defaults to `location`, and only `vector` reaches the
        database. */
    method Get(query: Option<string>, searchType: Option<string>, found: Option<VectorMatch>)
      returns (resp: SearchResponse)
      requires Valid()
      modifies this
      ensures Valid()
      ensures searchType == Some("vector") ==> resp == VectorResult(found) && dbSeeded
      ensures searchType != Some("vector") ==>
        resp == Results(LocationSearch(if query.Some? then ToLower(query.value) else ""))
        && dbSeeded == old(dbSeeded) && seedings == old(seedings)
    {
      var lowerQuery := if query.Some? then ToLower(query.value) else "";
      var kind := if searchType.Some? && searchType.value != "" then searchType.value else "location";
      if kind == "vector" {
        var result := FindBestVectorMatch(found);
        resp := VectorResult(result);
      } else {
        resp := Results(LocationSearch(lowerQuery));
      }
    }

    /** `POST /api/search` with `{ query, type = 'vector' }` (`body` is
        `None` when the JSON does not parse). The default applies only to a
        missing type, so an explicit `null` type searches locations. */
    method Post(body: Option<(Field, Field)>, found: Option<VectorMatch>)
      returns (resp: SearchResponse)
      requires Valid()
      modifies this
      ensures Valid()
      ensures body.None? ==>
        resp == Failure(500, "Failed to process search request")
        && dbSeeded == old(dbSeeded) && seedings == old(seedings)
      ensures body.Some? && (body.value.1 == Missing || body.value.1 == Given("vector")) ==>
        resp == VectorResult(found) && dbSeeded
      ensures body.Some? && !(body.value.1 == Missing || body.value.1 == Given("vector")) ==>
        resp == Results(if body.value.0.Truthy() then LocationSearch(ToLower(body.value.0.text)) else [])
        && dbSeeded == old(dbSeeded) && seedings == old(seedings)
    {
      if body.None? {
        return Failure(500, "Failed to process search request");
      }
      var (query, kind) := body.value;
      if kind == Missing || kind == Given("vector") {
        var result := FindBestVectorMatch(found);
        resp := VectorResult(result);
      } else {
        resp := Results(if query.Truthy() then LocationSearch(ToLower(query.text)) else []);
      }
    }
  }
}
