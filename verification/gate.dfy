/** The header gate, the first stage of a route: every expected header must
    be present in the request with exactly the expected value; the first
    one that is not answers 400 and the dispatch stage is not reached. */
module Gate {

  /** Header `name` of the request does not carry the expected value; an
      absent header (undefined in the request) never does. */
  predicate Mismatch(expected: map<string, string>, headers: map<string, string>, name: string)
    requires name in expected
  {
    name !in headers || headers[name] != expected[name]
  }

  /** Some expected header is missing or different. */
  predicate Rejects(expected: map<string, string>, headers: map<string, string>) {
    exists name :: name in expected && Mismatch(expected, headers, name)
  }

  /** The loop over the expected headers with its early return. Which
      mismatching header stops the loop depends on the enumeration order,
      but the outcome does not, so the order is left open here.
      `callNext` is false exactly when the source sets status 400. */
  method HeaderGate(expected: map<string, string>, headers: map<string, string>) returns (callNext: bool)
    ensures callNext <==> !Rejects(expected, headers)
    ensures callNext <==> forall name :: name in expected ==> name in headers && headers[name] == expected[name]
  {
    var remaining := expected.Keys;
    while remaining != {}
      invariant remaining <= expected.Keys
      invariant forall name :: name in expected && name !in remaining ==> name in headers && headers[name] == expected[name]
      decreases remaining
    {
      var name :| name in remaining;
      if name !in headers || headers[name] != expected[name] {
        assert Mismatch(expected, headers, name);
        return false;
      }
      remaining := remaining - {name};
    }
    return true;
  }

  /** An empty (or undefined) header map always lets the request through. */
  lemma EmptyGatePasses(headers: map<string, string>)
    ensures !Rejects(map[], headers)
  {
  }
}
