/**
 * A node-data consumer that combines several consumers: it needs data when any of them
 * does, asks the first one (in array order) that needs data for its request, and hands
 * every response to all of them.
 */
module CompositeDataConsumer {
  import opened Wrappers

  type Keccak = seq<bv8>

  /** One node-data response: the requested hashes and the data returned for them. */
  datatype Response = Response(hashes: seq<Keccak>, data: seq<seq<bv8>>)

  datatype Error = InvalidOperation(message: string)

  /**
   * A consumer as the composite sees it: whether it needs data, the request it would
   * make, and the responses it has been handed.  What a consumer does with a response is
   * its own code, not part of this model; here it only records the delivery.
   */
  class NodeDataConsumer {
    var needsData: bool
    var request: seq<Keccak>
    var received: seq<Response>

    constructor (needsData: bool, request: seq<Keccak>)
      ensures this.needsData == needsData && this.request == request && received == []
    {
      this.needsData := needsData;
      this.request := request;
      received := [];
    }

    method PrepareRequest() returns (r: seq<Keccak>)
      ensures r == request
    {
      r := request;
    }

    method HandleResponse(response: Response)
      modifies this
      ensures received == old(received) + [response]
    {
      received := received + [response];
    }
  }

  /** Some consumer of `cs` needs data (the source's `Any`). */
  function AnyNeedsData(cs: seq<NodeDataConsumer>): (b: bool)
    reads cs
    ensures b <==> exists i :: 0 <= i < |cs| && cs[i].needsData
  {
    if cs == [] then false
    else cs[0].needsData || (assert forall i :: 0 <= i < |cs| - 1 ==> cs[1..][i] == cs[i + 1]; AnyNeedsData(cs[1..]))
  }

  /** How many times `c` occurs in `cs`: a consumer listed twice is handed a response twice. */
  function Occurrences(cs: seq<NodeDataConsumer>, c: NodeDataConsumer): nat {
    if cs == [] then 0
    else Occurrences(cs[..|cs| - 1], c) + (if cs[|cs| - 1] == c then 1 else 0)
  }

  lemma {:induction false} OccurrencesPositive(cs: seq<NodeDataConsumer>, c: NodeDataConsumer)
    ensures c in cs <==> Occurrences(cs, c) > 0
  {
    if cs != [] {
      var init := cs[..|cs| - 1];
      OccurrencesPositive(init, c);
      assert cs == init + [cs[|cs| - 1]];
    }
  }

  function Repeat(r: Response, n: nat): (s: seq<Response>)
    ensures |s| == n && forall i :: 0 <= i < n ==> s[i] == r
  {
    seq(n, _ => r)
  }

  class CompositeDataConsumer {
    const consumers: seq<NodeDataConsumer>
    /** Every delivery made by HandleResponse, in the order made. */
    ghost var deliveries: seq<(NodeDataConsumer, Response)>

    constructor (consumers: seq<NodeDataConsumer>)
      ensures this.consumers == consumers && deliveries == []
    {
      this.consumers := consumers;
      deliveries := [];
    }

    /** NeedsData: at least one consumer needs data. */
    function NeedsData(): (b: bool)
      reads this, consumers
      ensures b <==> exists i :: 0 <= i < |consumers| && consumers[i].needsData
    {
      AnyNeedsData(consumers)
    }

    /** PrepareRequest: the request of the first consumer that needs data; consumers after it
        are not asked.  Fails with InvalidOperation exactly when no consumer needs data. */
    method PrepareRequest() returns (r: Result<seq<Keccak>, Error>)
      ensures r.Failure? <==> !NeedsData()
      ensures r.Failure? ==> r.error == InvalidOperation("No data needed")
      ensures r.Success? ==>
                exists i :: 0 <= i < |consumers| && consumers[i].needsData
                            && (forall j :: 0 <= j < i ==> !consumers[j].needsData)
                            && r.value == consumers[i].request
    {
      for i := 0 to |consumers|
        invariant forall j :: 0 <= j < i ==> !consumers[j].needsData
      {
        if consumers[i].needsData {
          var request := consumers[i].PrepareRequest();
          return Success(request);
        }
      }
      return Failure(InvalidOperation("No data needed"));
    }

    /** HandleResponse: the same hashes and data go to every consumer, in array order. */
    method HandleResponse(hashes: seq<Keccak>, data: seq<seq<bv8>>)
      modifies this, consumers
      ensures deliveries == old(deliveries) + seq(|consumers|, i requires 0 <= i < |consumers| => (consumers[i], Response(hashes, data)))
      ensures forall c :: c in consumers ==>
                c.received == old(c.received) + Repeat(Response(hashes, data), Occurrences(consumers, c))
    {
      var response := Response(hashes, data);
      for i := 0 to |consumers|
        invariant deliveries == old(deliveries) + seq(i, k requires 0 <= k < i => (consumers[k], response))
        invariant forall c :: c in consumers ==>
                    c.received == old(c.received) + Repeat(response, Occurrences(consumers[..i], c))
      {
        var consumer := consumers[i];
        consumer.HandleResponse(response);
        deliveries := deliveries + [(consumer, response)];
        assert consumers[..i + 1][..i] == consumers[..i];
        forall c | c in consumers
          ensures c.received == old(c.received) + Repeat(response, Occurrences(consumers[..i + 1], c))
        {
          if c == consumer {
            assert Repeat(response, Occurrences(consumers[..i], c) + 1)
                == Repeat(response, Occurrences(consumers[..i], c)) + [response];
          }
        }
      }
      assert consumers[..|consumers|] == consumers;
    }
  }
}
