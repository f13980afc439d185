/**
 * The HTTP exporter's per-request decision. The exporter holds the map from
 * domain value to that domain's FIFO queue of readings; a request for a
 * domain answers 404 (unknown domain), 204 (known, queue empty) or 200 with
 * the head reading, which it removes from the queue.
 */
module DataExporter {
  import opened Wrappers
  import opened Python
  import opened Types
  import AsyncTask

  /** The per-domain queues, keyed by domain value; each queue lists its oldest reading first. */
  type Queues = map<string, seq<Reading>>

  const StatusOk := 200
  const StatusNoContent := 204
  const StatusNotFound := 404

  /** The domain assumed when the route carries no `power_domain` parameter. */
  const MissingDomain := "?"

  datatype Body =
    | Text(text: string)
    | Json(time: Timestamp, current: int, voltage: int, power: int)

  datatype Response = Response(status: int, body: Body)

  function NotFoundResponse(domain: string): Response {
    Response(StatusNotFound, Text("Power domain '" + domain + "' not found."))
  }

  function NoContentResponse(domain: string): Response {
    Response(StatusNoContent, Text("No new data available for power domain '" + domain + "'."))
  }

  /** The JSON body of a 200: the reading's four fields. */
  function ReadingResponse(r: Reading): Response {
    Response(StatusOk, Json(r.time, r.current, r.voltage, r.power))
  }

  /**
   * `DataExporter(*args, queues=..., **kwargs)`: `queues` is keyword-only and
   * required, and the remaining arguments go to the task base class.
   */
  function BindInit(positional: nat, queues: Option<Queues>, configKeyword: bool): (r: Result<Queues, PyError>)
    ensures r.Success? <==> queues.Some? && AsyncTask.BindConfig(positional, configKeyword, false).Pass?
    ensures r.Success? ==> r.value == queues.value
    ensures r.Failure? ==> r.error == TypeError
  {
    if queues.None? then Failure(TypeError)
    else match AsyncTask.BindConfig(positional, configKeyword, false)
      case Pass => Success(queues.value)
      case Fail(e) => Failure(e)
  }

  /** `queue.get_nowait()` with `QueueEmpty` caught: the head and the rest, or nothing. */
  function TakeHead(q: seq<Reading>): (r: (Option<Reading>, seq<Reading>))
    ensures q == [] <==> r.0.None?
    ensures r.0.None? ==> r.1 == q
    ensures r.0.Some? ==> q == [r.0.value] + r.1
  {
    if q == [] then (None, q) else (Some(q[0]), q[1..])
  }

  /** `_read_electrical_data(domain)` on the queues: its result and the queues afterwards. */
  function ReadElectricalData(queues: Queues, domain: string): (r: (Result<Option<Reading>, PyError>, Queues))
  {
    if domain !in queues then (Failure(KeyError), queues)
    else
      var (data, rest) := TakeHead(queues[domain]);
      (Success(data), queues[domain := rest])
  }

  /** `electrical_handler(request)`, the request given by its route parameters. */
  function Serve(queues: Queues, matchInfo: map<string, string>): (r: (Response, Queues))
    ensures r.1.Keys == queues.Keys
  {
    var domain := Get(matchInfo, "power_domain", MissingDomain);
    if domain !in queues then (NotFoundResponse(domain), queues)
    else
      var (data, rest) := TakeHead(queues[domain]);
      match data
      case None => (NoContentResponse(domain), queues[domain := rest])
      case Some(r) => (ReadingResponse(r), queues[domain := rest])
  }

  /** The producer side: `queue.put_nowait(r)` on an unbounded queue appends at the tail. */
  function Enqueue(queues: Queues, domain: string, r: Reading): (q: Queues)
    requires domain in queues
    ensures q.Keys == queues.Keys && q[domain] == queues[domain] + [r]
    ensures forall d :: d in queues && d != domain ==> q[d] == queues[d]
  {
    queues[domain := queues[domain] + [r]]
  }

  class Exporter {
    var queues: Queues
    const ip: string
    const port: int

    constructor (queues: Queues)
      ensures this.queues == queues && ip == "localhost" && port == 8080
    {
      this.queues := queues;
      ip := "localhost";
      port := 8080;
    }

    method ReadData(domain: string) returns (data: Result<Option<Reading>, PyError>)
      modifies this
      ensures domain !in old(queues) ==> data == Failure(KeyError) && queues == old(queues)
      ensures domain in old(queues) && old(queues)[domain] == [] ==> data == Success(None) && queues == old(queues)
      ensures domain in old(queues) && old(queues)[domain] != [] ==>
        data == Success(Some(old(queues)[domain][0])) && queues == old(queues)[domain := old(queues)[domain][1..]]
      ensures (data, queues) == ReadElectricalData(old(queues), domain)
    {
      if domain !in queues {
        data := Failure(KeyError);
      } else {
        var q := queues[domain];
        if q == [] {
          data := Success(None);
          assert queues[domain := q] == queues;
        } else {
          data := Success(Some(q[0]));
          queues := queues[domain := q[1..]];
        }
      }
    }

    method ElectricalHandler(matchInfo: map<string, string>) returns (response: Response)
      modifies this
      ensures (response, queues) == Serve(old(queues), matchInfo)
      ensures response.status in {StatusOk, StatusNoContent, StatusNotFound}
      ensures queues.Keys == old(queues).Keys
    {
      var domain := if "power_domain" in matchInfo then matchInfo["power_domain"] else MissingDomain;
      if domain !in queues {
        response := NotFoundResponse(domain);
      } else {
        var data := ReadData(domain);
        if data == Success(None) {
          response := NoContentResponse(domain);
        } else {
          var r := data.value.value;
          response := ReadingResponse(r);
        }
      }
    }

    method Put(domain: string, r: Reading)
      requires domain in queues
      modifies this
      ensures queues == Enqueue(old(queues), domain, r)
    {
      queues := queues[domain := queues[domain] + [r]];
    }
  }

  // -----------------------------------------------------------------------
  // Properties of one request

  /** The answer is 404, 204 or 200 according to the domain and its queue, and a 200 carries the head reading. */
  lemma ServeAnswers(queues: Queues, matchInfo: map<string, string>)
    ensures var domain := Get(matchInfo, "power_domain", MissingDomain);
      var (resp, after) := Serve(queues, matchInfo);
      && (resp.status == StatusNotFound <==> domain !in queues)
      && (resp.status == StatusNoContent <==> domain in queues && queues[domain] == [])
      && (resp.status == StatusOk <==> domain in queues && queues[domain] != [])
      && (resp.status == StatusOk ==> resp == ReadingResponse(queues[domain][0]))
  {
  }

  /** A 404 or a 204 leaves every queue as it was. */
  lemma ServeWithoutDataChangesNothing(queues: Queues, matchInfo: map<string, string>)
    ensures Serve(queues, matchInfo).0.status != StatusOk ==> Serve(queues, matchInfo).1 == queues
  {
    var domain := Get(matchInfo, "power_domain", MissingDomain);
    if domain in queues && queues[domain] == [] {
      assert queues[domain := []] == queues;
    }
  }

  /** A 200 removes exactly the head of the requested queue and no other reading anywhere. */
  lemma ServeRemovesOnlyTheHead(queues: Queues, matchInfo: map<string, string>)
    ensures var domain := Get(matchInfo, "power_domain", MissingDomain);
      var (resp, after) := Serve(queues, matchInfo);
      && after.Keys == queues.Keys
      && (forall d :: d in queues && d != domain ==> after[d] == queues[d])
      && (resp.status == StatusOk ==> [queues[domain][0]] + after[domain] == queues[domain])
  {
  }

  /** A request without a `power_domain` parameter asks for domain "?". */
  lemma ServeWithoutParameter(queues: Queues)
    ensures Serve(queues, map[]) == Serve(queues, map["power_domain" := MissingDomain])
    ensures MissingDomain !in queues ==> Serve(queues, map[]).0 == NotFoundResponse(MissingDomain)
  {
  }

  // -----------------------------------------------------------------------
  // Several requests: drain and FIFO order

  /** The answers to `k` successive requests for the same route, and the queues afterwards. */
  function ServeRepeatedly(queues: Queues, matchInfo: map<string, string>, k: nat): (r: (Queues, seq<Response>))
    ensures r.0.Keys == queues.Keys && |r.1| == k
    decreases k
  {
    if k == 0 then (queues, [])
    else
      var (resp, after) := Serve(queues, matchInfo);
      var (final, rest) := ServeRepeatedly(after, matchInfo, k - 1);
      (final, [resp] + rest)
  }

  /** Appending readings one by one, as the producer would. */
  function EnqueueAll(queues: Queues, domain: string, rs: seq<Reading>): Queues
    requires domain in queues
    decreases |rs|
  {
    if rs == [] then queues else EnqueueAll(Enqueue(queues, domain, rs[0]), domain, rs[1..])
  }

  lemma {:induction false} EnqueueAllAppends(queues: Queues, domain: string, rs: seq<Reading>)
    requires domain in queues
    ensures EnqueueAll(queues, domain, rs).Keys == queues.Keys
    ensures EnqueueAll(queues, domain, rs)[domain] == queues[domain] + rs
    ensures forall d :: d in queues && d != domain ==> EnqueueAll(queues, domain, rs)[d] == queues[d]
    decreases |rs|
  {
    if rs != [] {
      var next := Enqueue(queues, domain, rs[0]);
      EnqueueAllAppends(next, domain, rs[1..]);
      assert queues[domain] + [rs[0]] + rs[1..] == queues[domain] + rs;
    }
  }

  /**
   * With `k` readings queued for a domain, `k` successive requests answer 200
   * with those readings oldest first, leave the rest of that queue in place
   * and touch no other queue.
   */
  lemma {:induction false} ServeInFifoOrder(queues: Queues, domain: string, k: nat)
    requires domain in queues && k <= |queues[domain]|
    ensures var (final, resps) := ServeRepeatedly(queues, map["power_domain" := domain], k);
      && |resps| == k
      && (forall i :: 0 <= i < k ==> resps[i] == ReadingResponse(queues[domain][i]))
      && final == queues[domain := queues[domain][k..]]
    decreases k
  {
    var route := map["power_domain" := domain];
    if k == 0 {
      assert queues[domain := queues[domain][0..]] == queues;
    } else {
      var (resp, after) := Serve(queues, route);
      assert resp == ReadingResponse(queues[domain][0]);
      assert after == queues[domain := queues[domain][1..]];
      ServeInFifoOrder(after, domain, k - 1);
      assert after[domain][k - 1..] == queues[domain][k..];
      assert after[domain := after[domain][k - 1..]] == queues[domain := queues[domain][k..]];
    }
  }

  /** Drain, not peek: once every queued reading has been served, the next request answers 204. */
  lemma DrainThenNoContent(queues: Queues, domain: string)
    requires domain in queues
    ensures var (final, resps) := ServeRepeatedly(queues, map["power_domain" := domain], |queues[domain]| + 1);
      && resps[|queues[domain]|] == NoContentResponse(domain)
      && final[domain] == []
  {
    var route := map["power_domain" := domain];
    var n := |queues[domain]|;
    ServeInFifoOrder(queues, domain, n);
    ServeRepeatedlySplit(queues, route, n, 1);
  }

  lemma {:induction false} ServeRepeatedlySplit(queues: Queues, matchInfo: map<string, string>, j: nat, k: nat)
    ensures var (mid, first) := ServeRepeatedly(queues, matchInfo, j);
      var (final, second) := ServeRepeatedly(mid, matchInfo, k);
      ServeRepeatedly(queues, matchInfo, j + k) == (final, first + second)
    decreases j
  {
    if j > 0 {
      var (resp, after) := Serve(queues, matchInfo);
      ServeRepeatedlySplit(after, matchInfo, j - 1, k);
      var (mid, first) := ServeRepeatedly(after, matchInfo, j - 1);
      var (final, second) := ServeRepeatedly(mid, matchInfo, k);
      assert ServeRepeatedly(after, matchInfo, j - 1 + k) == (final, first + second);
      assert ServeRepeatedly(queues, matchInfo, j) == (mid, [resp] + first);
      assert ServeRepeatedly(queues, matchInfo, j + k) == (final, [resp] + (first + second));
      assert [resp] + (first + second) == ([resp] + first) + second;
    } else {
      var (final, second) := ServeRepeatedly(queues, matchInfo, k);
      assert [] + second == second;
    }
  }

  /**
   * The producer/consumer round trip: readings put on an empty queue come back
   * from successive requests exactly once each, in the order they were put.
   */
  lemma PutThenServe(queues: Queues, domain: string, rs: seq<Reading>)
    requires domain in queues && queues[domain] == []
    ensures var (final, resps) := ServeRepeatedly(EnqueueAll(queues, domain, rs), map["power_domain" := domain], |rs|);
      && (forall i :: 0 <= i < |rs| ==> resps[i] == ReadingResponse(rs[i]))
      && final[domain] == []
  {
    EnqueueAllAppends(queues, domain, rs);
    ServeInFifoOrder(EnqueueAll(queues, domain, rs), domain, |rs|);
  }
}
