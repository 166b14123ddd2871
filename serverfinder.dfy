/** The finder: one discovery run over the ports [PortStart, PortEnd).

    A producer dispatches one probe per port in ascending order until the
    consumer raises `stop`; every probe calls the caller's check function
    and pushes one response into a queue of capacity 100; the consumer
    receives at most PortEnd - PortStart responses in arrival order and
    returns the first one without an error, or (-1, -1, ErrNotFound).

    Which probe answers first depends on timing, so the model takes the
    order in which the probed ports' responses arrive as an input. The
    check function is a parameter of the configuration. */
module ServerFinder {
  import opened Common
  import opened ResponseChans

  /** The capacity of the response queue, independent of the range size. */
  const ResponseChanCap: nat := 100

  /** What Config.Request returns for one port: the proxy port the server
      reports and an error (None for nil). */
  datatype Reply = Reply(proxyPort: int, err: Option<Error>)

  /** Config; `request` is None when the caller left Request nil. */
  datatype Config = Config(envVar: string, portStart: int, portEnd: int, request: Option<int -> Reply>)

  /** The triple (port, proxyPort, err) that Find returns. */
  datatype FindResult = FindResult(port: int, proxyPort: int, err: Option<Error>)

  const NotFoundResult: FindResult := FindResult(-1, -1, Some(NotFound))

  /** The response a probe of `port` pushes. */
  function Probe(request: int -> Reply, port: int): Response
  {
    Response(request(port).err, port, request(port).proxyPort)
  }

  /** The responses of the probes of `order`, in that order. */
  function Outcomes(request: int -> Reply, order: seq<int>): seq<Response>
  {
    seq(|order|, i requires 0 <= i < |order| => Probe(request, order[i]))
  }

  /** The ports from `lo` up to, but excluding, `hi`, ascending. */
  function Ports(lo: int, hi: int): (ports: seq<int>)
    ensures |ports| == Max(0, hi - lo)
    ensures forall i :: 0 <= i < |ports| ==> ports[i] == lo + i
  {
    seq(Max(0, hi - lo), i => lo + i)
  }

  lemma PortsMembership(lo: int, hi: int, p: int)
    ensures p in Ports(lo, hi) <==> lo <= p < hi
  {
    if lo <= p < hi {
      assert Ports(lo, hi)[p - lo] == p;
    }
  }

  // ------------------------------------------------------------------
  // The producer

  /** The producer goroutine of findViaNetwork: ports go out in ascending
      order from `portStart` while `port < portEnd` and `stop` is unset.
      `stopAt` is the first check of the loop condition at which the
      producer sees `stop` raised (the flag is written once and never
      cleared). In a run `stopAt` is at least 1, since the consumer raises
      `stop` only after receiving the response of a dispatched probe;
      `stopAt == 0` is kept as the degenerate case. Waiting for queue
      headroom before each dispatch is timing and is not modelled here. */
  method Produce(portStart: int, portEnd: int, stopAt: nat) returns (dispatched: seq<int>)
    ensures dispatched == Ports(portStart, Min(portEnd, portStart + stopAt))
    ensures forall i, j :: 0 <= i < j < |dispatched| ==> dispatched[i] < dispatched[j]
    ensures forall i :: 0 <= i < |dispatched| ==> portStart <= dispatched[i] < portEnd
    ensures |dispatched| > 0 ==> dispatched[0] == portStart
    ensures (portEnd <= portStart || stopAt == 0) ==> dispatched == []
    ensures stopAt >= portEnd - portStart ==> dispatched == Ports(portStart, portEnd)
  {
    dispatched := [];
    var port := portStart;
    var stop := stopAt == 0;
    while port < portEnd && !stop
      invariant |dispatched| == port - portStart
      invariant forall i :: 0 <= i < |dispatched| ==> dispatched[i] == portStart + i
      invariant |dispatched| <= stopAt
      invariant stop <==> |dispatched| >= stopAt
      invariant dispatched == [] || port <= portEnd
    {
      // once the queue has room, start the probe of `port`
      dispatched := dispatched + [port];
      port := port + 1;
      // the value of `stop` at the next check of the loop condition
      stop := |dispatched| >= stopAt;
    }
    assert dispatched == Ports(portStart, Min(portEnd, portStart + stopAt));
  }

  // ------------------------------------------------------------------
  // What the consumer computes

  /** Position `k` holds a response without an error and every response
      before it has one. */
  predicate IsEarliestSuccess(outcomes: seq<Response>, k: int)
  {
    0 <= k < |outcomes| && outcomes[k].err.None? &&
    forall j :: 0 <= j < k ==> outcomes[j].err.Some?
  }

  /** The position of the earliest error-free response among the first
      `limit` ones, if any. */
  function FirstSuccess(outcomes: seq<Response>, limit: int): (k: Option<nat>)
    ensures k.Some? ==> k.value < limit && IsEarliestSuccess(outcomes, k.value)
    ensures k.None? ==> forall j :: 0 <= j < limit && j < |outcomes| ==> outcomes[j].err.Some?
    decreases |outcomes|
  {
    if limit <= 0 || outcomes == [] then None
    else if outcomes[0].err.None? then Some(0)
    else
      match FirstSuccess(outcomes[1..], limit - 1)
      case None => None
      case Some(k) => Some(k + 1)
  }

  /** The result of the consumer loop over `outcomes` received in order,
      taking at most `limit` of them. */
  function Aggregate(outcomes: seq<Response>, limit: int): (r: FindResult)
    ensures r.err.None? <==> exists k :: 0 <= k < limit && k < |outcomes| && outcomes[k].err.None?
    ensures r.err.Some? ==> r == NotFoundResult
    ensures r.err.None? ==>
              exists k :: 0 <= k < limit && IsEarliestSuccess(outcomes, k) &&
                          r.port == outcomes[k].port && r.proxyPort == outcomes[k].portOptional
  {
    match FirstSuccess(outcomes, limit)
    case Some(k) => FindResult(outcomes[k].port, outcomes[k].portOptional, None)
    case None => NotFoundResult
  }

  /** The first error-free response to arrive wins, whatever its port. */
  lemma EarliestSuccessWins(outcomes: seq<Response>, limit: int, k: int)
    requires k < limit && IsEarliestSuccess(outcomes, k)
    ensures FirstSuccess(outcomes, limit) == Some(k)
    ensures Aggregate(outcomes, limit) == FindResult(outcomes[k].port, outcomes[k].portOptional, None)
  {
  }

  // ------------------------------------------------------------------
  // The run

  class Finder {
    const portStart: int
    const portEnd: int
    /** Config.Request, the caller's check function */
    const request: int -> Reply
    var respCh: ResponseChan?

    /** newFinder: a nil configuration or a nil Request makes Config.chk
        fail, and newFinder panics. */
    constructor (cfg: Option<Config>)
      requires cfg.Some? && cfg.value.request.Some?
      ensures portStart == cfg.value.portStart && portEnd == cfg.value.portEnd
      ensures request == cfg.value.request.value
      ensures respCh == null
    {
      portStart := cfg.value.portStart;
      portEnd := cfg.value.portEnd;
      request := cfg.value.request.value;
      respCh := null;
    }

    /** close: closes the response queue, if one was ever created. */
    method Close()
      requires respCh != null ==> respCh.Valid()
      modifies respCh
      ensures respCh != null ==> respCh.Valid() && respCh.chClosed && respCh.items == old(respCh.items)
    {
      if respCh != null {
        respCh.Close();
      }
    }

    /** request: probes one port and pushes exactly one response carrying
        that port and what the check function returned; a push refused by
        a closed queue is dropped. */
    method Request(port: int)
      requires respCh != null && respCh.Valid() && respCh.WaitReturns()
      modifies respCh
      ensures respCh.Valid() && respCh.chClosed == old(respCh.chClosed)
      ensures old(respCh.chClosed) ==> respCh.items == old(respCh.items)
      ensures !old(respCh.chClosed) ==> respCh.items == old(respCh.items) + [Probe(request, port)]
    {
      var reply := request(port);
      var _ := respCh.Send(Response(reply.err, port, reply.proxyPort));
    }

    /** findViaNetwork's consumer, with the responses arriving in the
        order of `order`: the i-th receive takes the response of the probe
        of `order[i]`. `stop` is the flag the producer polls, and
        `received` counts the receives. The queue is created, with
        capacity 100, only when there is none yet. */
    method FindViaNetwork(order: seq<int>)
      returns (port: int, proxyPort: int, err: Option<Error>, stop: bool, ghost received: nat)
      requires respCh == null || (respCh.Valid() && !respCh.chClosed && respCh.items == [] && respCh.capacity > 0)
      requires |order| >= portEnd - portStart
      modifies this, respCh
      ensures respCh != null && respCh.Valid() && !respCh.chClosed
      ensures old(respCh) != null ==> respCh == old(respCh)
      ensures old(respCh) == null ==> fresh(respCh) && respCh.capacity == ResponseChanCap
      ensures FindResult(port, proxyPort, err) == Aggregate(Outcomes(request, order), portEnd - portStart)
      ensures stop <==> err.None?
      ensures err.Some? ==> received == Max(0, portEnd - portStart)
      ensures err.None? ==> FirstSuccess(Outcomes(request, order), portEnd - portStart) == Some(received - 1)
    {
      if respCh == null {
        respCh := new ResponseChan(ResponseChanCap);
      }
      var n := portEnd - portStart;
      ghost var outcomes := Outcomes(request, order);
      stop := false;
      received := 0;
      var i := 0;
      while i < n
        invariant 0 <= i <= Max(0, n) && received == i && !stop
        invariant respCh != null && respCh.Valid() && !respCh.chClosed && respCh.items == [] && respCh.capacity > 0
        invariant old(respCh) != null ==> respCh == old(respCh)
        invariant old(respCh) == null ==> fresh(respCh) && respCh.capacity == ResponseChanCap
        invariant forall j :: 0 <= j < i ==> outcomes[j].err.Some?
      {
        Request(order[i]);
        var resp := respCh.Rcv();
        received := received + 1;
        stop := resp.value.err.None?;
        if stop {
          EarliestSuccessWins(outcomes, n, i);
          return resp.value.port, resp.value.portOptional, None, stop, received;
        }
        i := i + 1;
      }
      return -1, -1, Some(NotFound), stop, received;
    }
  }

  /** Find: builds a finder, runs one discovery over the configured range
      with the responses arriving in the order of `order`, and closes the
      finder's queue before returning. */
  method Find(cfg: Option<Config>, order: seq<int>)
    returns (port: int, proxyPort: int, err: Option<Error>, ghost queue: ResponseChan?)
    requires cfg.Some? && cfg.value.request.Some?
    requires |order| >= cfg.value.portEnd - cfg.value.portStart
    ensures FindResult(port, proxyPort, err) ==
            Aggregate(Outcomes(cfg.value.request.value, order), cfg.value.portEnd - cfg.value.portStart)
    ensures queue != null && fresh(queue) && queue.capacity == ResponseChanCap
    ensures queue.Valid() && queue.chClosed
  {
    var finder := new Finder(cfg);
    var stop;
    ghost var received;
    port, proxyPort, err, stop, received := finder.FindViaNetwork(order);
    finder.Close();
    queue := finder.respCh;
  }

  // ------------------------------------------------------------------
  // What a run finds when every dispatched probe answers

  /** When the responses that arrive are those of exactly the ports of the
      range, each once, in any order: the run succeeds exactly when some
      port of the range answers without an error, and then it returns a
      port of the range that did, with that port's proxy port. */
  lemma {:induction false} FindSucceedsIffSomePortAnswers(request: int -> Reply, portStart: int, portEnd: int, order: seq<int>)
    requires multiset(order) == multiset(Ports(portStart, portEnd))
    ensures var r := Aggregate(Outcomes(request, order), portEnd - portStart);
            (r.err.None? <==> exists p :: portStart <= p < portEnd && request(p).err.None?) &&
            (r.err.None? ==> portStart <= r.port < portEnd && request(r.port).err.None? &&
                             r.proxyPort == request(r.port).proxyPort) &&
            (r.err.Some? ==> r == NotFoundResult)
  {
    var n := portEnd - portStart;
    var outcomes := Outcomes(request, order);
    var r := Aggregate(outcomes, n);
    assert |order| == |Ports(portStart, portEnd)| == Max(0, n) by {
      assert |multiset(order)| == |multiset(Ports(portStart, portEnd))|;
    }
    if p :| portStart <= p < portEnd && request(p).err.None? {
      PortsMembership(portStart, portEnd, p);
      assert p in multiset(order);
      var j :| 0 <= j < |order| && order[j] == p;
      assert outcomes[j].err.None?;
    }
    if r.err.None? {
      var k :| 0 <= k < n && IsEarliestSuccess(outcomes, k) &&
               r.port == outcomes[k].port && r.proxyPort == outcomes[k].portOptional;
      assert order[k] in multiset(Ports(portStart, portEnd));
      PortsMembership(portStart, portEnd, order[k]);
    }
  }

  /** Only port `p` answers: the run returns `p` and its proxy port,
      whatever the arrival order. */
  lemma SoleResponderFound(request: int -> Reply, portStart: int, portEnd: int, order: seq<int>, p: int)
    requires multiset(order) == multiset(Ports(portStart, portEnd))
    requires portStart <= p < portEnd && request(p).err.None?
    requires forall q :: q != p ==> request(q).err.Some?
    ensures Aggregate(Outcomes(request, order), portEnd - portStart) ==
            FindResult(p, request(p).proxyPort, None)
  {
    FindSucceedsIffSomePortAnswers(request, portStart, portEnd, order);
  }

  /** No port answers: the run reports ErrNotFound. */
  lemma NoResponderNotFound(request: int -> Reply, portStart: int, portEnd: int, order: seq<int>)
    requires multiset(order) == multiset(Ports(portStart, portEnd))
    requires forall q :: portStart <= q < portEnd ==> request(q).err.Some?
    ensures Aggregate(Outcomes(request, order), portEnd - portStart) == NotFoundResult
  {
    FindSucceedsIffSomePortAnswers(request, portStart, portEnd, order);
  }

  /** Two ports of [9001, 9003) answer and 9002's response arrives first:
      9002 wins, not the lower port. */
  lemma FirstToRespondWins(request: int -> Reply)
    requires request(9001).err.None? && request(9002).err.None?
    ensures Aggregate(Outcomes(request, [9002, 9001]), 9003 - 9001) ==
            FindResult(9002, request(9002).proxyPort, None)
  {
    EarliestSuccessWins(Outcomes(request, [9002, 9001]), 2, 0);
  }
}
