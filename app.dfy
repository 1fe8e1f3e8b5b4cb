/**
 * The gRPC callback server of the routing fixture. The package-level route
 * sets become the fields of `Server`; each handler runs under the single
 * mutex in the source, so each method here is one atomic step.
 */
module App {
  import opened Routes
  import opened StringSet
  import opened Ledger

  class Server {
    var routedA: set<Bytes>
    var routedB: set<Bytes>
    var routedC: set<Bytes>
    var routedD: set<Bytes>
    var routedE: set<Bytes>
    var routedF: set<Bytes>

    /** The ledger the six fields hold. */
    function State(): Ledger
      reads this
    {
      Ledger(routedA, routedB, routedC, routedD, routedE, routedF)
    }

    /** Start-up: `main` runs `initializeSets` before it serves any call. */
    constructor ()
      ensures State() == Empty()
    {
      routedA, routedB, routedC := {}, {}, {};
      routedD, routedE, routedF := {}, {}, {};
    }

    /** `initializeSets`: every route set is replaced by an empty one. */
    method InitializeSets()
      modifies this
      ensures State() == Empty()
    {
      routedA := {};
      routedB := {};
      routedC := {};
      routedD := {};
      routedE := {};
      routedF := {};
    }

    /** `getMessages`: each report field lists its route's set, sorted, each payload once. */
    method GetMessages() returns (rep: Report)
      ensures Mirrors(rep, State())
    {
      var la := List(routedA);
      var lb := List(routedB);
      var lc := List(routedC);
      var ld := List(routedD);
      var le := List(routedE);
      var lf := List(routedF);
      rep := Report(la, lb, lc, ld, le, lf);
    }

    /**
     * `OnInvoke`: "getMessages" answers the report and changes nothing;
     * "initialize" empties every set and answers an empty body; any other
     * name changes nothing and also answers an empty body, not an error.
     * The content type is `application/json` in every case.
     */
    method OnInvoke(req: InvokeRequest) returns (resp: InvokeResponse)
      modifies this
      ensures resp.contentType == ContentTypeJson
      ensures match ParseCommand(req.methodName)
              case GetMessages =>
                resp.data.Messages? && Mirrors(resp.data.report, State()) && State() == old(State())
              case Initialize =>
                resp.data == NoValue && State() == Empty()
              case Unsupported(_) =>
                resp.data == NoValue && State() == old(State())
    {
      var body := NoValue;
      match ParseCommand(req.methodName) {
        case GetMessages =>
          var rep := GetMessages();
          body := Messages(rep);
        case Initialize =>
          InitializeSets();
        case Unsupported(_) =>
      }
      resp := InvokeResponse(body, ContentTypeJson);
    }

    /**
     * `OnTopicEvent`: the path the broker asserts selects one route set, the
     * payload is inserted into it and SUCCESS is answered; an unknown path is
     * answered with DROP and nothing changes.
     */
    method OnTopicEvent(req: TopicEventRequest) returns (resp: TopicEventResponse)
      modifies this
      ensures (State(), resp.status) == Dispatch(old(State()), req.path, req.data)
    {
      var route := PathToRoute(req.path);
      if route.None? {
        return TopicEventResponse(Drop);
      }
      var msg := req.data;
      match route.value {
        case A => routedA := routedA + {msg};
        case B => routedB := routedB + {msg};
        case C => routedC := routedC + {msg};
        case D => routedD := routedD + {msg};
        case E => routedE := routedE + {msg};
        case F => routedF := routedF + {msg};
      }
      resp := TopicEventResponse(Success);
    }
  }
}
