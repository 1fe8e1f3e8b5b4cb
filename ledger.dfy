/**
 * The delivery ledger as a value: one set of payloads per route, with the
 * state transitions of the fixture's handlers as functions on it, and the
 * request and response records those handlers exchange with the sidecar.
 */
module Ledger {
  import opened Wrappers
  import opened Routes
  import opened StringSet

  /** The six route sets `routedMessagesA` .. `routedMessagesF`. */
  datatype Ledger = Ledger(a: set<Bytes>, b: set<Bytes>, c: set<Bytes>,
                           d: set<Bytes>, e: set<Bytes>, f: set<Bytes>)
  {
    function Get(r: Route): set<Bytes>
    {
      match r
      case A => a
      case B => b
      case C => c
      case D => d
      case E => e
      case F => f
    }

    /** `set.Insert(msg)` on the set of route `r`; the other routes keep theirs. */
    function Insert(r: Route, msg: Bytes): (l: Ledger)
      ensures l.Get(r) == Get(r) + {msg}
      ensures forall q :: q != r ==> l.Get(q) == Get(q)
    {
      match r
      case A => this.(a := a + {msg})
      case B => this.(b := b + {msg})
      case C => this.(c := c + {msg})
      case D => this.(d := d + {msg})
      case E => this.(e := e + {msg})
      case F => this.(f := f + {msg})
    }
  }

  /** A ledger is determined by its six route sets. */
  lemma LedgerEquality(l1: Ledger, l2: Ledger)
    requires forall r :: l1.Get(r) == l2.Get(r)
    ensures l1 == l2
  {
    assert l1.Get(A) == l2.Get(A) && l1.Get(B) == l2.Get(B) && l1.Get(C) == l2.Get(C);
    assert l1.Get(D) == l2.Get(D) && l1.Get(E) == l2.Get(E) && l1.Get(F) == l2.Get(F);
  }

  /** What `initializeSets` leaves: every route set empty. */
  function Empty(): (l: Ledger)
    ensures forall r :: l.Get(r) == {}
  {
    Ledger({}, {}, {}, {}, {}, {})
  }

  /** The disposition `OnTopicEvent` reports to the broker. */
  datatype Status = Success | Drop

  /** The fields of a topic event the handler looks at. */
  datatype TopicEventRequest = TopicEventRequest(topic: string, path: string, data: Bytes)

  datatype TopicEventResponse = TopicEventResponse(status: Status)

  /**
   * `OnTopicEvent` as a transition: a known path inserts the payload into
   * that route's set and answers SUCCESS; any other path answers DROP and
   * leaves every set as it was.
   */
  function Dispatch(l: Ledger, path: string, msg: Bytes): (res: (Ledger, Status))
    ensures res.1 == Success <==> PathToRoute(path).Some?
    ensures forall r :: res.0.Get(r) ==
              if PathToRoute(path) == Some(r) then l.Get(r) + {msg} else l.Get(r)
  {
    match PathToRoute(path)
    case Some(r) => (l.Insert(r, msg), Success)
    case None => (l, Drop)
  }

  /** The method names `OnInvoke` distinguishes. */
  datatype Command = GetMessages | Initialize | Unsupported(name: string)

  /** The `switch in.Method` of `OnInvoke`, with its fall-through as a case of its own. */
  function ParseCommand(name: string): (c: Command)
    ensures c == GetMessages <==> name == "getMessages"
    ensures c == Initialize <==> name == "initialize"
    ensures c.Unsupported? ==> c.name == name
  {
    if name == "getMessages" then GetMessages
    else if name == "initialize" then Initialize
    else Unsupported(name)
  }

  /** `routedMessagesResponse`: one listing per route. */
  datatype Report = Report(routeA: seq<Bytes>, routeB: seq<Bytes>, routeC: seq<Bytes>,
                           routeD: seq<Bytes>, routeE: seq<Bytes>, routeF: seq<Bytes>)
  {
    function Field(r: Route): seq<Bytes>
    {
      match r
      case A => routeA
      case B => routeB
      case C => routeC
      case D => routeD
      case E => routeE
      case F => routeF
    }
  }

  /** Each field of `rep` is the `List()` of the same route's set in `l`. */
  predicate Mirrors(rep: Report, l: Ledger)
  {
    forall r :: IsListOf(rep.Field(r), l.Get(r))
  }

  /** The invoke request; only the method name affects what the handler does. */
  datatype InvokeRequest = InvokeRequest(methodName: string)

  /** The response data: an empty `Any`, or one whose value is the report. */
  datatype Body = NoValue | Messages(report: Report)

  datatype InvokeResponse = InvokeResponse(data: Body, contentType: string)

  const ContentTypeJson: string := "application/json"
}
