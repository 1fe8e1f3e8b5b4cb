/**
 * Properties of the delivery ledger that relate several handler calls:
 * deduplication per route, DROP leaving the ledger alone, reset, the report
 * mirroring the ledger, and no lost updates when deliveries are serialised
 * by the lock.
 */
module Properties {
  import opened Wrappers
  import opened Routes
  import opened StringSet
  import opened Ledger

  /** A delivery on one of the six paths is accepted into exactly that route's set. */
  lemma DeliverKnownPath(l: Ledger, r: Route, msg: Bytes)
    ensures Dispatch(l, PathOf(r), msg) == (l.Insert(r, msg), Success)
  {
  }

  /** A delivery on any other path is dropped and changes nothing. */
  lemma DeliverUnknownPath(l: Ledger, path: string, msg: Bytes)
    requires forall r :: path != PathOf(r)
    ensures Dispatch(l, path, msg) == (l, Drop)
  {
  }

  /** Redelivering a payload on the same path leaves the ledger and the answer as the first delivery did. */
  lemma DeliverIdempotent(l: Ledger, path: string, msg: Bytes)
    ensures Dispatch(Dispatch(l, path, msg).0, path, msg) == Dispatch(l, path, msg)
  {
  }

  /**
   * Deduplication is per route: the same payload delivered on two different
   * routes is recorded in both sets, each gaining it independently.
   */
  lemma DedupPerRoute(l: Ledger, r1: Route, r2: Route, msg: Bytes)
    requires r1 != r2
    ensures var l2 := Dispatch(Dispatch(l, PathOf(r1), msg).0, PathOf(r2), msg).0;
            l2.Get(r1) == l.Get(r1) + {msg} && l2.Get(r2) == l.Get(r2) + {msg}
            && forall q :: q != r1 && q != r2 ==> l2.Get(q) == l.Get(q)
  {
  }

  /** One topic event as the lock lets it through: the path the broker asserts and the payload. */
  type Delivery = (string, Bytes)

  /** The ledger after the deliveries `ds` went through, one at a time in this order. */
  function DeliverAll(l: Ledger, ds: seq<Delivery>): Ledger
    decreases |ds|
  {
    if ds == [] then l else DeliverAll(Dispatch(l, ds[0].0, ds[0].1).0, ds[1..])
  }

  /** The payloads among `ds` delivered on the path of route `r`. */
  function Delivered(ds: seq<Delivery>, r: Route): set<Bytes>
  {
    set d | d in ds && PathToRoute(d.0) == Some(r) :: d.1
  }

  /**
   * A run of deliveries, on any mix of paths, adds to each route exactly the
   * payloads delivered on that route's path; deliveries on unknown paths add
   * nothing anywhere.
   */
  lemma {:induction false} DeliverAllContents(l: Ledger, ds: seq<Delivery>)
    ensures forall r :: DeliverAll(l, ds).Get(r) == l.Get(r) + Delivered(ds, r)
    decreases |ds|
  {
    if ds != [] {
      DeliverAllContents(Dispatch(l, ds[0].0, ds[0].1).0, ds[1..]);
      forall r
        ensures Delivered(ds, r) ==
                (if PathToRoute(ds[0].0) == Some(r) then {ds[0].1} else {}) + Delivered(ds[1..], r)
      {
        assert ds == [ds[0]] + ds[1..];
      }
    }
  }

  /**
   * The order in which the lock lets deliveries through does not matter:
   * any two runs of the same deliveries, on the same or different routes,
   * give the same ledger.
   */
  lemma DeliveryOrderIrrelevant(l: Ledger, ds1: seq<Delivery>, ds2: seq<Delivery>)
    requires forall d :: d in ds1 <==> d in ds2
    ensures DeliverAll(l, ds1) == DeliverAll(l, ds2)
  {
    DeliverAllContents(l, ds1);
    DeliverAllContents(l, ds2);
    forall r ensures Delivered(ds1, r) == Delivered(ds2, r) {
    }
    LedgerEquality(DeliverAll(l, ds1), DeliverAll(l, ds2));
  }

  /** The deliveries of `msgs`, in this order, all on `path`. */
  function OnPath(path: string, msgs: seq<Bytes>): seq<Delivery>
  {
    seq(|msgs|, i requires 0 <= i < |msgs| => (path, msgs[i]))
  }

  /** Deliveries all on one path contribute their payloads to that path's route only. */
  lemma OnPathDelivered(path: string, msgs: seq<Bytes>, r: Route)
    ensures Delivered(OnPath(path, msgs), r) ==
            if PathToRoute(path) == Some(r) then (set m | m in msgs) else {}
  {
    var ds := OnPath(path, msgs);
    if PathToRoute(path) == Some(r) {
      forall m | m in msgs
        ensures m in Delivered(ds, r)
      {
        var i :| 0 <= i < |msgs| && msgs[i] == m;
        assert ds[i] == (path, m);
      }
    }
  }

  /** A sequence of pairwise distinct payloads has as many members as elements. */
  lemma {:induction false} DistinctCardinality(msgs: seq<Bytes>)
    requires forall i, j :: 0 <= i < j < |msgs| ==> msgs[i] != msgs[j]
    ensures |set m | m in msgs| == |msgs|
    decreases |msgs|
  {
    if msgs != [] {
      DistinctCardinality(msgs[1..]);
      assert (set m | m in msgs) == {msgs[0]} + (set m | m in msgs[1..]) by {
        assert msgs == [msgs[0]] + msgs[1..];
      }
    }
  }

  /** The report holds each recorded payload of a route exactly once, and nothing else. */
  lemma ReportMirrorsLedger(rep: Report, l: Ledger, r: Route)
    requires Mirrors(rep, l)
    ensures |rep.Field(r)| == |l.Get(r)|
    ensures forall i, j :: 0 <= i < j < |rep.Field(r)| ==> rep.Field(r)[i] != rep.Field(r)[j]
    ensures forall m :: m in rep.Field(r) <==> m in l.Get(r)
  {
    ListCardinality(rep.Field(r), l.Get(r));
  }

  /** A ledger has exactly one report: `getMessages` answers deterministically. */
  lemma ReportDeterministic(rep1: Report, rep2: Report, l: Ledger)
    requires Mirrors(rep1, l) && Mirrors(rep2, l)
    ensures rep1 == rep2
  {
    forall r ensures rep1.Field(r) == rep2.Field(r) {
      ListUnique(rep1.Field(r), rep2.Field(r), l.Get(r));
    }
    assert rep1.Field(A) == rep2.Field(A) && rep1.Field(B) == rep2.Field(B) && rep1.Field(C) == rep2.Field(C);
    assert rep1.Field(D) == rep2.Field(D) && rep1.Field(E) == rep2.Field(E) && rep1.Field(F) == rep2.Field(F);
  }

  /** After `initialize`, whatever came before, the report lists nothing on any route. */
  lemma ReportAfterReset(rep: Report)
    requires Mirrors(rep, Empty())
    ensures rep == Report([], [], [], [], [], [])
  {
    ReportDeterministic(rep, Report([], [], [], [], [], []), Empty());
  }

  /** A singleton set is listed as the one-element sequence. */
  lemma SingletonList(l: seq<Bytes>, msg: Bytes)
    requires IsListOf(l, {msg})
    ensures l == [msg]
  {
    ListUnique(l, [msg], {msg});
  }

  /**
   * Delivering one payload N >= 1 times on a known path after a reset gives
   * exactly one entry for it in that route's report, and nothing elsewhere.
   */
  lemma RedeliveryReportsOnce(path: string, r: Route, msg: Bytes, n: nat, rep: Report)
    requires PathToRoute(path) == Some(r) && n >= 1
    requires Mirrors(rep, DeliverAll(Empty(), OnPath(path, seq(n, _ => msg))))
    ensures rep.Field(r) == [msg]
    ensures forall q :: q != r ==> rep.Field(q) == []
  {
    var msgs := seq(n, _ => msg);
    DeliverAllContents(Empty(), OnPath(path, msgs));
    forall q ensures Delivered(OnPath(path, msgs), q) ==
                     if q == r then (set m | m in msgs) else {} {
      OnPathDelivered(path, msgs, q);
    }
    assert (set m | m in msgs) == {msg} by {
      assert msgs[0] == msg;
    }
    SingletonList(rep.Field(r), msg);
    forall q | q != r ensures rep.Field(q) == [] {
      ListUnique(rep.Field(q), [], {});
    }
  }

  /**
   * No lost updates: M pairwise distinct payloads delivered on one known
   * path after a reset, in whatever order the lock serialises them, are all
   * in that route's report, which has exactly M entries.
   */
  lemma NoLostUpdate(path: string, r: Route, msgs: seq<Bytes>, rep: Report)
    requires PathToRoute(path) == Some(r)
    requires forall i, j :: 0 <= i < j < |msgs| ==> msgs[i] != msgs[j]
    requires Mirrors(rep, DeliverAll(Empty(), OnPath(path, msgs)))
    ensures |rep.Field(r)| == |msgs|
    ensures forall m :: m in msgs <==> m in rep.Field(r)
  {
    DeliverAllContents(Empty(), OnPath(path, msgs));
    OnPathDelivered(path, msgs, r);
    DistinctCardinality(msgs);
    ReportMirrorsLedger(rep, DeliverAll(Empty(), OnPath(path, msgs)), r);
  }

  /**
   * The end-to-end scenario: initialize (which empties whatever was there), deliver m1 on
   * route A, m2 on route C and m1 on route A again; the report then lists
   * [m1] for route A, [m2] for route C and nothing for the others.
   */
  lemma EndToEndScenario(m1: Bytes, m2: Bytes, rep: Report)
    requires Mirrors(rep, Dispatch(Dispatch(Dispatch(Empty(), PathA, m1).0, PathC, m2).0, PathA, m1).0)
    ensures rep == Report([m1], [], [m2], [], [], [])
  {
    var l := Dispatch(Dispatch(Dispatch(Empty(), PathA, m1).0, PathC, m2).0, PathA, m1).0;
    assert l == Ledger({m1}, {}, {m2}, {}, {}, {});
    assert Mirrors(Report([m1], [], [m2], [], [], []), l);
    ReportDeterministic(rep, Report([m1], [], [m2], [], [], []), l);
  }
}
