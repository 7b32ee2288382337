/**
 * The departure filter of src/subway_client/__init__.py. A decoded GTFS-realtime
 * feed is given as a value (fetching and protobuf decoding are not modelled);
 * `now` is the Unix time in whole seconds, passed in.
 */
module SubwayClient {
  import opened Wrappers

  // The fields of the GTFS-realtime messages the filter reads.
  datatype StopTimeEvent = StopTimeEvent(time: int)
  datatype StopTimeUpdate = StopTimeUpdate(stopId: string, departure: Option<StopTimeEvent>)
  datatype TripDescriptor = TripDescriptor(routeId: string)
  datatype TripUpdate = TripUpdate(trip: TripDescriptor, stopTimeUpdate: seq<StopTimeUpdate>)
  datatype FeedEntity = FeedEntity(tripUpdate: Option<TripUpdate>)
  datatype FeedMessage = FeedMessage(entity: seq<FeedEntity>)

  /** `stop_time_update.departure.time`: an unset message reads as its default, 0. */
  function DepartureTime(u: StopTimeUpdate): int
  {
    if u.departure.Some? then u.departure.value.time else 0
  }

  /** The entity-level test: a trip update with at least one stop time update, on the route. */
  predicate TripOnRoute(e: FeedEntity, routeId: string)
  {
    e.tripUpdate.Some? && |e.tripUpdate.value.stopTimeUpdate| > 0 && e.tripUpdate.value.trip.routeId == routeId
  }

  /** The j-th stop time update of entity e is a departure the filter keeps. */
  predicate Qualifies(e: FeedEntity, j: int, stopId: string, routeId: string, now: int)
  {
    && TripOnRoute(e, routeId)
    && 0 <= j < |e.tripUpdate.value.stopTimeUpdate|
    && e.tripUpdate.value.stopTimeUpdate[j].stopId == stopId
    && DepartureTime(e.tripUpdate.value.stopTimeUpdate[j]) > now
  }

  /** The inner loop's test, with the route check the source repeats there. */
  predicate UpdateQualifies(u: StopTimeUpdate, stopId: string, tripRouteId: string, routeId: string, now: int)
  {
    u.stopId == stopId && tripRouteId == routeId && DepartureTime(u) > now
  }

  /** The departures the inner loop appends for one trip, in feed order. */
  function StopDepartures(us: seq<StopTimeUpdate>, stopId: string, tripRouteId: string, routeId: string, now: int): seq<int>
  {
    if us == [] then []
    else StopDepartures(us[..|us| - 1], stopId, tripRouteId, routeId, now)
         + (if UpdateQualifies(us[|us| - 1], stopId, tripRouteId, routeId, now) then [DepartureTime(us[|us| - 1])] else [])
  }

  function EntityDepartures(e: FeedEntity, stopId: string, routeId: string, now: int): seq<int>
  {
    if TripOnRoute(e, routeId)
    then StopDepartures(e.tripUpdate.value.stopTimeUpdate, stopId, e.tripUpdate.value.trip.routeId, routeId, now)
    else []
  }

  /** Every departure the filter keeps, in feed order, duplicates included. */
  function QualifyingDepartures(es: seq<FeedEntity>, stopId: string, routeId: string, now: int): seq<int>
  {
    if es == [] then []
    else QualifyingDepartures(es[..|es| - 1], stopId, routeId, now) + EntityDepartures(es[|es| - 1], stopId, routeId, now)
  }

  /** The feed is read entity by entity: the departures of a concatenation are concatenated. */
  lemma {:induction false} QualifyingDeparturesConcat(a: seq<FeedEntity>, b: seq<FeedEntity>, stopId: string, routeId: string, now: int)
    ensures QualifyingDepartures(a + b, stopId, routeId, now)
         == QualifyingDepartures(a, stopId, routeId, now) + QualifyingDepartures(b, stopId, routeId, now)
    decreases |b|
  {
    if b == [] {
      assert a + b == a;
    } else {
      var b', last := b[..|b| - 1], b[|b| - 1];
      assert (a + b)[..|a + b| - 1] == a + b' && (a + b)[|a + b| - 1] == last;
      QualifyingDeparturesConcat(a, b', stopId, routeId, now);
      var qa, qb', e := QualifyingDepartures(a, stopId, routeId, now), QualifyingDepartures(b', stopId, routeId, now),
                        EntityDepartures(last, stopId, routeId, now);
      assert QualifyingDepartures(b, stopId, routeId, now) == qb' + e;
      assert qa + qb' + e == qa + (qb' + e);
    }
  }

  /**
   * Entities with no trip update, with an empty list of stop time updates, or
   * for another route contribute nothing wherever they stand in the feed.
   */
  lemma IgnoredEntityContributesNothing(a: seq<FeedEntity>, e: FeedEntity, b: seq<FeedEntity>,
                                        stopId: string, routeId: string, now: int)
    requires e.tripUpdate.None? || e.tripUpdate.value.stopTimeUpdate == [] || e.tripUpdate.value.trip.routeId != routeId
    ensures QualifyingDepartures(a + [e] + b, stopId, routeId, now) == QualifyingDepartures(a + b, stopId, routeId, now)
  {
    assert EntityDepartures(e, stopId, routeId, now) == [];
    assert QualifyingDepartures([e], stopId, routeId, now) == [] by {
      assert [e][..0] == [];
    }
    QualifyingDeparturesConcat(a, [e], stopId, routeId, now);
    assert QualifyingDepartures(a + [e], stopId, routeId, now) == QualifyingDepartures(a, stopId, routeId, now);
    QualifyingDeparturesConcat(a + [e], b, stopId, routeId, now);
    QualifyingDeparturesConcat(a, b, stopId, routeId, now);
  }

  lemma {:induction false} StopDeparturesMembership(us: seq<StopTimeUpdate>, stopId: string, tripRouteId: string,
                                                    routeId: string, now: int, t: int)
    ensures t in StopDepartures(us, stopId, tripRouteId, routeId, now) <==>
      exists j :: 0 <= j < |us| && UpdateQualifies(us[j], stopId, tripRouteId, routeId, now) && DepartureTime(us[j]) == t
    decreases |us|
  {
    if us != [] {
      var us' := us[..|us| - 1];
      StopDeparturesMembership(us', stopId, tripRouteId, routeId, now, t);
      if exists j :: 0 <= j < |us| && UpdateQualifies(us[j], stopId, tripRouteId, routeId, now) && DepartureTime(us[j]) == t {
        var j :| 0 <= j < |us| && UpdateQualifies(us[j], stopId, tripRouteId, routeId, now) && DepartureTime(us[j]) == t;
        if j < |us| - 1 {
          assert us'[j] == us[j];
        }
      }
    }
  }

  /** The predicate the membership lemma is stated with: entity i's update j departs at t and is kept. */
  predicate DepartsAt(es: seq<FeedEntity>, i: int, j: int, stopId: string, routeId: string, now: int, t: int)
  {
    0 <= i < |es| && Qualifies(es[i], j, stopId, routeId, now) && DepartureTime(es[i].tripUpdate.value.stopTimeUpdate[j]) == t
  }

  /**
   * A time is kept exactly when it is the departure of a stop time update for
   * `stopId`, later than `now`, inside an entity whose trip update is on `routeId`
   * and has at least one stop time update.
   */
  lemma {:induction false} QualifyingMembership(es: seq<FeedEntity>, stopId: string, routeId: string, now: int, t: int)
    ensures t in QualifyingDepartures(es, stopId, routeId, now) <==>
      exists i, j :: DepartsAt(es, i, j, stopId, routeId, now, t)
    decreases |es|
  {
    if es != [] {
      var es' := es[..|es| - 1];
      var e := es[|es| - 1];
      QualifyingMembership(es', stopId, routeId, now, t);
      if TripOnRoute(e, routeId) {
        StopDeparturesMembership(e.tripUpdate.value.stopTimeUpdate, stopId, e.tripUpdate.value.trip.routeId, routeId, now, t);
      }
      if t in QualifyingDepartures(es, stopId, routeId, now) {
        if t in QualifyingDepartures(es', stopId, routeId, now) {
          var i, j :| DepartsAt(es', i, j, stopId, routeId, now, t);
          assert DepartsAt(es, i, j, stopId, routeId, now, t);
        } else {
          assert t in EntityDepartures(e, stopId, routeId, now);
          var j :| 0 <= j < |e.tripUpdate.value.stopTimeUpdate|
            && UpdateQualifies(e.tripUpdate.value.stopTimeUpdate[j], stopId, e.tripUpdate.value.trip.routeId, routeId, now)
            && DepartureTime(e.tripUpdate.value.stopTimeUpdate[j]) == t;
          assert DepartsAt(es, |es| - 1, j, stopId, routeId, now, t);
        }
      }
      if exists i, j :: DepartsAt(es, i, j, stopId, routeId, now, t) {
        var i, j :| DepartsAt(es, i, j, stopId, routeId, now, t);
        if i < |es| - 1 {
          assert DepartsAt(es', i, j, stopId, routeId, now, t);
        } else {
          var u := e.tripUpdate.value.stopTimeUpdate[j];
          assert UpdateQualifies(u, stopId, e.tripUpdate.value.trip.routeId, routeId, now);
          assert t in EntityDepartures(e, stopId, routeId, now);
        }
      }
    }
  }

  // ---------------------------------------------------------------------------
  // times.sort()

  predicate Sorted(s: seq<int>)
  {
    forall i, j :: 0 <= i < j < |s| ==> s[i] <= s[j]
  }

  /** x placed before the first element of s that is not smaller than it. */
  function Insert(x: int, s: seq<int>): (r: seq<int>)
    requires Sorted(s)
    ensures Sorted(r)
    ensures multiset(r) == multiset(s) + multiset{x}
  {
    if s == [] || x <= s[0] then [x] + s
    else
      var rest := Insert(x, s[1..]);
      HeadBelowInsert(s, x, rest);
      [s[0]] + rest
  }

  /** The head of a sorted list, smaller than x, stays below everything x is inserted among. */
  lemma HeadBelowInsert(s: seq<int>, x: int, rest: seq<int>)
    requires Sorted(s) && s != [] && s[0] < x
    requires Sorted(rest) && multiset(rest) == multiset(s[1..]) + multiset{x}
    ensures Sorted([s[0]] + rest)
    ensures multiset([s[0]] + rest) == multiset(s) + multiset{x}
  {
    assert s == [s[0]] + s[1..];
    forall k | 0 <= k < |rest| ensures s[0] <= rest[k] {
      assert rest[k] in multiset(rest);
      assert rest[k] in multiset(s[1..]) || rest[k] == x;
      if rest[k] in multiset(s[1..]) {
        var j :| 0 <= j < |s[1..]| && s[1..][j] == rest[k];
        assert s[0] <= s[j + 1];
      }
    }
  }

  /** `list.sort()` on integers: the sorted rearrangement of the list. */
  method Sort(xs: seq<int>) returns (ys: seq<int>)
    ensures Sorted(ys)
    ensures multiset(ys) == multiset(xs)
  {
    ys := [];
    for i := 0 to |xs|
      invariant Sorted(ys)
      invariant multiset(ys) == multiset(xs[..i])
    {
      assert xs[..i + 1] == xs[..i] + [xs[i]];
      ys := Insert(xs[i], ys);
    }
    assert xs[..|xs|] == xs;
  }

  /** Two sorted rearrangements of one multiset start with the same, smallest, element. */
  lemma SortedHeadsAgree(a: seq<int>, b: seq<int>)
    requires Sorted(a) && Sorted(b) && multiset(a) == multiset(b) && a != []
    ensures b != [] && a[0] == b[0]
  {
    assert a[0] in multiset(a);
    var i :| 0 <= i < |b| && b[i] == a[0];
    assert b[0] in multiset(b);
    var j :| 0 <= j < |a| && a[j] == b[0];
    assert b[0] <= b[i] && a[0] <= a[j];
  }

  lemma SortedTail(a: seq<int>)
    requires Sorted(a) && a != []
    ensures Sorted(a[1..]) && multiset(a[1..]) == multiset(a) - multiset{a[0]}
  {
    assert a == [a[0]] + a[1..];
  }

  /** A sorted rearrangement is unique, so the filter's result is fully determined by the feed. */
  lemma {:induction false} SortedPermutationUnique(a: seq<int>, b: seq<int>)
    requires Sorted(a) && Sorted(b) && multiset(a) == multiset(b)
    ensures a == b
    decreases |a|
  {
    if a == [] {
      assert |multiset(b)| == 0;
    } else {
      SortedHeadsAgree(a, b);
      SortedTail(a);
      SortedTail(b);
      SortedPermutationUnique(a[1..], b[1..]);
      assert a == [a[0]] + a[1..] && b == [b[0]] + b[1..];
    }
  }

  // ---------------------------------------------------------------------------
  // get_subway_data_for_stop and fetch_subway_times

  /**
   * The departures from `stopId` on `routeId` still to come: every kept
   * departure, duplicates included, sorted ascending.
   */
  method GetSubwayDataForStop(feed: FeedMessage, stopId: string, routeId: string, now: int) returns (times: seq<int>)
    ensures Sorted(times)
    ensures multiset(times) == multiset(QualifyingDepartures(feed.entity, stopId, routeId, now))
    ensures forall k :: 0 <= k < |times| ==> times[k] > now
  {
    times := [];

    for i := 0 to |feed.entity|
      invariant times == QualifyingDepartures(feed.entity[..i], stopId, routeId, now)
    {
      var entity := feed.entity[i];
      assert feed.entity[..i + 1][..i] == feed.entity[..i];
      if entity.tripUpdate.Some?
         && |entity.tripUpdate.value.stopTimeUpdate| > 0
         && entity.tripUpdate.value.trip.routeId == routeId
      {
        var updates := entity.tripUpdate.value.stopTimeUpdate;
        for j := 0 to |updates|
          invariant times == QualifyingDepartures(feed.entity[..i], stopId, routeId, now)
                           + StopDepartures(updates[..j], stopId, entity.tripUpdate.value.trip.routeId, routeId, now)
        {
          var stopTimeUpdate := updates[j];
          var departureTime := DepartureTime(stopTimeUpdate);
          assert updates[..j + 1][..j] == updates[..j];
          if stopTimeUpdate.stopId == stopId
             && entity.tripUpdate.value.trip.routeId == routeId
             && departureTime > now
          {
            times := times + [departureTime];
          }
        }
        assert updates[..|updates|] == updates;
      }
    }
    assert feed.entity[..|feed.entity|] == feed.entity;

    forall k | 0 <= k < |times| ensures times[k] > now {
      QualifyingMembership(feed.entity, stopId, routeId, now, times[k]);
    }
    ghost var kept := times;
    times := Sort(times);
    forall k | 0 <= k < |times| ensures times[k] > now {
      assert times[k] in multiset(kept);
    }
  }

  /** ts is what `get_subway_data_for_stop(feed, stopId, routeId)` returns at `now`. */
  predicate IsStopTimes(ts: seq<int>, feed: FeedMessage, stopId: string, routeId: string, now: int)
  {
    Sorted(ts) && multiset(ts) == multiset(QualifyingDepartures(feed.entity, stopId, routeId, now))
  }

  /**
   * `fetch_subway_times` with the three decoded feeds as parameters: directions
   * "N" and "S", each holding routes "B", "Q", "2" and "3", each the sorted
   * departures from that route's platform in that direction, B and Q at
   * station D25 and 2 and 3 at station 237.
   */
  method FetchSubwayTimes(data123: FeedMessage, dataBdfm: FeedMessage, dataNqrw: FeedMessage, now: int)
    returns (times: map<string, map<string, seq<int>>>)
    ensures times.Keys == {"N", "S"}
    ensures times["N"].Keys == {"B", "Q", "2", "3"} && times["S"].Keys == {"B", "Q", "2", "3"}
    ensures IsStopTimes(times["N"]["B"], dataBdfm, "D25N", "B", now)
    ensures IsStopTimes(times["N"]["Q"], dataNqrw, "D25N", "Q", now)
    ensures IsStopTimes(times["N"]["2"], data123, "237N", "2", now)
    ensures IsStopTimes(times["N"]["3"], data123, "237N", "3", now)
    ensures IsStopTimes(times["S"]["B"], dataBdfm, "D25S", "B", now)
    ensures IsStopTimes(times["S"]["Q"], dataNqrw, "D25S", "Q", now)
    ensures IsStopTimes(times["S"]["2"], data123, "237S", "2", now)
    ensures IsStopTimes(times["S"]["3"], data123, "237S", "3", now)
  {
    var northB := GetSubwayDataForStop(dataBdfm, "D25N", "B", now);
    var northQ := GetSubwayDataForStop(dataNqrw, "D25N", "Q", now);
    var north2 := GetSubwayDataForStop(data123, "237N", "2", now);
    var north3 := GetSubwayDataForStop(data123, "237N", "3", now);
    var southB := GetSubwayDataForStop(dataBdfm, "D25S", "B", now);
    var southQ := GetSubwayDataForStop(dataNqrw, "D25S", "Q", now);
    var south2 := GetSubwayDataForStop(data123, "237S", "2", now);
    var south3 := GetSubwayDataForStop(data123, "237S", "3", now);

    times := map[
      "N" := map["B" := northB, "Q" := northQ, "2" := north2, "3" := north3],
      "S" := map["B" := southB, "Q" := southQ, "2" := south2, "3" := south3]
    ];
  }
}
