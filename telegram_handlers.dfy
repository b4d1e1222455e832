/**
 * The journey state machine of the webhook: the four location handlers and
 * the two entry points that choose between them, over the `journey` and
 * `coordinate` tables. Each SQL statement the handlers issue is a method of
 * `Database`; each handler is a method whose effect is given by a function
 * on the table contents (`After...`), about which the lemmas below speak.
 *
 * Instants are integers of milliseconds since the epoch: the source stores
 * them as ISO-8601 strings made by `toISOString()` and reads them back with
 * `new Date(...)`, which round-trips exactly.
 */
module TelegramHandlers {
  import opened Wrappers
  import opened TelegramTypes
  import opened Geo
  import opened Sorting

  // ---------------------------------------------------------------------------
  // Rows and tables

  datatype Journey = Journey(
    id: nat,
    userId: real,
    startTime: int,
    endTime: Option<int>,
    distance: Option<real>,
    avgSpeed: Option<real>)

  datatype Coordinate = Coordinate(
    id: nat,
    journeyId: nat,
    latitude: real,
    longitude: real,
    timestamp: int,
    heading: Option<real>,
    horizontalAccuracy: Option<real>)

  /** The two tables and the row ids the engine will hand out next. */
  datatype Tables = Tables(
    journeys: seq<Journey>,
    coordinates: seq<Coordinate>,
    nextJourneyId: nat,
    nextCoordinateId: nat)

  /** Which statement of a handler, numbered from 1 in execution order, the storage fails (throws) on. */
  datatype Fault = NoFault | FailAt(statement: nat)

  predicate Fails(fault: Fault, statement: nat) {
    fault == FailAt(statement)
  }

  /** Row ids are unique and below the next id; every coordinate belongs to an existing journey. */
  ghost predicate Consistent(t: Tables) {
    && (forall i, j :: 0 <= i < j < |t.journeys| ==> t.journeys[i].id != t.journeys[j].id)
    && (forall i :: 0 <= i < |t.journeys| ==> t.journeys[i].id < t.nextJourneyId)
    && (forall i, j :: 0 <= i < j < |t.coordinates| ==> t.coordinates[i].id != t.coordinates[j].id)
    && (forall i :: 0 <= i < |t.coordinates| ==> t.coordinates[i].id < t.nextCoordinateId)
    && (forall i :: 0 <= i < |t.coordinates| ==> HasJourney(t.journeys, t.coordinates[i].journeyId))
  }

  predicate HasJourney(js: seq<Journey>, id: nat) {
    exists k :: 0 <= k < |js| && js[k].id == id
  }

  // ---------------------------------------------------------------------------
  // Time

  const MaxTimeMs: real := 8640000000000000.0

  /** ToIntegerOrInfinity: truncation toward zero. */
  function Truncate(x: real): int {
    if x >= 0.0 then x.Floor else -((-x).Floor)
  }

  /**
   * `new Date(date * 1000).toISOString()` as an instant: None when the time
   * value is outside the range of dates, where `toISOString` throws a RangeError.
   */
  function IsoInstant(date: real): Option<int> {
    var ms := date * 1000.0;
    if ms > MaxTimeMs || ms < -MaxTimeMs then None else Some(Truncate(ms))
  }

  // ---------------------------------------------------------------------------
  // What each statement reads or writes

  /**
   * `SELECT ... FROM journey WHERE user_id = ? ORDER BY start_time DESC LIMIT 1`:
   * the index of a journey of the user with the greatest start time (among
   * equal start times, the one inserted last), or None when the user has none.
   * It does not look at `end_time`.
   */
  function LatestJourney(js: seq<Journey>, userId: real): (r: Option<nat>)
    ensures r.Some? ==> r.value < |js| && js[r.value].userId == userId
    ensures r.Some? ==> forall k :: 0 <= k < |js| && js[k].userId == userId ==> js[k].startTime <= js[r.value].startTime
    ensures r.Some? ==> forall k :: r.value < k < |js| ==> js[k].userId != userId || js[k].startTime < js[r.value].startTime
    ensures r.None? <==> forall k :: 0 <= k < |js| ==> js[k].userId != userId
  {
    if |js| == 0 then None
    else
      var prev := LatestJourney(js[..|js| - 1], userId);
      var last := js[|js| - 1];
      if last.userId != userId then prev
      else if prev.Some? && js[prev.value].startTime > last.startTime then prev
      else Some(|js| - 1)
  }

  /** `INSERT INTO journey (user_id, start_time) VALUES (?, ?)`. */
  function WithJourney(t: Tables, userId: real, startTime: int): Tables {
    t.(journeys := t.journeys + [Journey(t.nextJourneyId, userId, startTime, None, None, None)],
       nextJourneyId := t.nextJourneyId + 1)
  }

  /** `INSERT INTO coordinate (...)`, with an absent heading or accuracy stored as null. */
  function WithCoordinate(t: Tables, journeyId: nat, loc: Location, timestamp: int): Tables {
    var c := Coordinate(t.nextCoordinateId, journeyId, loc.latitude, loc.longitude, timestamp, loc.heading, loc.horizontalAccuracy);
    t.(coordinates := t.coordinates + [c], nextCoordinateId := t.nextCoordinateId + 1)
  }

  /** `UPDATE journey SET end_time = ?, distance = ?, avg_speed = ? WHERE id = ?`: every row with that id. */
  function WithJourneyClosed(t: Tables, id: nat, endTime: int, distance: real, avgSpeed: real): Tables {
    t.(journeys := seq(|t.journeys|, i requires 0 <= i < |t.journeys| =>
        if t.journeys[i].id == id
        then t.journeys[i].(endTime := Some(endTime), distance := Some(distance), avgSpeed := Some(avgSpeed))
        else t.journeys[i]))
  }

  /** The journey's coordinates in table order (`WHERE journey_id = ?`). */
  function TraceOf(cs: seq<Coordinate>, journeyId: nat): (r: seq<Coordinate>)
    ensures forall c :: c in r <==> c in cs && c.journeyId == journeyId
  {
    if |cs| == 0 then []
    else TraceOf(cs[..|cs| - 1], journeyId) + (if cs[|cs| - 1].journeyId == journeyId then [cs[|cs| - 1]] else [])
  }

  predicate EarlierThan(a: Coordinate, b: Coordinate) {
    a.timestamp < b.timestamp
  }

  /** `... WHERE journey_id = ? ORDER BY timestamp ASC`. */
  function SortedTrace(cs: seq<Coordinate>, journeyId: nat): seq<Coordinate> {
    SortBy(TraceOf(cs, journeyId), EarlierThan)
  }

  function SampleOf(c: Coordinate): Sample {
    Sample(c.latitude, c.longitude, c.timestamp)
  }

  function Samples(cs: seq<Coordinate>): (r: seq<Sample>)
    ensures |r| == |cs| && forall k :: 0 <= k < |cs| ==> r[k] == SampleOf(cs[k])
  {
    seq(|cs|, k requires 0 <= k < |cs| => SampleOf(cs[k]))
  }

  /** JavaScript truthiness of an optional number field. */
  predicate TruthyNumber(x: Option<real>) {
    x.Some? && x.value != 0.0
  }

  // ---------------------------------------------------------------------------
  // What each handler does to the tables

  /** `handleLiveLocationStart`. */
  function AfterLiveLocationStart(t: Tables, msg: Message, fault: Fault): Tables {
    if msg.from.None? || msg.location.None? then t
    else
      var userId := msg.from.value.id;
      match IsoInstant(msg.date)
      case None => t
      case Some(start) =>
        if Fails(fault, 1) then t
        else
          var t1 := WithJourney(t, userId, start);
          if Fails(fault, 2) then t1
          else
            match LatestJourney(t1.journeys, userId)
            case None => t1
            case Some(k) => if Fails(fault, 3) then t1 else WithCoordinate(t1, t1.journeys[k].id, msg.location.value, start)
  }

  /** `handleLiveLocationUpdate`. */
  function AfterLiveLocationUpdate(t: Tables, msg: Message, fault: Fault): Tables {
    if msg.location.None? || msg.from.None? then t
    else if Fails(fault, 1) then t
    else
      match LatestJourney(t.journeys, msg.from.value.id)
      case None => t
      case Some(k) =>
        var journeyId := t.journeys[k].id;
        if journeyId == 0 then t
        else
          match IsoInstant(msg.date)
          case None => t
          case Some(timestamp) => if Fails(fault, 2) then t else WithCoordinate(t, journeyId, msg.location.value, timestamp)
  }

  /** The statistics `handleLiveLocationEnd` writes for a journey starting at `startTime`. */
  function TraceDistance(trace: seq<Coordinate>, dist: (Point, Point) -> real): real {
    PathLength(Samples(trace), dist)
  }

  function TraceSpeed(trace: seq<Coordinate>, startTime: int, dist: (Point, Point) -> real): real
    requires |trace| > 0
  {
    AverageSpeed(TraceDistance(trace, dist), DurationSeconds(Samples(trace), startTime))
  }

  /** `handleLiveLocationEnd`; `now` is the clock reading `new Date()` takes. */
  function AfterLiveLocationEnd(t: Tables, msg: Message, now: int, dist: (Point, Point) -> real, fault: Fault): Tables {
    if msg.from.None? then t
    else if Fails(fault, 1) then t
    else
      match LatestJourney(t.journeys, msg.from.value.id)
      case None => t
      case Some(k) =>
        var j := t.journeys[k];
        if Fails(fault, 2) then t
        else
          var trace := SortedTrace(t.coordinates, j.id);
          if |trace| < 2 then t
          else if Fails(fault, 3) then t
          else WithJourneyClosed(t, j.id, now, TraceDistance(trace, dist), TraceSpeed(trace, j.startTime, dist))
  }

  /** `handleMessage`: a truthy `live_period` starts a journey; a static location changes nothing. */
  function AfterMessage(t: Tables, msg: Message, fault: Fault): Tables {
    if msg.location.None? then t
    else if TruthyNumber(msg.location.value.livePeriod) then AfterLiveLocationStart(t, msg, fault)
    else t
  }

  /** `handleEditedMessage`: always the update path, then the end path when `live_period` is falsy. */
  function AfterEditedMessage(t: Tables, msg: Message, now: int, dist: (Point, Point) -> real, updateFault: Fault, endFault: Fault): Tables {
    if msg.location.None? then t
    else
      var t1 := AfterLiveLocationUpdate(t, msg, updateFault);
      if TruthyNumber(msg.location.value.livePeriod) then t1 else AfterLiveLocationEnd(t1, msg, now, dist, endFault)
  }

  // ---------------------------------------------------------------------------
  // The storage

  class Database {
    var journeys: seq<Journey>
    var coordinates: seq<Coordinate>
    var nextJourneyId: nat
    var nextCoordinateId: nat

    function State(): Tables
      reads this
    {
      Tables(journeys, coordinates, nextJourneyId, nextCoordinateId)
    }

    ghost predicate Valid()
      reads this
    {
      Consistent(State())
    }

    constructor ()
      ensures Valid()
      ensures State() == Tables([], [], 1, 1)
    {
      journeys, coordinates := [], [];
      nextJourneyId, nextCoordinateId := 1, 1;
    }

    method InsertJourney(userId: real, startTime: int)
      modifies this
      ensures State() == WithJourney(old(State()), userId, startTime)
    {
      journeys := journeys + [Journey(nextJourneyId, userId, startTime, None, None, None)];
      nextJourneyId := nextJourneyId + 1;
    }

    method InsertCoordinate(journeyId: nat, loc: Location, timestamp: int)
      modifies this
      ensures State() == WithCoordinate(old(State()), journeyId, loc, timestamp)
    {
      coordinates := coordinates + [Coordinate(nextCoordinateId, journeyId, loc.latitude, loc.longitude, timestamp, loc.heading, loc.horizontalAccuracy)];
      nextCoordinateId := nextCoordinateId + 1;
    }

    /** The latest-started journey of the user, found by one scan of the table. */
    method SelectLatestJourney(userId: real) returns (r: Option<Journey>)
      ensures r.None? <==> forall k :: 0 <= k < |journeys| ==> journeys[k].userId != userId
      ensures r.Some? ==> r.value in journeys && r.value.userId == userId
      ensures r.Some? ==> forall k :: 0 <= k < |journeys| && journeys[k].userId == userId ==> journeys[k].startTime <= r.value.startTime
      ensures r == (var k := LatestJourney(journeys, userId); if k.Some? then Some(journeys[k.value]) else None)
    {
      var best: Option<nat> := None;
      var i := 0;
      while i < |journeys|
        invariant 0 <= i <= |journeys|
        invariant best == LatestJourney(journeys[..i], userId)
      {
        assert journeys[..i + 1][..i] == journeys[..i];
        var row := journeys[i];
        if row.userId == userId && (best.None? || journeys[best.value].startTime <= row.startTime) {
          best := Some(i);
        }
        i := i + 1;
      }
      assert journeys[..i] == journeys;
      r := if best.Some? then Some(journeys[best.value]) else None;
    }

    /** The journey's coordinates by ascending timestamp: a sorted permutation of its rows. */
    method SelectTrace(journeyId: nat) returns (trace: seq<Coordinate>)
      ensures trace == SortedTrace(coordinates, journeyId)
      ensures SortedBy(trace, EarlierThan)
      ensures multiset(trace) == multiset(TraceOf(coordinates, journeyId))
      ensures forall c :: c in trace <==> c in coordinates && c.journeyId == journeyId
    {
      trace := SortedTrace(coordinates, journeyId);
      EarlierThanIsStrict();
      SortBySorted(TraceOf(coordinates, journeyId), EarlierThan);
      forall c ensures c in trace <==> c in TraceOf(coordinates, journeyId) {
        assert c in trace <==> c in multiset(trace);
      }
    }

    method UpdateJourneyStatistics(id: nat, endTime: int, distance: real, avgSpeed: real)
      modifies this
      ensures State() == WithJourneyClosed(old(State()), id, endTime, distance, avgSpeed)
    {
      journeys := seq(|journeys|, i requires 0 <= i < |journeys| reads this =>
        if journeys[i].id == id
        then journeys[i].(endTime := Some(endTime), distance := Some(distance), avgSpeed := Some(avgSpeed))
        else journeys[i]);
    }

    /** Every failure of the storage is caught: the handler returns normally whatever `fault` is. */
    method HandleLiveLocationStart(msg: Message, fault: Fault)
      requires Valid()
      modifies this
      ensures Valid()
      ensures State() == AfterLiveLocationStart(old(State()), msg, fault)
    {
      if msg.from.None? {
        return;
      }
      if msg.location.None? {
        return;
      }
      var user := msg.from.value;
      var start := IsoInstant(msg.date);
      if start.None? || Fails(fault, 1) {
        return;
      }
      InsertJourney(user.id, start.value);
      if Fails(fault, 2) {
        StartPreservesConsistency(old(State()), msg, fault);
        return;
      }
      var lastJourney := SelectLatestJourney(user.id);
      if lastJourney.None? {
        return;
      }
      if Fails(fault, 3) {
        StartPreservesConsistency(old(State()), msg, fault);
        return;
      }
      InsertCoordinate(lastJourney.value.id, msg.location.value, start.value);
      StartPreservesConsistency(old(State()), msg, fault);
    }

    method HandleLiveLocationUpdate(msg: Message, fault: Fault)
      requires Valid()
      modifies this
      ensures Valid()
      ensures State() == AfterLiveLocationUpdate(old(State()), msg, fault)
    {
      if msg.location.None? {
        return;
      }
      if msg.from.None? {
        return;
      }
      if Fails(fault, 1) {
        return;
      }
      var lastJourney := SelectLatestJourney(msg.from.value.id);
      if lastJourney.None? {
        return;
      }
      var journeyId := lastJourney.value.id;
      if journeyId == 0 {
        return;
      }
      var timestamp := IsoInstant(msg.date);
      if timestamp.None? || Fails(fault, 2) {
        return;
      }
      InsertCoordinate(journeyId, msg.location.value, timestamp.value);
      UpdatePreservesConsistency(old(State()), msg, fault);
    }

    method HandleLiveLocationEnd(msg: Message, now: int, dist: (Point, Point) -> real, fault: Fault)
      requires Valid()
      modifies this
      ensures Valid()
      ensures State() == AfterLiveLocationEnd(old(State()), msg, now, dist, fault)
    {
      if msg.from.None? {
        return;
      }
      if Fails(fault, 1) {
        return;
      }
      var lastJourney := SelectLatestJourney(msg.from.value.id);
      if lastJourney.None? {
        return;
      }
      if Fails(fault, 2) {
        return;
      }
      var coords := SelectTrace(lastJourney.value.id);
      if |coords| < 2 {
        return;
      }
      var totalDistance, avgSpeed := CalculateTripStatistics(Samples(coords), lastJourney.value.startTime, dist);
      if Fails(fault, 3) {
        return;
      }
      UpdateJourneyStatistics(lastJourney.value.id, now, totalDistance, avgSpeed);
      EndPreservesConsistency(old(State()), msg, now, dist, fault);
    }

    /** `handleMessage`; the static-location path touches no table. */
    method HandleMessage(msg: Message, fault: Fault)
      requires Valid()
      modifies this
      ensures Valid()
      ensures State() == AfterMessage(old(State()), msg, fault)
    {
      if msg.location.Some? {
        if TruthyNumber(msg.location.value.livePeriod) {
          HandleLiveLocationStart(msg, fault);
        }
      }
    }

    method HandleEditedMessage(msg: Message, now: int, dist: (Point, Point) -> real, updateFault: Fault, endFault: Fault)
      requires Valid()
      modifies this
      ensures Valid()
      ensures State() == AfterEditedMessage(old(State()), msg, now, dist, updateFault, endFault)
    {
      if msg.location.Some? {
        HandleLiveLocationUpdate(msg, updateFault);
        if !TruthyNumber(msg.location.value.livePeriod) {
          HandleLiveLocationEnd(msg, now, dist, endFault);
        }
      }
    }
  }

  // ---------------------------------------------------------------------------
  // Properties

  lemma EarlierThanIsStrict()
    ensures StrictOrder(EarlierThan)
  {
  }

  /** A new journey takes a fresh id. */
  lemma JourneyInsertKeepsConsistency(t: Tables, userId: real, startTime: int)
    requires Consistent(t)
    ensures Consistent(WithJourney(t, userId, startTime))
  {
    var r := WithJourney(t, userId, startTime);
    forall i | 0 <= i < |r.coordinates| ensures HasJourney(r.journeys, r.coordinates[i].journeyId) {
      var k :| 0 <= k < |t.journeys| && t.journeys[k].id == t.coordinates[i].journeyId;
      assert r.journeys[k] == t.journeys[k];
    }
  }

  /** A new coordinate takes a fresh id and points at an existing journey. */
  lemma CoordinateInsertKeepsConsistency(t: Tables, journeyId: nat, loc: Location, timestamp: int)
    requires Consistent(t) && HasJourney(t.journeys, journeyId)
    ensures Consistent(WithCoordinate(t, journeyId, loc, timestamp))
  {
  }

  lemma StartPreservesConsistency(t: Tables, msg: Message, fault: Fault)
    requires Consistent(t)
    ensures Consistent(AfterLiveLocationStart(t, msg, fault))
  {
    if msg.from.Some? && msg.location.Some? && IsoInstant(msg.date).Some? {
      var start := IsoInstant(msg.date).value;
      var t1 := WithJourney(t, msg.from.value.id, start);
      JourneyInsertKeepsConsistency(t, msg.from.value.id, start);
      var latest := LatestJourney(t1.journeys, msg.from.value.id);
      if latest.Some? {
        assert HasJourney(t1.journeys, t1.journeys[latest.value].id);
        CoordinateInsertKeepsConsistency(t1, t1.journeys[latest.value].id, msg.location.value, start);
      }
    }
  }

  lemma UpdatePreservesConsistency(t: Tables, msg: Message, fault: Fault)
    requires Consistent(t)
    ensures Consistent(AfterLiveLocationUpdate(t, msg, fault))
  {
  }

  lemma EndPreservesConsistency(t: Tables, msg: Message, now: int, dist: (Point, Point) -> real, fault: Fault)
    requires Consistent(t)
    ensures Consistent(AfterLiveLocationEnd(t, msg, now, dist, fault))
  {
    var r := AfterLiveLocationEnd(t, msg, now, dist, fault);
    assert |r.journeys| == |t.journeys| && forall i :: 0 <= i < |t.journeys| ==> r.journeys[i].id == t.journeys[i].id;
    forall i | 0 <= i < |r.coordinates| ensures HasJourney(r.journeys, r.coordinates[i].journeyId) {
      var k :| 0 <= k < |t.journeys| && t.journeys[k].id == t.coordinates[i].journeyId;
      assert r.journeys[k].id == r.coordinates[i].journeyId;
    }
  }

  /** A message without a location does nothing, a falsy `live_period` (absent or 0) takes the static path, which changes nothing, and a truthy one starts a journey. */
  lemma MessagePaths(t: Tables, msg: Message, fault: Fault)
    ensures msg.location.None? ==> AfterMessage(t, msg, fault) == t
    ensures msg.location.Some? && !TruthyNumber(msg.location.value.livePeriod) ==> AfterMessage(t, msg, fault) == t
    ensures msg.location.Some? && TruthyNumber(msg.location.value.livePeriod) ==>
      AfterMessage(t, msg, fault) == AfterLiveLocationStart(t, msg, fault)
  {
  }

  /** An edited message with a location always runs the update path first, and the end path on its result only when `live_period` is falsy. */
  lemma EditedMessagePaths(t: Tables, msg: Message, now: int, dist: (Point, Point) -> real, updateFault: Fault, endFault: Fault)
    requires msg.location.Some?
    ensures TruthyNumber(msg.location.value.livePeriod) ==>
      AfterEditedMessage(t, msg, now, dist, updateFault, endFault) == AfterLiveLocationUpdate(t, msg, updateFault)
    ensures !TruthyNumber(msg.location.value.livePeriod) ==>
      AfterEditedMessage(t, msg, now, dist, updateFault, endFault)
        == AfterLiveLocationEnd(AfterLiveLocationUpdate(t, msg, updateFault), msg, now, dist, endFault)
  {
  }

  /** Without a sender, a location or a representable date, the start path changes nothing. */
  lemma StartNoOp(t: Tables, msg: Message, fault: Fault)
    requires msg.from.None? || msg.location.None? || IsoInstant(msg.date).None?
    ensures AfterLiveLocationStart(t, msg, fault) == t
  {
  }

  /**
   * A start inserts exactly one journey, for the sender and starting at the
   * message date, then exactly one coordinate; the coordinate goes to the
   * user's journey with the greatest start time, which is the new journey
   * only when no earlier journey of the user starts later.
   */
  lemma StartCreatesJourney(t: Tables, msg: Message)
    requires Consistent(t)
    requires msg.from.Some? && msg.location.Some? && IsoInstant(msg.date).Some?
    ensures var r := AfterLiveLocationStart(t, msg, NoFault);
      var userId, loc, start := msg.from.value.id, msg.location.value, IsoInstant(msg.date).value;
      && r.journeys == t.journeys + [Journey(t.nextJourneyId, userId, start, None, None, None)]
      && |r.coordinates| == |t.coordinates| + 1
      && r.coordinates[..|t.coordinates|] == t.coordinates
      && var c := r.coordinates[|t.coordinates|];
      && c.latitude == loc.latitude && c.longitude == loc.longitude && c.timestamp == start
      && c.heading == loc.heading && c.horizontalAccuracy == loc.horizontalAccuracy
      && (exists k :: 0 <= k < |r.journeys| && r.journeys[k].id == c.journeyId && r.journeys[k].userId == userId
            && forall i :: 0 <= i < |r.journeys| && r.journeys[i].userId == userId ==> r.journeys[i].startTime <= r.journeys[k].startTime)
      && (c.journeyId == t.nextJourneyId <==>
            forall i :: 0 <= i < |t.journeys| && t.journeys[i].userId == userId ==> t.journeys[i].startTime <= start)
  {
    var userId, start := msg.from.value.id, IsoInstant(msg.date).value;
    var t1 := WithJourney(t, userId, start);
    var n := |t.journeys|;
    var k := LatestJourney(t1.journeys, userId).value;
    assert t1.journeys[..n] == t.journeys;
    var prev := LatestJourney(t.journeys, userId);
    if k == n {
      forall i | 0 <= i < n && t.journeys[i].userId == userId ensures t.journeys[i].startTime <= start {
        assert t1.journeys[i] == t.journeys[i];
      }
    } else {
      assert t1.journeys[k].id == t.journeys[k].id < t.nextJourneyId;
      assert t1.journeys[k].startTime > start;
    }
  }

  /** When storage fails on the coordinate insert, the new journey stays behind without coordinates. */
  lemma StartFaults(t: Tables, msg: Message)
    requires msg.from.Some? && msg.location.Some? && IsoInstant(msg.date).Some?
    ensures AfterLiveLocationStart(t, msg, FailAt(1)) == t
    ensures AfterLiveLocationStart(t, msg, FailAt(2)) == WithJourney(t, msg.from.value.id, IsoInstant(msg.date).value)
    ensures AfterLiveLocationStart(t, msg, FailAt(3)) == WithJourney(t, msg.from.value.id, IsoInstant(msg.date).value)
  {
  }

  /**
   * Nothing stops a second start while a journey is open: two starts for
   * the same user leave two journeys of that user without an end time.
   */
  lemma RepeatedStartOpensTwoJourneys(t: Tables, msg1: Message, msg2: Message)
    requires msg1.from.Some? && msg1.location.Some? && IsoInstant(msg1.date).Some?
    requires msg2.from.Some? && msg2.location.Some? && IsoInstant(msg2.date).Some?
    requires msg1.from.value.id == msg2.from.value.id
    ensures var r := AfterLiveLocationStart(AfterLiveLocationStart(t, msg1, NoFault), msg2, NoFault);
      && |r.journeys| == |t.journeys| + 2
      && r.journeys[|t.journeys|].userId == r.journeys[|t.journeys| + 1].userId == msg1.from.value.id
      && r.journeys[|t.journeys|].endTime.None? && r.journeys[|t.journeys| + 1].endTime.None?
  {
    var t1 := AfterLiveLocationStart(t, msg1, NoFault);
    assert |t1.journeys| == |t.journeys| + 1 && t1.journeys[|t.journeys|].endTime.None?;
  }

  /**
   * An update appends exactly one coordinate, with absent heading and
   * accuracy as null, to the user's latest-started journey whether or not
   * that journey has ended; it changes no journey row.
   */
  lemma UpdateAppendsCoordinate(t: Tables, msg: Message, k: nat)
    requires msg.from.Some? && msg.location.Some? && IsoInstant(msg.date).Some?
    requires LatestJourney(t.journeys, msg.from.value.id) == Some(k) && t.journeys[k].id != 0
    ensures var r := AfterLiveLocationUpdate(t, msg, NoFault); var loc := msg.location.value;
      && r.journeys == t.journeys
      && r.coordinates == t.coordinates + [Coordinate(t.nextCoordinateId, t.journeys[k].id, loc.latitude, loc.longitude,
                                                      IsoInstant(msg.date).value, loc.heading, loc.horizontalAccuracy)]
  {
  }

  /** With no journey for the user, or a falsy journey id, the update changes nothing. */
  lemma UpdateNoOp(t: Tables, msg: Message, fault: Fault)
    requires msg.from.Some?
    requires var k := LatestJourney(t.journeys, msg.from.value.id); k.None? || t.journeys[k.value].id == 0
    ensures AfterLiveLocationUpdate(t, msg, fault) == t
  {
  }

  /** With fewer than two coordinates the end path leaves every table as it was, so `end_time` stays as it was. */
  lemma EndShortTrace(t: Tables, msg: Message, now: int, dist: (Point, Point) -> real, fault: Fault, k: nat)
    requires msg.from.Some? && LatestJourney(t.journeys, msg.from.value.id) == Some(k)
    requires |TraceOf(t.coordinates, t.journeys[k].id)| < 2
    ensures AfterLiveLocationEnd(t, msg, now, dist, fault) == t
  {
  }

  /**
   * With two or more coordinates the end path sets `end_time`, `distance`
   * and `avg_speed` of the selected journey only, from its coordinates in
   * timestamp order and its own start time; no coordinate changes. It does not
   * look at `end_time`, so an already closed journey is closed again.
   */
  lemma EndClosesLatest(t: Tables, msg: Message, now: int, dist: (Point, Point) -> real, k: nat)
    requires Consistent(t)
    requires msg.from.Some? && LatestJourney(t.journeys, msg.from.value.id) == Some(k)
    requires |TraceOf(t.coordinates, t.journeys[k].id)| >= 2
    ensures var r := AfterLiveLocationEnd(t, msg, now, dist, NoFault);
      var j := t.journeys[k]; var trace := SortedTrace(t.coordinates, j.id);
      && r.coordinates == t.coordinates
      && |r.journeys| == |t.journeys|
      && (forall i :: 0 <= i < |t.journeys| && i != k ==> r.journeys[i] == t.journeys[i])
      && r.journeys[k] == j.(endTime := Some(now), distance := Some(TraceDistance(trace, dist)),
                             avgSpeed := Some(TraceSpeed(trace, j.startTime, dist)))
      && SortedBy(trace, EarlierThan)
      && multiset(trace) == multiset(TraceOf(t.coordinates, j.id))
  {
    var j := t.journeys[k];
    var trace := SortedTrace(t.coordinates, j.id);
    var d, v := TraceDistance(trace, dist), TraceSpeed(trace, j.startTime, dist);
    var r := AfterLiveLocationEnd(t, msg, now, dist, NoFault);
    assert r == WithJourneyClosed(t, j.id, now, d, v);
    ClosedRows(t, k, now, d, v);
    EarlierThanIsStrict();
    SortBySorted(TraceOf(t.coordinates, j.id), EarlierThan);
  }

  /** With unique ids, the update by id touches exactly the row at `k`. */
  lemma ClosedRows(t: Tables, k: nat, endTime: int, distance: real, avgSpeed: real)
    requires Consistent(t) && k < |t.journeys|
    ensures var r := WithJourneyClosed(t, t.journeys[k].id, endTime, distance, avgSpeed);
      && r.coordinates == t.coordinates
      && |r.journeys| == |t.journeys|
      && (forall i :: 0 <= i < |t.journeys| && i != k ==> r.journeys[i] == t.journeys[i])
      && r.journeys[k] == t.journeys[k].(endTime := Some(endTime), distance := Some(distance), avgSpeed := Some(avgSpeed))
  {
    var r := WithJourneyClosed(t, t.journeys[k].id, endTime, distance, avgSpeed);
    forall i | 0 <= i < |t.journeys| && i != k ensures r.journeys[i] == t.journeys[i] {
      assert t.journeys[i].id != t.journeys[k].id by {
        if i < k {} else {}
      }
    }
  }

  /**
   * The final ping of a session is part of the trace the statistics are
   * computed from: an edited message without `live_period` first appends its
   * coordinate, then closes the same journey over a trace containing it.
   */
  lemma EndIncludesFinalPing(t: Tables, msg: Message, now: int, dist: (Point, Point) -> real, k: nat)
    requires Consistent(t)
    requires msg.from.Some? && msg.location.Some? && !TruthyNumber(msg.location.value.livePeriod)
    requires IsoInstant(msg.date).Some?
    requires LatestJourney(t.journeys, msg.from.value.id) == Some(k) && t.journeys[k].id != 0
    ensures var r := AfterEditedMessage(t, msg, now, dist, NoFault, NoFault);
      var t1 := AfterLiveLocationUpdate(t, msg, NoFault);
      var ping := t1.coordinates[|t.coordinates|];
      var trace := SortedTrace(t1.coordinates, t.journeys[k].id);
      && ping in trace
      && r.coordinates == t1.coordinates == t.coordinates + [ping]
      && (|trace| >= 2 ==> r.journeys[k].distance == Some(TraceDistance(trace, dist)) && r.journeys[k].endTime == Some(now))
      && (|trace| < 2 ==> r.journeys == t.journeys)
  {
    var t1 := AfterLiveLocationUpdate(t, msg, NoFault);
    var r := AfterEditedMessage(t, msg, now, dist, NoFault, NoFault);
    UpdateAppendsCoordinate(t, msg, k);
    UpdatePreservesConsistency(t, msg, NoFault);
    EditedMessagePaths(t, msg, now, dist, NoFault, NoFault);
    assert r == AfterLiveLocationEnd(t1, msg, now, dist, NoFault);
    assert t1.journeys == t.journeys;
    assert LatestJourney(t1.journeys, msg.from.value.id) == Some(k);
    var ping := t1.coordinates[|t.coordinates|];
    var trace := SortedTrace(t1.coordinates, t.journeys[k].id);
    assert ping in TraceOf(t1.coordinates, t.journeys[k].id);
    EarlierThanIsStrict();
    SortBySorted(TraceOf(t1.coordinates, t.journeys[k].id), EarlierThan);
    assert ping in multiset(trace);
    if |trace| >= 2 {
      EndClosesLatest(t1, msg, now, dist, k);
    } else {
      EndShortTrace(t1, msg, now, dist, NoFault, k);
    }
  }
}
