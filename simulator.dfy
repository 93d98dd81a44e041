/** The load generator's vehicle: a compactor driving back and forth along a
    line, turning every 500 ticks and shifting sideways by one lane at each
    turn, publishing one telemetry point per tick.
    Positions are counted in whole units: latitude in movement steps
    (0.0000015 degrees), longitude in lane shifts (0.00001 degrees); the
    configured start position is given in the same units. Sensor noise, the
    clock and the MQTT client are outside the model. */
module Simulator {
  import opened Telemetry

  const TicksBeforeTurn := 500
  const MovementStep: real := 0.0000015
  const LaneShift: real := 0.00001
  const StartElevation: real := 100.0

  /** One vehicle of the simulation configuration. */
  datatype VehicleConfig = VehicleConfig(vehicleId: string, startLatitude: int, startLongitude: int, publishRateHz: int)

  /** The state `UpdatePosition` works on. */
  datatype Pose = Pose(lat: int, lon: int, movingForward: bool, ticksSinceTurn: int)

  /** One tick of the vehicle: a step along the current direction, and every
      500th tick a reversal with a one-lane shift. */
  function Advance(p: Pose): (r: Pose)
    ensures r.lat == p.lat + (if p.movingForward then 1 else -1)
    ensures 0 <= p.ticksSinceTurn < TicksBeforeTurn ==> 0 <= r.ticksSinceTurn < TicksBeforeTurn
    ensures r.lon == p.lon || r.lon == p.lon + 1
  {
    var lat := if p.movingForward then p.lat + 1 else p.lat - 1;
    var ticks := p.ticksSinceTurn + 1;
    if ticks >= TicksBeforeTurn then Pose(lat, p.lon + 1, !p.movingForward, 0)
    else Pose(lat, p.lon, p.movingForward, ticks)
  }

  function AdvanceN(p: Pose, n: nat): Pose
  {
    if n == 0 then p else Advance(AdvanceN(p, n - 1))
  }

  /** Where `n` ticks lead from a pose that has just turned: after `n / 500`
      turns the lane has shifted that often and the direction has flipped that
      often, and the vehicle is `n % 500` steps into the current pass. */
  function Expected(p: Pose, n: nat): Pose
  {
    var turns, into := n / TicksBeforeTurn, n % TicksBeforeTurn;
    var out := if turns % 2 == 0 then into else TicksBeforeTurn - into;
    Pose(if p.movingForward then p.lat + out else p.lat - out,
         p.lon + turns,
         if turns % 2 == 0 then p.movingForward else !p.movingForward,
         into)
  }

  /** The closed form of `n` ticks from a pose with `ticksSinceTurn == 0`. */
  lemma {:induction false} AdvanceClosedForm(p: Pose, n: nat)
    requires p.ticksSinceTurn == 0
    ensures AdvanceN(p, n) == Expected(p, n)
  {
    if n > 0 {
      AdvanceClosedForm(p, n - 1);
      var turns, into := (n - 1) / TicksBeforeTurn, (n - 1) % TicksBeforeTurn;
      if into + 1 < TicksBeforeTurn {
        assert n / TicksBeforeTurn == turns && n % TicksBeforeTurn == into + 1;
      } else {
        assert n / TicksBeforeTurn == turns + 1 && n % TicksBeforeTurn == 0;
      }
    }
  }

  /** Every 1000 ticks from a turn the vehicle is back on its starting
      latitude, heading the same way, two lanes further over. */
  lemma BackEveryThousandTicks(p: Pose, n: nat)
    requires p.ticksSinceTurn == 0
    requires n % (2 * TicksBeforeTurn) == 0
    ensures AdvanceN(p, n) == p.(lon := p.lon + n / TicksBeforeTurn)
  {
    AdvanceClosedForm(p, n);
    var q := n / (2 * TicksBeforeTurn);
    assert n == q * (2 * TicksBeforeTurn);
    assert n / TicksBeforeTurn == 2 * q && n % TicksBeforeTurn == 0;
  }

  /** Between calls the tick counter stays in [0, 500). */
  lemma {:induction false} TicksStayInRange(p: Pose, n: nat)
    requires 0 <= p.ticksSinceTurn < TicksBeforeTurn
    ensures 0 <= AdvanceN(p, n).ticksSinceTurn < TicksBeforeTurn
  {
    if n > 0 {
      TicksStayInRange(p, n - 1);
    }
  }

  /** The absolute value. */
  function Abs(x: int): nat
  {
    if x < 0 then -x else x
  }

  /** `1000 / PublishRateHz` with C#'s integer division, which truncates toward
      zero; a rate of 0 throws `DivideByZeroException` (`None`). For the
      positive dividend 1000, truncation leaves a remainder in [0, |rate|). */
  function DelayMs(publishRateHz: int): (r: Option<int>)
    ensures r.None? <==> publishRateHz == 0
    ensures r.Some? && publishRateHz > 0 ==> r.value >= 0
    ensures r.Some? && publishRateHz < 0 ==> r.value <= 0
  {
    if publishRateHz == 0 then None
    else
      var q := 1000 / Abs(publishRateHz);
      Some(if publishRateHz > 0 then q else -q)
  }

  /** The delay is 1000 divided by the rate, truncated toward zero: the
      milliseconds left over are fewer than the rate's magnitude. */
  lemma DelayIsTruncatedQuotient(publishRateHz: int)
    requires publishRateHz != 0
    ensures 0 <= 1000 - DelayMs(publishRateHz).value * publishRateHz < Abs(publishRateHz)
  {
    var q := 1000 / Abs(publishRateHz);
    assert 0 <= 1000 - q * Abs(publishRateHz) < Abs(publishRateHz);
    if publishRateHz < 0 {
      assert DelayMs(publishRateHz).value * publishRateHz == q * Abs(publishRateHz);
    }
  }

  lemma DelayExamples()
    ensures DelayMs(50) == Some(20)
    ensures DelayMs(3) == Some(333)
    ensures DelayMs(2000) == Some(0)
    ensures DelayMs(-3) == Some(-333)
  {
  }

  // Decimal rendering of the site id, and its inverse

  predicate IsDigits(s: string)
  {
    forall i :: 0 <= i < |s| ==> '0' <= s[i] <= '9'
  }

  function DigitChar(d: nat): (c: char)
    requires d < 10
    ensures '0' <= c <= '9' && c as int - '0' as int == d
  {
    ['0', '1', '2', '3', '4', '5', '6', '7', '8', '9'][d]
  }

  function NatToString(n: nat): (s: string)
    ensures |s| > 0 && IsDigits(s)
  {
    (if n < 10 then "" else NatToString(n / 10)) + [DigitChar(n % 10)]
  }

  /** What string interpolation writes for an int. */
  function IntToString(n: int): string
  {
    if n < 0 then "-" + NatToString(-n) else NatToString(n)
  }

  function DigitsValue(s: string): nat
    requires IsDigits(s)
  {
    if s == [] then 0
    else DigitsValue(s[..|s| - 1]) * 10 + (s[|s| - 1] as int - '0' as int)
  }

  function ParseInt(s: string): Option<int>
  {
    if |s| > 0 && IsDigits(s) then Some(DigitsValue(s))
    else if |s| > 1 && s[0] == '-' && IsDigits(s[1..]) then
      var magnitude: int := DigitsValue(s[1..]);
      Some(-magnitude)
    else None
  }

  lemma {:induction false} NatToStringRoundTrip(n: nat)
    ensures DigitsValue(NatToString(n)) == n
  {
    var s := NatToString(n);
    assert s[..|s| - 1] == if n < 10 then "" else NatToString(n / 10);
    if n >= 10 {
      NatToStringRoundTrip(n / 10);
    }
  }

  lemma DigitsHaveNoSlash(s: string)
    requires IsDigits(s)
    ensures '/' !in s
  {
  }

  lemma NegativeRoundTrip(digits: string)
    requires |digits| > 0 && IsDigits(digits)
    ensures ParseInt("-" + digits) == Some(-(DigitsValue(digits) as int))
    ensures '/' !in "-" + digits
  {
    var s := "-" + digits;
    assert s[1..] == digits;
    assert !IsDigits(s) by {
      assert s[0] == '-';
    }
    assert s == ['-'] + digits;
  }

  lemma IntToStringRoundTrip(n: int)
    ensures ParseInt(IntToString(n)) == Some(n)
    ensures '/' !in IntToString(n)
  {
    NatToStringRoundTrip(Abs(n));
    DigitsHaveNoSlash(NatToString(Abs(n)));
    if n < 0 {
      NegativeRoundTrip(NatToString(-n));
    }
  }

  // Topic segments

  function IndexOfSlash(s: string): (i: nat)
    ensures i <= |s|
    ensures i < |s| ==> s[i] == '/'
    ensures '/' !in s[..i]
  {
    if s == [] then 0
    else if s[0] == '/' then 0
    else
      var j := IndexOfSlash(s[1..]);
      assert s[..1 + j] == [s[0]] + s[1..][..j];
      1 + j
  }

  /** The '/'-separated segments of a topic. */
  function Split(s: string): (parts: seq<string>)
    ensures parts != []
    decreases |s|
  {
    var i := IndexOfSlash(s);
    if i == |s| then [s] else [s[..i]] + Split(s[i + 1..])
  }

  function Join(parts: seq<string>): string
    requires parts != []
  {
    if |parts| == 1 then parts[0] else parts[0] + "/" + Join(parts[1..])
  }

  lemma {:induction false} IndexOfSlashIsFirst(a: string, rest: string)
    requires '/' !in a
    ensures IndexOfSlash(a + rest) == |a| + IndexOfSlash(rest)
  {
    if a == [] {
      assert a + rest == rest;
    } else {
      assert (a + rest)[0] == a[0] && (a + rest)[1..] == a[1..] + rest;
      IndexOfSlashIsFirst(a[1..], rest);
    }
  }

  lemma {:induction false} SplitJoin(parts: seq<string>)
    requires parts != []
    requires forall i :: 0 <= i < |parts| ==> '/' !in parts[i]
    ensures Split(Join(parts)) == parts
  {
    var s := Join(parts);
    if |parts| == 1 {
      IndexOfSlashIsFirst(parts[0], "");
      assert parts[0] + "" == parts[0];
    } else {
      var rest := Join(parts[1..]);
      IndexOfSlashIsFirst(parts[0], "/" + rest);
      assert s == parts[0] + ("/" + rest);
      assert s[..|parts[0]|] == parts[0];
      assert s[|parts[0]| + 1..] == rest;
      SplitJoin(parts[1..]);
    }
  }

  /** The MQTT topic a vehicle publishes on: its five segments joined by '/',
      which is the interpolated `site/{siteId}/vehicle/{vehicleId}/telemetry`. */
  function Topic(siteId: int, vehicleId: string): (t: string)
    ensures t == "site" + "/" + IntToString(siteId) + "/" + "vehicle" + "/" + vehicleId + "/" + "telemetry"
  {
    JoinFive("site", IntToString(siteId), "vehicle", vehicleId, "telemetry");
    Join(["site", IntToString(siteId), "vehicle", vehicleId, "telemetry"])
  }

  /** Joining one more segment appends '/' and that segment. */
  lemma {:induction false} JoinSnoc(parts: seq<string>, x: string)
    requires parts != []
    ensures Join(parts + [x]) == Join(parts) + "/" + x
    decreases |parts|
  {
    if |parts| == 1 {
      assert (parts + [x])[1..] == [x];
    } else {
      assert (parts + [x])[1..] == parts[1..] + [x];
      JoinSnoc(parts[1..], x);
      var h, j := parts[0], Join(parts[1..]);
      assert h + "/" + (j + "/" + x) == h + "/" + j + "/" + x;
    }
  }

  lemma JoinFive(a: string, b: string, c: string, d: string, e: string)
    ensures Join([a, b, c, d, e]) == a + "/" + b + "/" + c + "/" + d + "/" + e
  {
    assert Join([a]) == a;
    assert [a] + [b] == [a, b];
    JoinSnoc([a], b);
    assert [a, b] + [c] == [a, b, c];
    JoinSnoc([a, b], c);
    assert [a, b, c] + [d] == [a, b, c, d];
    JoinSnoc([a, b, c], d);
    assert [a, b, c, d] + [e] == [a, b, c, d, e];
    JoinSnoc([a, b, c, d], e);
  }

  /** Reads the site id and vehicle id back out of a telemetry topic. */
  function ParseTopic(topic: string): Option<(int, string)>
  {
    var parts := Split(topic);
    if |parts| == 5 && parts[0] == "site" && parts[2] == "vehicle" && parts[4] == "telemetry" then
      match ParseInt(parts[1])
      case None => None
      case Some(siteId) => Some((siteId, parts[3]))
    else None
  }

  /** Both ids can be read back from the topic when the vehicle id has no '/'. */
  lemma TopicRoundTrip(siteId: int, vehicleId: string)
    requires '/' !in vehicleId
    ensures ParseTopic(Topic(siteId, vehicleId)) == Some((siteId, vehicleId))
  {
    IntToStringRoundTrip(siteId);
    TopicSplits(IntToString(siteId), vehicleId);
    ParseFive(Topic(siteId, vehicleId), IntToString(siteId), vehicleId);
  }

  lemma TopicSplits(site: string, vehicleId: string)
    requires '/' !in site && '/' !in vehicleId
    ensures Split(Join(["site", site, "vehicle", vehicleId, "telemetry"])) == ["site", site, "vehicle", vehicleId, "telemetry"]
  {
    var parts := ["site", site, "vehicle", vehicleId, "telemetry"];
    assert '/' !in "site" && '/' !in "vehicle" && '/' !in "telemetry";
    assert forall i :: 0 <= i < |parts| ==> '/' !in parts[i];
    SplitJoin(parts);
  }

  lemma ParseFive(t: string, site: string, vehicleId: string)
    requires Split(t) == ["site", site, "vehicle", vehicleId, "telemetry"]
    ensures ParseTopic(t) == match ParseInt(site) case None => None case Some(n) => Some((n, vehicleId))
  {
  }

  // Progress log counter

  /** `messageCount++ == 100` after a successful publish: the new counter, and
      whether the progress line is logged (the counter is then reset). */
  function AfterPublish(count: int): (r: (int, bool))
    ensures r.1 <==> count == 100
    ensures 0 <= count <= 100 ==> 0 <= r.0 <= 100
    ensures r.1 ==> r.0 == 0
  {
    if count == 100 then (0, true) else (count + 1, false)
  }

  /** The counter and the number of progress lines after `n` successful publishes. */
  function ProgressAfter(n: nat): (int, nat)
  {
    if n == 0 then (0, 0)
    else
      var (count, logs) := ProgressAfter(n - 1);
      var (next, logged) := AfterPublish(count);
      (next, logs + (if logged then 1 else 0))
  }

  /** The progress line is logged on the 101st successful publish and every
      101st after that. */
  lemma {:induction false} ProgressEvery101(n: nat)
    ensures ProgressAfter(n) == (n % 101, n / 101)
    ensures n > 0 ==> (AfterPublish(ProgressAfter(n - 1).0).1 <==> n % 101 == 0)
  {
    if n > 0 {
      ProgressEvery101(n - 1);
    }
  }

  /** What the environment answers on one tick: the clock, the random sensor
      readings, and whether the publish succeeded. */
  datatype TickInput = TickInput(now: int, vibrationFrequency: real, compactionValue: real, speed: real, publishOk: bool)

  datatype Message = Message(topic: string, point: Point)

  datatype RunOutcome = DivideByZero | Ran(published: seq<Message>, progressLogs: nat)

  function Successes(ticks: seq<TickInput>): nat
  {
    CountWhere(ticks, (t: TickInput) => t.publishOk)
  }

  /** Ticks actually run: a negative delay makes the first `Task.Delay` throw
      (or, for -1, wait forever), so no second tick starts. */
  function TicksRun(count: nat, delayMs: int): nat
  {
    if delayMs < 0 && count > 1 then 1 else count
  }

  /** A message as vehicle `vehicleId` of site `siteId` publishes it: on its own
      topic, carrying its own ids. */
  predicate Announces(m: Message, siteId: int, vehicleId: string)
  {
    m.topic == Topic(siteId, vehicleId) && m.point.vehicleId == vehicleId && m.point.siteId == siteId
  }

  /** The point vehicle `vehicleId` of site `siteId` publishes from pose `p` at
      `elevation`, with the tick's clock and sensor readings (the elevation's
      sensor noise left out). */
  function ReadingAt(vehicleId: string, siteId: int, p: Pose, elevation: real, t: TickInput): (r: Point)
    ensures r.vehicleId == vehicleId && r.siteId == siteId
  {
    Point(t.now, vehicleId, siteId, p.lat as real * MovementStep, p.lon as real * LaneShift, elevation,
          t.vibrationFrequency, t.compactionValue, t.speed)
  }

  /** The messages a run over `ticks` publishes from pose `start`, in tick
      order: tick `j` first moves the vehicle to `AdvanceN(start, j + 1)`, and
      if its publish succeeds it sends the reading taken there, on the
      vehicle's topic. */
  function Published(vehicleId: string, siteId: int, start: Pose, elevation: real, ticks: seq<TickInput>): seq<Message>
  {
    if ticks == [] then []
    else
      var j := |ticks| - 1;
      Published(vehicleId, siteId, start, elevation, ticks[..j])
      + if ticks[j].publishOk
        then [Message(Topic(siteId, vehicleId), ReadingAt(vehicleId, siteId, AdvanceN(start, j + 1), elevation, ticks[j]))]
        else []
  }

  /** One message per successful publish, each on the vehicle's topic with its ids. */
  lemma {:induction false} PublishedPerSuccess(vehicleId: string, siteId: int, start: Pose, elevation: real, ticks: seq<TickInput>)
    ensures |Published(vehicleId, siteId, start, elevation, ticks)| == Successes(ticks)
    ensures forall k :: 0 <= k < |Published(vehicleId, siteId, start, elevation, ticks)| ==>
              Announces(Published(vehicleId, siteId, start, elevation, ticks)[k], siteId, vehicleId)
  {
    if ticks != [] {
      PublishedPerSuccess(vehicleId, siteId, start, elevation, ticks[..|ticks| - 1]);
    }
  }

  /** A run that only publishes successfully sends, as its `k`-th message, the
      reading taken after `k + 1` moves with the `k`-th tick's inputs. */
  lemma {:induction false} PublishedWhenAllSucceed(vehicleId: string, siteId: int, start: Pose, elevation: real, ticks: seq<TickInput>)
    requires forall j :: 0 <= j < |ticks| ==> ticks[j].publishOk
    ensures |Published(vehicleId, siteId, start, elevation, ticks)| == |ticks|
    ensures forall k :: 0 <= k < |ticks| ==>
              Published(vehicleId, siteId, start, elevation, ticks)[k]
              == Message(Topic(siteId, vehicleId), ReadingAt(vehicleId, siteId, AdvanceN(start, k + 1), elevation, ticks[k]))
  {
    if ticks != [] {
      PublishedWhenAllSucceed(vehicleId, siteId, start, elevation, ticks[..|ticks| - 1]);
    }
  }

  class VehicleSimulator {
    const config: VehicleConfig
    const siteId: int
    var currentLat: int
    var currentLon: int
    var currentElevation: real
    var movingForward: bool
    var ticksSinceTurn: int

    function Position(): Pose
      reads this
    {
      Pose(currentLat, currentLon, movingForward, ticksSinceTurn)
    }

    ghost predicate Valid()
      reads this
    {
      0 <= ticksSinceTurn < TicksBeforeTurn
    }

    /** Starts at the configured position, 100 m up, moving forward, at a turn. */
    constructor (config: VehicleConfig, siteId: int)
      ensures Valid()
      ensures this.config == config && this.siteId == siteId
      ensures Position() == Pose(config.startLatitude, config.startLongitude, true, 0)
      ensures currentElevation == StartElevation
    {
      this.config := config;
      this.siteId := siteId;
      currentLat := config.startLatitude;
      currentLon := config.startLongitude;
      currentElevation := StartElevation;
      movingForward := true;
      ticksSinceTurn := 0;
    }

    /** One step along the line; every 500th call reverses and shifts a lane.
        The elevation is never changed. */
    method UpdatePosition()
      requires Valid()
      modifies this
      ensures Valid()
      ensures Position() == Advance(old(Position()))
      ensures currentElevation == old(currentElevation)
    {
      if movingForward {
        currentLat := currentLat + 1;
      } else {
        currentLat := currentLat - 1;
      }
      ticksSinceTurn := ticksSinceTurn + 1;
      if ticksSinceTurn >= TicksBeforeTurn {
        movingForward := !movingForward;
        ticksSinceTurn := 0;
        currentLon := currentLon + 1;
      }
    }

    /** Steps 1 to 4 of one tick: move, build the point, address it to the
        vehicle's topic. */
    method NextMessage(t: TickInput) returns (m: Message)
      requires Valid()
      modifies this
      ensures Valid()
      ensures Position() == Advance(old(Position())) && currentElevation == old(currentElevation)
      ensures m == Message(Topic(siteId, config.vehicleId),
                           ReadingAt(config.vehicleId, siteId, Position(), currentElevation, t))
    {
      UpdatePosition();
      var telemetry := ReadingAt(config.vehicleId, siteId, Position(), currentElevation, t);
      var topic := Topic(siteId, config.vehicleId);
      m := Message(topic, telemetry);
    }

    /** The publishing loop over the ticks before cancellation: move, build the
        point, publish it on the vehicle's topic, count successful publishes
        for the progress line, wait. */
    method RunAsync(ticks: seq<TickInput>) returns (outcome: RunOutcome)
      requires Valid()
      modifies this
      ensures Valid()
      ensures outcome.DivideByZero? <==> config.publishRateHz == 0
      ensures outcome.DivideByZero? ==> Position() == old(Position())
      ensures outcome.Ran? ==>
                var n := TicksRun(|ticks|, DelayMs(config.publishRateHz).value);
                && Position() == AdvanceN(old(Position()), n)
                && outcome.published
                   == Published(config.vehicleId, siteId, old(Position()), old(currentElevation), ticks[..n])
                && |outcome.published| == Successes(ticks[..n])
                && outcome.progressLogs == Successes(ticks[..n]) / 101
      ensures currentElevation == old(currentElevation)
    {
      var delay := DelayMs(config.publishRateHz);
      if delay.None? {
        return DivideByZero;
      }
      var delayMs := delay.value;
      var n := TicksRun(|ticks|, delayMs);
      ghost var start := Position();
      ghost var elevation := currentElevation;
      var published: seq<Message> := [];
      var logs: nat := 0;
      var messageCount := 0;
      var i := 0;
      while i < n
        invariant 0 <= i <= n <= |ticks|
        invariant Valid() && currentElevation == elevation
        invariant Position() == AdvanceN(start, i)
        invariant published == Published(config.vehicleId, siteId, start, elevation, ticks[..i])
        invariant ProgressAfter(|published|) == (messageCount, logs)
      {
        var message := NextMessage(ticks[i]);
        assert ticks[..i + 1][..i] == ticks[..i];
        if ticks[i].publishOk {
          published := published + [message];
          var next := AfterPublish(messageCount);
          messageCount := next.0;
          if next.1 {
            logs := logs + 1;
          }
        }
        i := i + 1;
      }
      PublishedPerSuccess(config.vehicleId, siteId, start, elevation, ticks[..n]);
      ProgressEvery101(|published|);
      return Ran(published, logs);
    }
  }
}
