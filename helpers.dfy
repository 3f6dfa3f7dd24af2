/**
 * src/utils/helpers.js: token generation, queue position, wait estimates and the
 * colour lookup tables. Clocks and random draws are parameters.
 */
module Helpers {
  import opened JsBuiltins
  import opened Fixtures

  // ---------------------------------------------------------------- wait times

  /** Default of `calculateWaitTime`'s `estimatedTime` and of `estimateWaitTime`'s `avgServiceTime`, in minutes. */
  const DefaultMinutes := 15
  const MsPerMinute := 1000 * 60

  /**
   * `calculateWaitTime(timestamp, estimatedTime)` read at time `now`: the estimate minus the whole
   * minutes elapsed since issue, never below zero. Times are milliseconds; Dafny's `/` by a positive
   * divisor rounds toward negative infinity, as `Math.floor` of the quotient does.
   */
  function CalculateWaitTime(issueTime: int, now: int, estimatedTime: int): (r: int)
    ensures r >= 0
    ensures r >= estimatedTime - (now - issueTime) / MsPerMinute
    ensures r == 0 || r == estimatedTime - (now - issueTime) / MsPerMinute
  {
    var elapsedMinutes := (now - issueTime) / MsPerMinute;
    var remaining := estimatedTime - elapsedMinutes;
    if remaining > 0 then remaining else 0
  }

  /** Once the ticket is issued the remaining time never exceeds the estimate, and within the first minute it is the estimate. */
  lemma RemainingWithinEstimate(issueTime: int, now: int, estimatedTime: int)
    requires issueTime <= now && estimatedTime >= 0
    ensures CalculateWaitTime(issueTime, now, estimatedTime) <= estimatedTime
    ensures now - issueTime < MsPerMinute ==> CalculateWaitTime(issueTime, now, estimatedTime) == estimatedTime
  {
    assert (now - issueTime) / MsPerMinute >= 0;
  }

  /** The remaining time never grows as the clock advances. */
  lemma RemainingNonIncreasing(issueTime: int, now1: int, now2: int, estimatedTime: int)
    requires now1 <= now2
    ensures CalculateWaitTime(issueTime, now2, estimatedTime) <= CalculateWaitTime(issueTime, now1, estimatedTime)
  {
    FloorDivMonotone(now1 - issueTime, now2 - issueTime);
  }

  lemma FloorDivMonotone(a: int, b: int)
    requires a <= b
    ensures a / MsPerMinute <= b / MsPerMinute
  {
    assert a == MsPerMinute * (a / MsPerMinute) + a % MsPerMinute;
    assert b == MsPerMinute * (b / MsPerMinute) + b % MsPerMinute;
  }

  /** `estimateWaitTime(position, avgServiceTime)`: minutes until a ticket at `position` is reached. */
  function EstimateWaitTime(position: int, avgServiceTime: int): (r: int)
    ensures position == 0 || avgServiceTime == 0 ==> r == 0
    ensures position >= 0 && avgServiceTime >= 0 ==> r >= 0
  {
    position * avgServiceTime
  }

  /** Nobody waits at position zero, and a later position never waits less. */
  lemma EstimateWaitTimeMonotone(p1: int, p2: int, avgServiceTime: int)
    requires 0 <= p1 <= p2 && avgServiceTime >= 0
    ensures EstimateWaitTime(0, avgServiceTime) == 0
    ensures 0 <= EstimateWaitTime(p1, avgServiceTime) <= EstimateWaitTime(p2, avgServiceTime)
  {
    assert EstimateWaitTime(p2, avgServiceTime) - EstimateWaitTime(p1, avgServiceTime) == (p2 - p1) * avgServiceTime;
  }

  // ---------------------------------------------------------------- tokens

  /** The `prefixes` table of `generateTokenNumber`, keyed by department id. */
  const TokenPrefixes: map<string, char> := map[
    "civil-registration" := 'A',
    "licenses-permits" := 'B',
    "treasury" := 'C',
    "driver-services" := 'D',
    "vehicle-services" := 'V'
  ]

  /** `prefixes[department] || 'X'`. */
  function TokenPrefix(department: string): (c: char)
    ensures department == "civil-registration" ==> c == 'A'
    ensures department == "licenses-permits" ==> c == 'B'
    ensures department == "treasury" ==> c == 'C'
    ensures department == "driver-services" ==> c == 'D'
    ensures department == "vehicle-services" ==> c == 'V'
    ensures c == 'X' <==> department !in {"civil-registration", "licenses-permits", "treasury", "driver-services", "vehicle-services"}
  {
    if department in TokenPrefixes then TokenPrefixes[department] else 'X'
  }

  /** The random number drawn by `generateTokenNumber`: `Math.floor(Math.random() * 99) + 1`. */
  predicate IsTokenDraw(n: int)
  {
    1 <= n <= 99
  }

  /**
   * `generateTokenNumber(department)` with its random draw `n` as a parameter: the prefix followed by
   * `n` padded with zeros to two digits. Nothing checks the token against tokens already issued.
   */
  function GenerateTokenNumber(department: string, n: int): (token: string)
    requires IsTokenDraw(n)
    ensures |token| >= 3 && token[0] == TokenPrefix(department)
  {
    [TokenPrefix(department)] + PadStart(NumberToString(n), 2, '0')
  }

  /** Every token is three characters: the department's prefix and two digits that read back as the draw. */
  lemma TokenFormat(department: string, n: int)
    requires IsTokenDraw(n)
    ensures var token := GenerateTokenNumber(department, n);
      && |token| == 3
      && token[0] == TokenPrefix(department)
      && IsDigit(token[1]) && IsDigit(token[2])
      && DigitsValue(token[1..]) == n
  {
    TwoDigitNumber(n);
    var token := GenerateTokenNumber(department, n);
    assert token[1..] == PadStart(NumberToString(n), 2, '0');
  }

  /** A number below 100 renders in at most two digits, and padded to two it still reads back as itself. */
  lemma TwoDigitNumber(n: nat)
    requires n <= 99
    ensures |PadStart(NumberToString(n), 2, '0')| == 2
    ensures forall i :: 0 <= i < 2 ==> IsDigit(PadStart(NumberToString(n), 2, '0')[i])
    ensures DigitsValue(PadStart(NumberToString(n), 2, '0')) == n
  {
    var s := NumberToString(n);
    NumberToStringRoundTrip(n);
    if n < 10 {
      var p := PadStart(s, 2, '0');
      assert p == ['0'] + s;
      assert p[..1] == ['0'];
    } else {
      assert s == NumberToString(n / 10) + [DigitChar(n % 10)];
      assert |s| == 2;
    }
  }

  /** Different draws in the same department give different tokens; different prefixes never collide. */
  lemma TokenDecodes(d1: string, n1: int, d2: string, n2: int)
    requires IsTokenDraw(n1) && IsTokenDraw(n2)
    ensures GenerateTokenNumber(d1, n1) == GenerateTokenNumber(d2, n2) <==> n1 == n2 && TokenPrefix(d1) == TokenPrefix(d2)
  {
    var t1, t2 := GenerateTokenNumber(d1, n1), GenerateTokenNumber(d2, n2);
    TokenFormat(d1, n1);
    TokenFormat(d2, n2);
    if n1 == n2 && TokenPrefix(d1) == TokenPrefix(d2) {
      assert t1 == [TokenPrefix(d1)] + PadStart(NumberToString(n1), 2, '0') == t2;
    }
    if t1 == t2 {
      assert t1[1..] == t2[1..];
      assert t1[0] == t2[0];
    }
  }

  // ---------------------------------------------------------------- queue position

  /** `getQueuePosition(token, queue)`: 1 + the index of the first item with that token, 0 without one. */
  function GetQueuePosition(token: string, queue: seq<QueueItem>): (p: nat)
    ensures p <= |queue|
    ensures p > 0 ==> queue[p - 1].token == token && forall j :: 0 <= j < p - 1 ==> queue[j].token != token
    ensures p == 0 <==> forall j :: 0 <= j < |queue| ==> queue[j].token != token
  {
    var position := FindIndex(queue, (item: QueueItem) => item.token == token);
    if position >= 0 then position + 1 else 0
  }

  // ---------------------------------------------------------------- colour tables

  const DefaultColor := "bg-gray-100 text-gray-800"

  /** The `colors` table of `getStatusColor`. */
  const StatusColors: map<string, string> := map[
    Waiting := "bg-yellow-100 text-yellow-800",
    InProgress := "bg-blue-100 text-blue-800",
    Completed := "bg-green-100 text-green-800",
    NoShow := "bg-red-100 text-red-800"
  ]

  /** `getStatusColor(status)`: the class of a known status, gray for anything else. */
  function GetStatusColor(status: string): (r: string)
    ensures status == Waiting ==> r == "bg-yellow-100 text-yellow-800"
    ensures status == InProgress ==> r == "bg-blue-100 text-blue-800"
    ensures status == Completed ==> r == "bg-green-100 text-green-800"
    ensures status == NoShow ==> r == "bg-red-100 text-red-800"
    ensures r == DefaultColor <==> status !in {Waiting, InProgress, Completed, NoShow}
  {
    if status in StatusColors then StatusColors[status] else DefaultColor
  }

  /** The `colors` table of `getDepartmentColor`, keyed by department display name. */
  const DepartmentColors: map<string, string> := map[
    "Civil Registration" := "bg-blue-100 text-blue-800",
    "Licenses & Permits" := "bg-green-100 text-green-800",
    "Treasury Department" := "bg-yellow-100 text-yellow-800",
    "Driver Services" := "bg-purple-100 text-purple-800",
    "Vehicle Services" := "bg-red-100 text-red-800"
  ]

  /** `getDepartmentColor(department)`: the class of a known department, gray for anything else. */
  function GetDepartmentColor(department: string): (r: string)
    ensures department == "Civil Registration" ==> r == "bg-blue-100 text-blue-800"
    ensures department == "Licenses & Permits" ==> r == "bg-green-100 text-green-800"
    ensures department == "Treasury Department" ==> r == "bg-yellow-100 text-yellow-800"
    ensures department == "Driver Services" ==> r == "bg-purple-100 text-purple-800"
    ensures department == "Vehicle Services" ==> r == "bg-red-100 text-red-800"
    ensures r == DefaultColor <==>
      department !in {"Civil Registration", "Licenses & Permits", "Treasury Department", "Driver Services", "Vehicle Services"}
  {
    if department in DepartmentColors then DepartmentColors[department] else DefaultColor
  }
}
