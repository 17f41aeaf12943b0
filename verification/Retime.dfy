// Revision c5e9a03b1f47: every point of a stored equity curve moves by its run's timeframe, back on
// upgrade and forward on downgrade.
module Retime {
  import opened Common

  // ---------------------------------------------------------------- time

  const MICROSECOND_STEPS: int := 1_000_000
  const END_OF_TIME: int := 3_652_059 * 86_400 * 1_000_000   // the first microsecond of the year 10000

  // A datetime: the microseconds its wall clock shows since the start of the year 1, and its offset
  // from UTC if it carries one. Adding a timedelta moves the wall clock and keeps the offset.
  datatype When = When(wall: int, offset: Option<int>)

  predicate InRange(wall: int) {
    0 <= wall < END_OF_TIME
  }

  // fromisoformat and isoformat. A text may be read that would not be written the same way.
  datatype Iso = Iso(read: string -> Option<When>, write: When -> string)

  ghost predicate Lawful(iso: Iso) {
    && (forall s: string :: iso.read(s).Some? ==> InRange(iso.read(s).value.wall))
    && (forall w: When :: InRange(w.wall) ==> iso.read(iso.write(w)) == Some(w))
  }

  // ---------------------------------------------------------------- one curve

  // Unreadable leaves a row alone; the others are exceptions, which end the migration.
  datatype Trouble = Unreadable | OutOfRange | BadConfig

  predicate IsPoint(iso: Iso, p: Json) {
    p.Arr? && |p.items| == 2 && p.items[0].Str? && iso.read(p.items[0].text).Some?
  }

  function Dated(iso: Iso, p: Json): When
    requires IsPoint(iso, p)
  {
    iso.read(p.items[0].text).value
  }

  function ShiftPoint(iso: Iso, p: Json, delta: int): Result<Json, Trouble> {
    if !IsPoint(iso, p) then Err(Unreadable)
    else
      var w := Dated(iso, p);
      if !InRange(w.wall + delta) then Err(OutOfRange)
      else Ok(Arr([Str(iso.write(w.(wall := w.wall + delta))), p.items[1]]))
  }

  // The first point in trouble decides.
  function Shift(iso: Iso, curve: seq<Json>, delta: int): Result<seq<Json>, Trouble> {
    if curve == [] then Ok([])
    else
      var before := Shift(iso, curve[..|curve| - 1], delta);
      var last := ShiftPoint(iso, curve[|curve| - 1], delta);
      if before.Err? then before
      else if last.Err? then Err(last.error)
      else Ok(before.value + [last.value])
  }

  method Shifted(iso: Iso, curve: seq<Json>, delta: int) returns (r: Result<seq<Json>, Trouble>)
    ensures r == Shift(iso, curve, delta)
  {
    var moved: seq<Json> := [];
    for i := 0 to |curve|
      invariant Shift(iso, curve[..i], delta) == Ok(moved)
    {
      var point := curve[i];
      assert curve[..i + 1][..i] == curve[..i];
      if !point.Arr? || |point.items| != 2 || !point.items[0].Str? {
        StopsAt(iso, curve, delta, i + 1);
        return Err(Unreadable);
      }
      var stamp, equity := point.items[0].text, point.items[1];
      var read := iso.read(stamp);
      if read.None? {
        StopsAt(iso, curve, delta, i + 1);
        return Err(Unreadable);
      }
      var wall := read.value.wall + delta;
      if !InRange(wall) {
        StopsAt(iso, curve, delta, i + 1);
        return Err(OutOfRange);
      }
      moved := moved + [Arr([Str(iso.write(read.value.(wall := wall))), equity])];
    }
    assert curve[..|curve|] == curve;
    return Ok(moved);
  }

  lemma {:induction false} StopsAt(iso: Iso, curve: seq<Json>, delta: int, n: nat)
    requires n <= |curve| && Shift(iso, curve[..n], delta).Err?
    ensures Shift(iso, curve, delta) == Shift(iso, curve[..n], delta)
    decreases |curve| - n
  {
    if n < |curve| {
      assert curve[..n + 1][..n] == curve[..n];
      StopsAt(iso, curve, delta, n + 1);
    } else {
      assert curve[..n] == curve;
    }
  }

  // ---------------------------------------------------------------- one row

  const TIMEFRAME_SECONDS: map<string, int> :=
    map["1m" := 60, "5m" := 300, "15m" := 900, "30m" := 1800, "1h" := 3600, "4h" := 14400, "1d" := 86400]

  // A run as stored; the curve is None where the column is NULL.
  datatype Run = Run(config: Json, curve: Option<Json>)

  predicate Falsy(j: Json) {
    match j
    case Null => true
    case Bool(b) => !b
    case Num(n) => n == 0
    case Str(s) => s == ""
    case Arr(items) => items == []
    case Obj(fields) => fields == map[]
  }

  // The timeframe's length if this migration knows it. A config that is not an object has no `get`.
  function Step(config: Json): Result<Option<int>, Trouble> {
    if Falsy(config) then Ok(None)
    else if !config.Obj? then Err(BadConfig)
    else if "timeframe" !in config.fields || !config.fields["timeframe"].Str?
            || config.fields["timeframe"].text !in TIMEFRAME_SECONDS then Ok(None)
    else Ok(Some(TIMEFRAME_SECONDS[config.fields["timeframe"].text] * MICROSECOND_STEPS))
  }

  predicate HasCurve(row: Run) {
    row.curve.Some? && row.curve.value.Arr? && row.curve.value.items != []
  }

  function Points(row: Run): seq<Json>
    requires HasCurve(row)
  {
    row.curve.value.items
  }

  // A row this migration concerns itself with.
  predicate Concerned(row: Run) {
    HasCurve(row) && Step(row.config).Ok? && Step(row.config).value.Some?
  }

  function Delta(row: Run, sign: int): int
    requires Concerned(row)
  {
    sign * Step(row.config).value.value
  }

  function RetimeRow(iso: Iso, row: Run, sign: int): Result<Run, Trouble> {
    if !HasCurve(row) then Ok(row)
    else if Step(row.config).Err? then Err(Step(row.config).error)
    else if Step(row.config).value.None? then Ok(row)
    else
      match Shift(iso, Points(row), Delta(row, sign))
      case Ok(moved) => Ok(row.(curve := Some(Arr(moved))))
      case Err(Unreadable) => Ok(row)
      case Err(trouble) => Err(trouble)
  }

  // ---------------------------------------------------------------- the migration

  // The table as a pass over it leaves it, if it goes through.
  ghost predicate Retimed(iso: Iso, rows: seq<Run>, after: seq<Run>, sign: int) {
    |after| == |rows| && forall i :: 0 <= i < |rows| ==> RetimeRow(iso, rows[i], sign) == Ok(after[i])
  }

  class Runs {
    var rows: seq<Run>

    constructor (rows: seq<Run>)
      ensures this.rows == rows
    {
      this.rows := rows;
    }

    // Row by row inside one transaction, which an exception rolls back.
    method Retime(iso: Iso, sign: int) returns (done: bool)
      modifies this
      ensures done <==> forall i :: 0 <= i < |old(rows)| ==> RetimeRow(iso, old(rows)[i], sign).Ok?
      ensures done ==> Retimed(iso, old(rows), rows, sign)
      ensures !done ==> rows == old(rows)
    {
      var stored := rows;
      var table := stored;
      for i := 0 to |stored|
        invariant rows == stored && |table| == |stored|
        invariant forall k :: 0 <= k < i ==> RetimeRow(iso, stored[k], sign) == Ok(table[k])
        invariant forall k :: i <= k < |stored| ==> table[k] == stored[k]
      {
        var row := stored[i];
        if row.curve.None? || !row.curve.value.Arr? || row.curve.value.items == [] { continue; }
        var step := Step(row.config);
        if step.Err? { return false; }
        if step.value.None? { continue; }
        var moved := Shifted(iso, row.curve.value.items, sign * step.value.value);
        if moved.Err? && moved.error != Unreadable { return false; }
        if moved.Ok? { table := table[i := row.(curve := Some(Arr(moved.value)))]; }
      }
      rows := table;
      return true;
    }

    method Upgrade(iso: Iso) returns (done: bool)
      modifies this
      ensures done <==> forall i :: 0 <= i < |old(rows)| ==> RetimeRow(iso, old(rows)[i], -1).Ok?
      ensures done ==> Retimed(iso, old(rows), rows, -1)
      ensures !done ==> rows == old(rows)
    {
      done := Retime(iso, -1);
    }

    method Downgrade(iso: Iso) returns (done: bool)
      modifies this
      ensures done <==> forall i :: 0 <= i < |old(rows)| ==> RetimeRow(iso, old(rows)[i], 1).Ok?
      ensures done ==> Retimed(iso, old(rows), rows, 1)
      ensures !done ==> rows == old(rows)
    {
      done := Retime(iso, 1);
    }
  }

  // ---------------------------------------------------------------- shifted in full or not at all

  predicate Readable(iso: Iso, curve: seq<Json>) {
    forall i :: 0 <= i < |curve| ==> IsPoint(iso, curve[i])
  }

  // Every point of `b` is the point of `a`, `delta` later, beside the same equity.
  ghost predicate MovedBy(iso: Iso, a: seq<Json>, b: seq<Json>, delta: int)
    requires Readable(iso, a) && Readable(iso, b)
  {
    && |a| == |b|
    && forall i :: 0 <= i < |a| ==>
         && b[i].items[1] == a[i].items[1]
         && Dated(iso, b[i]) == Dated(iso, a[i]).(wall := Dated(iso, a[i]).wall + delta)
  }

  lemma {:induction false} ShiftMoves(iso: Iso, curve: seq<Json>, delta: int)
    requires Lawful(iso) && Shift(iso, curve, delta).Ok?
    ensures Readable(iso, curve) && Readable(iso, Shift(iso, curve, delta).value)
    ensures MovedBy(iso, curve, Shift(iso, curve, delta).value, delta)
  {
    if curve != [] {
      ShiftMoves(iso, curve[..|curve| - 1], delta);
    }
  }

  // What stops a shift: the first point that cannot be read or cannot be moved.
  lemma {:induction false} ShiftStops(iso: Iso, curve: seq<Json>, delta: int)
    requires Shift(iso, curve, delta).Err?
    ensures exists k :: 0 <= k < |curve|
              && ShiftPoint(iso, curve[k], delta) == Err(Shift(iso, curve, delta).error)
              && forall j :: 0 <= j < k ==> ShiftPoint(iso, curve[j], delta).Ok?
  {
    var n := |curve| - 1;
    if Shift(iso, curve[..n], delta).Err? {
      ShiftStops(iso, curve[..n], delta);
      var k :| 0 <= k < n && ShiftPoint(iso, curve[..n][k], delta) == Err(Shift(iso, curve, delta).error)
               && forall j :: 0 <= j < k ==> ShiftPoint(iso, curve[..n][j], delta).Ok?;
      assert forall j :: 0 <= j <= k ==> curve[..n][j] == curve[j];
    } else {
      ShiftsAll(iso, curve[..n], delta);
      assert forall j :: 0 <= j < n ==> curve[..n][j] == curve[j];
    }
  }

  lemma {:induction false} ShiftsAll(iso: Iso, curve: seq<Json>, delta: int)
    ensures Shift(iso, curve, delta).Ok? <==>
            forall j :: 0 <= j < |curve| ==> ShiftPoint(iso, curve[j], delta).Ok?
  {
    if curve != [] {
      var n := |curve| - 1;
      ShiftsAll(iso, curve[..n], delta);
      assert forall j :: 0 <= j < n ==> curve[..n][j] == curve[j];
    }
  }

  // A row is shifted in full exactly when its timeframe is known and its whole curve can be read;
  // every other row, and everything else about this one, stays as it is.
  lemma FullOrNothing(iso: Iso, row: Run, sign: int)
    requires Lawful(iso) && RetimeRow(iso, row, sign).Ok?
    ensures var moved := RetimeRow(iso, row, sign).value;
            if Concerned(row) && Readable(iso, Points(row)) then
              && Concerned(moved) && moved.config == row.config && Readable(iso, Points(moved))
              && MovedBy(iso, Points(row), Points(moved), Delta(row, sign))
            else moved == row
  {
    if Concerned(row) {
      var moved := Shift(iso, Points(row), Delta(row, sign));
      if moved.Ok? {
        ShiftMoves(iso, Points(row), Delta(row, sign));
        assert |moved.value| == |Points(row)|;
      } else {
        ShiftStops(iso, Points(row), Delta(row, sign));
      }
    }
  }

  // ---- the same, spelt out

  function Number(digits: string): nat {
    if digits == "" then 0
    else 10 * Number(digits[..|digits| - 1])
         + if '0' <= digits[|digits| - 1] <= '9' then digits[|digits| - 1] as int - '0' as int else 0
  }

  function UnitSeconds(unit: char): nat {
    if unit == 'm' then 60 else if unit == 'h' then 3600 else if unit == 'd' then 86400 else 0
  }

  // A timeframe is a number of minutes, hours or days, and as long as its name says.
  lemma TimeframesAreAsNamed(name: string)
    ensures name in TIMEFRAME_SECONDS <==> name in ["1m", "5m", "15m", "30m", "1h", "4h", "1d"]
    ensures name in TIMEFRAME_SECONDS ==>
              TIMEFRAME_SECONDS[name] == Number(name[..|name| - 1]) * UnitSeconds(name[|name| - 1])
  {
    if name in TIMEFRAME_SECONDS {
      OneDigit(name[0]);
      if |name| == 3 {
        var number := name[..2];
        assert number[..1] == [name[0]];
      } else {
        assert name[..1] == [name[0]];
      }
    }
  }

  lemma OneDigit(c: char)
    requires '0' <= c <= '9'
    ensures Number([c]) == c as int - '0' as int
  {
    assert [c][..0] == "";
    assert Number("") == 0;
  }

  // A stored point: a stamp that can be read, beside a figure.
  predicate IsStampedFigure(iso: Iso, p: Json) {
    p.Arr? && |p.items| == 2 && p.items[0].Str? && iso.read(p.items[0].text).Some?
  }

  // A curve of such points, in a run of a known timeframe, moves by exactly that timeframe, every point,
  // back in the upgrade and forward in the downgrade.
  lemma MovesByItsTimeframe(iso: Iso, config: Json, points: seq<Json>, name: string, sign: int, i: nat)
    requires Lawful(iso) && i < |points|
    requires config.Obj? && "timeframe" in config.fields && config.fields["timeframe"] == Str(name)
    requires name in ["1m", "5m", "15m", "30m", "1h", "4h", "1d"]
    requires IsStampedFigure(iso, points[i])
    requires forall j :: 0 <= j < |points| ==> IsStampedFigure(iso, points[j])
    requires RetimeRow(iso, Run(config, Some(Arr(points))), sign).Ok?
    ensures var moved := RetimeRow(iso, Run(config, Some(Arr(points))), sign).value;
            && moved.config == config && moved.curve.Some? && moved.curve.value.Arr?
            && |moved.curve.value.items| == |points|
            && var p, was := moved.curve.value.items[i], iso.read(points[i].items[0].text).value;
               && IsStampedFigure(iso, p) && p.items[1] == points[i].items[1]
               && iso.read(p.items[0].text)
                  == Some(was.(wall := was.wall + sign * (Number(name[..|name| - 1]) * UnitSeconds(name[|name| - 1])
                                                          * 1_000_000)))
  {
    TimeframesAreAsNamed(name);
    var row := Run(config, Some(Arr(points)));
    assert !Falsy(config) && Concerned(row) && Readable(iso, Points(row));
    FullOrNothing(iso, row, sign);
  }

  // Everything else stays: no curve or an empty one, a timeframe not known, or a single element that is
  // not such a point.
  lemma StaysUnless(iso: Iso, row: Run, sign: int)
    requires Lawful(iso) && RetimeRow(iso, row, sign).Ok?
    requires || row.curve.None? || !row.curve.value.Arr? || row.curve.value.items == []
             || !row.config.Obj? || "timeframe" !in row.config.fields || !row.config.fields["timeframe"].Str?
             || row.config.fields["timeframe"].text !in ["1m", "5m", "15m", "30m", "1h", "4h", "1d"]
             || exists i :: 0 <= i < |row.curve.value.items| && !IsStampedFigure(iso, row.curve.value.items[i])
    ensures RetimeRow(iso, row, sign) == Ok(row)
  {
    if Concerned(row) {
      TimeframesAreAsNamed(row.config.fields["timeframe"].text);
    }
    FullOrNothing(iso, row, sign);
  }

  // A row ends the migration exactly when its config is neither empty nor an object, or a point would
  // leave the range of datetime before anything unreadable is met.
  lemma AbortsExactly(iso: Iso, row: Run, sign: int)
    ensures RetimeRow(iso, row, sign).Err? <==>
            && row.curve.Some? && row.curve.value.Arr? && row.curve.value.items != []
            && (|| row.config == Bool(true) || (row.config.Num? && row.config.number != 0)
                || (row.config.Str? && row.config.text != "") || (row.config.Arr? && row.config.items != [])
                || (Concerned(row) && RunsOut(iso, Points(row), Delta(row, sign))))
  {
    if Concerned(row) {
      TroubleIs(iso, Points(row), Delta(row, sign));
    }
  }

  // Instants, as differences between two of them count: a naive wall clock is taken as it stands.
  function Instant(w: When): int {
    w.wall - (match w.offset case Some(o) => o case None => 0)
  }

  // No figure changes: the equity series is the same series, and any two of its points are as far
  // apart as they were.
  lemma OnlyLabelsMove(iso: Iso, row: Run, sign: int, i: nat, j: nat)
    requires Lawful(iso) && RetimeRow(iso, row, sign).Ok?
    requires Concerned(row) && Readable(iso, Points(row)) && i < |Points(row)| && j < |Points(row)|
    ensures HasCurve(RetimeRow(iso, row, sign).value)
    ensures var before, after := Points(row), Points(RetimeRow(iso, row, sign).value);
            && |after| == |before| && Readable(iso, after)
            && after[i].items[1] == before[i].items[1]
            && Instant(Dated(iso, after[j])) - Instant(Dated(iso, after[i]))
               == Instant(Dated(iso, before[j])) - Instant(Dated(iso, before[i]))
  {
    FullOrNothing(iso, row, sign);
  }

  // ---------------------------------------------------------------- there and back

  // The same row, up to how its timestamps are spelt.
  ghost predicate Same(iso: Iso, a: Run, b: Run) {
    || a == b
    || (&& a.config == b.config && HasCurve(a) && HasCurve(b)
        && Readable(iso, Points(a)) && Readable(iso, Points(b))
        && MovedBy(iso, Points(a), Points(b), 0))
  }

  // A point that can be read would leave the range of datetime, before anything unreadable is met.
  ghost predicate RunsOut(iso: Iso, curve: seq<Json>, delta: int) {
    exists k :: LeavesAt(iso, curve, delta, k)
  }

  ghost predicate LeavesAt(iso: Iso, curve: seq<Json>, delta: int, k: nat) {
    && k < |curve| && (forall j :: 0 <= j <= k ==> IsPoint(iso, curve[j]))
    && !InRange(Dated(iso, curve[k]).wall + delta)
  }

  lemma TroubleIs(iso: Iso, curve: seq<Json>, delta: int)
    ensures RunsOut(iso, curve, delta) <==> Shift(iso, curve, delta) == Err(OutOfRange)
    ensures Shift(iso, curve, delta) == Err(Unreadable) ==> !Readable(iso, curve)
    ensures Shift(iso, curve, delta).Ok? ==> Readable(iso, curve)
    ensures Shift(iso, curve, delta) != Err(BadConfig)
  {
    ShiftsAll(iso, curve, delta);
    if Shift(iso, curve, delta).Err? {
      ShiftStops(iso, curve, delta);
      var k :| 0 <= k < |curve| && ShiftPoint(iso, curve[k], delta) == Err(Shift(iso, curve, delta).error)
               && forall j :: 0 <= j < k ==> ShiftPoint(iso, curve[j], delta).Ok?;
      assert IsPoint(iso, curve[k]) ==> LeavesAt(iso, curve, delta, k);
    }
    if RunsOut(iso, curve, delta) {
      var m :| LeavesAt(iso, curve, delta, m);
      LeavingStops(iso, curve, delta, m);
    }
  }

  lemma LeavingStops(iso: Iso, curve: seq<Json>, delta: int, m: nat)
    requires LeavesAt(iso, curve, delta, m)
    ensures Shift(iso, curve, delta) == Err(OutOfRange)
  {
    assert ShiftPoint(iso, curve[m], delta) == Err(OutOfRange);
    ShiftsAll(iso, curve, delta);
    ShiftStops(iso, curve, delta);
    var k :| 0 <= k < |curve| && ShiftPoint(iso, curve[k], delta) == Err(Shift(iso, curve, delta).error)
             && forall j :: 0 <= j < k ==> ShiftPoint(iso, curve[j], delta).Ok?;
    assert k <= m && IsPoint(iso, curve[k]);
  }

  lemma Opposite(row: Run, sign: int)
    requires Concerned(row)
    ensures Delta(row, -sign) == -Delta(row, sign)
  {
  }

  lemma ShiftedRow(iso: Iso, row: Run, sign: int, delta: int)
    requires Concerned(row) && Delta(row, sign) == delta && Shift(iso, Points(row), delta).Ok?
    ensures RetimeRow(iso, row, sign) == Ok(row.(curve := Some(Arr(Shift(iso, Points(row), delta).value))))
  {
  }

  lemma DeltaOfMoved(row: Run, moved: Run, sign: int)
    requires Concerned(row) && Concerned(moved) && moved.config == row.config
    ensures Delta(moved, -sign) == -Delta(row, sign)
  {
    Opposite(moved, sign);
  }

  // A row that was moved can always be moved back.
  lemma MovedAndBack(iso: Iso, row: Run, moved: Run, sign: int)
    requires Lawful(iso) && Concerned(row) && Readable(iso, Points(row)) && RetimeRow(iso, row, sign) == Ok(moved)
    ensures RetimeRow(iso, moved, -sign).Ok? && Same(iso, row, RetimeRow(iso, moved, -sign).value)
  {
    FullOrNothing(iso, row, sign);
    var delta := Delta(row, sign);
    DeltaOfMoved(row, moved, sign);
    BackInRange(iso, Points(row), Points(moved), delta);
    ShiftedRow(iso, moved, -sign, -delta);
    ShiftMoves(iso, Points(moved), -delta);
    Cancels(iso, Points(row), Points(moved), Shift(iso, Points(moved), -delta).value, delta);
  }

  lemma Cancels(iso: Iso, a: seq<Json>, b: seq<Json>, c: seq<Json>, delta: int)
    requires Readable(iso, a) && Readable(iso, b) && Readable(iso, c)
    requires MovedBy(iso, a, b, delta) && MovedBy(iso, b, c, -delta)
    ensures MovedBy(iso, a, c, 0)
  {
  }

  // A row that is left alone as unreadable, with a readable point that runs out of range before the
  // unreadable one is met.
  ghost predicate Stranded(iso: Iso, row: Run, sign: int) {
    Concerned(row) && !Readable(iso, Points(row)) && RunsOut(iso, Points(row), Delta(row, sign))
  }

  // Going back succeeds on every row the first pass dealt with, and restores every instant of it,
  // unless the first pass left it alone and it is stranded on the way back.
  lemma ThereAndBack(iso: Iso, row: Run, moved: Run, sign: int)
    requires Lawful(iso) && RetimeRow(iso, row, sign) == Ok(moved)
    ensures RetimeRow(iso, moved, -sign).Ok? <==> !Stranded(iso, row, -sign)
    ensures RetimeRow(iso, moved, -sign).Ok? ==> Same(iso, row, RetimeRow(iso, moved, -sign).value)
  {
    if Concerned(row) && Readable(iso, Points(row)) {
      MovedAndBack(iso, row, moved, sign);
    } else {
      FullOrNothing(iso, row, sign);
      if Concerned(row) {
        TroubleIs(iso, Points(row), Delta(row, -sign));
      }
    }
  }

  // After a pass over the table the opposite one goes through exactly when no row is stranded, and
  // then restores every instant of every row.
  lemma TableThereAndBack(iso: Iso, rows: seq<Run>, moved: seq<Run>, sign: int)
    requires Lawful(iso) && Retimed(iso, rows, moved, sign)
    ensures (forall i :: 0 <= i < |moved| ==> RetimeRow(iso, moved[i], -sign).Ok?) <==>
            (forall i :: 0 <= i < |rows| ==> !Stranded(iso, rows[i], -sign))
    ensures forall back :: Retimed(iso, moved, back, -sign) ==>
              |back| == |rows| && forall i :: 0 <= i < |rows| ==> Same(iso, rows[i], back[i])
  {
    forall i | 0 <= i < |rows|
      ensures RetimeRow(iso, moved[i], -sign).Ok? <==> !Stranded(iso, rows[i], -sign)
      ensures RetimeRow(iso, moved[i], -sign).Ok? ==> Same(iso, rows[i], RetimeRow(iso, moved[i], -sign).value)
    {
      ThereAndBack(iso, rows[i], moved[i], sign);
    }
  }

  lemma BackInRange(iso: Iso, a: seq<Json>, b: seq<Json>, delta: int)
    requires Lawful(iso) && Readable(iso, a) && Readable(iso, b) && MovedBy(iso, a, b, delta)
    ensures Shift(iso, b, -delta).Ok?
  {
    ShiftsAll(iso, b, -delta);
    forall j | 0 <= j < |b| ensures ShiftPoint(iso, b[j], -delta).Ok? {
      assert Dated(iso, b[j]).wall - delta == Dated(iso, a[j]).wall;
    }
  }

  // Such a row: the last microsecond of the year 9999 beside something that is not a point.
  lemma UpgradeMayStrandTheDowngrade(iso: Iso)
    requires Lawful(iso)
    ensures var last := iso.write(When(END_OF_TIME - 1, None));
            var row := Run(Obj(map["timeframe" := Str("1d")]), Some(Arr([Arr([Str(last), Num(1)]), Null])));
            RetimeRow(iso, row, -1) == Ok(row) && RetimeRow(iso, row, 1) == Err(OutOfRange)
  {
    var last := iso.write(When(END_OF_TIME - 1, None));
    var first := Arr([Str(last), Num(1)]);
    var row := Run(Obj(map["timeframe" := Str("1d")]), Some(Arr([first, Null])));
    assert iso.read(last) == Some(When(END_OF_TIME - 1, None));
    assert Concerned(row) && Delta(row, 1) == 86_400_000_000;
    var curve := [first, Null];
    assert curve[..1] == [first] && [first][..0] == [];
    assert Shift(iso, [first], 86_400_000_000) == Err(OutOfRange);
    assert Shift(iso, [first], -86_400_000_000).Ok?;
  }
}
