// src/mopeka_converter.py: gallons from a sensor reading, by linear
// interpolation in a calibration table, over the real numbers.
module Interpolation {
  import opened Octets

  datatype Row = Row(inches: real, gallons: real)

  ghost predicate Descending(t: seq<Row>) { forall i, j :: 0 <= i < j < |t| ==> t[i].inches >= t[j].inches }

  // Gallons do not drop from row to row, and there are no negative ones.
  ghost predicate Filling(t: seq<Row>) {
    && (forall i :: 0 <= i < |t| ==> t[i].gallons >= 0.0)
    && (forall i, j :: 0 <= i < j < |t| ==> t[i].gallons <= t[j].gallons)
  }

  // ---- loading ----

  // Into a table already in order, behind the rows of the same height.
  function Insert(t: seq<Row>, r: Row): (u: seq<Row>)
    ensures |u| == |t| + 1
  {
    if t == [] || t[|t| - 1].inches >= r.inches then t + [r]
    else Insert(t[..|t| - 1], r) + [t[|t| - 1]]
  }

  function Sorted(rows: seq<Row>): (t: seq<Row>)
    ensures |t| == |rows|
  {
    if rows == [] then [] else Insert(Sorted(rows[..|rows| - 1]), rows[|rows| - 1])
  }

  // The rows of one height, in the order they are in.
  function At(rows: seq<Row>, inches: real): seq<Row> {
    if rows == [] then []
    else At(rows[..|rows| - 1], inches) + (if rows[|rows| - 1].inches == inches then [rows[|rows| - 1]] else [])
  }

  lemma {:induction false} AtNext(rows: seq<Row>, r: Row, inches: real)
    ensures At(rows + [r], inches) == At(rows, inches) + (if r.inches == inches then [r] else [])
  {
    assert (rows + [r])[..|rows|] == rows;
  }

  lemma {:induction false} InsertOrdered(t: seq<Row>, r: Row)
    requires Descending(t)
    ensures Descending(Insert(t, r))
    ensures forall x :: x in Insert(t, r) <==> x in t || x == r
  {
    if t != [] && t[|t| - 1].inches < r.inches {
      var front := t[..|t| - 1];
      var last := t[|t| - 1];
      InsertOrdered(front, r);
      assert t == front + [last];
      var u := Insert(front, r);
      forall i | 0 <= i < |u|
        ensures u[i].inches >= last.inches
      {
        assert u[i] in u;
      }
    }
  }

  // Nothing of any height is lost, gained or reordered against its equals.
  lemma {:induction false} InsertStable(t: seq<Row>, r: Row, inches: real)
    requires Descending(t)
    ensures At(Insert(t, r), inches) == At(t, inches) + (if r.inches == inches then [r] else [])
  {
    if t == [] || t[|t| - 1].inches >= r.inches {
      AtNext(t, r, inches);
    } else {
      var front := t[..|t| - 1];
      var last := t[|t| - 1];
      InsertStable(front, r, inches);
      AtNext(Insert(front, r), last, inches);
      assert t == front + [last];
      AtNext(front, last, inches);
    }
  }

  // The table is in descending order, and at each height holds exactly the
  // file's rows of that height, in the file's order.
  lemma {:induction false} SortedRight(rows: seq<Row>)
    ensures Descending(Sorted(rows))
    ensures forall inches :: At(Sorted(rows), inches) == At(rows, inches)
  {
    if rows != [] {
      var front := rows[..|rows| - 1];
      var last := rows[|rows| - 1];
      SortedRight(front);
      InsertOrdered(Sorted(front), last);
      forall inches
        ensures At(Sorted(rows), inches) == At(rows, inches)
      {
        InsertStable(Sorted(front), last, inches);
      }
    }
  }

  // ---- looking up ----

  // The bracket the scan stops at: the first row pair whose lower end is not
  // above x.
  function Bracket(t: seq<Row>, x: real, i: nat): (k: nat)
    requires i + 1 < |t| && x >= t[|t| - 1].inches
    ensures i <= k < |t| - 1 && t[k + 1].inches <= x
    ensures forall j :: i < j <= k ==> x < t[j].inches
    decreases |t| - i
  {
    if t[i + 1].inches <= x || i + 2 == |t| then i else Bracket(t, x, i + 1)
  }

  // Between two rows.
  function Between(top: Row, bottom: Row, x: real): real
    requires top.inches > bottom.inches
  {
    top.gallons + (top.inches - x) / (top.inches - bottom.inches) * (bottom.gallons - top.gallons)
  }

  predicate Interior(t: seq<Row>, x: real) { t != [] && t[|t| - 1].inches < x < t[0].inches }

  // Strictly inside the range the scan always finds a bracket, and x is
  // strictly below its upper end: so the branch for rows of equal height and
  // the final return are never reached.
  lemma {:induction false} BracketFound(t: seq<Row>, x: real)
    requires Descending(t) && Interior(t, x)
    ensures |t| >= 2 && var k := Bracket(t, x, 0); t[k + 1].inches <= x < t[k].inches
  {
  }

  // No later than any pair whose lower end is not above x.
  lemma {:induction false} BracketFirst(t: seq<Row>, x: real, i: nat, k: nat)
    requires i <= k < |t| - 1 && t[k + 1].inches <= x && x >= t[|t| - 1].inches
    ensures Bracket(t, x, i) <= k
    decreases |t| - i
  {
    if i < k && t[i + 1].inches > x {
      BracketFirst(t, x, i + 1, k);
    }
  }

  // _interpolate_gallons
  function Lookup(t: seq<Row>, x: real): real
    requires Descending(t)
  {
    if t == [] || x >= t[0].inches then 0.0
    else if x <= t[|t| - 1].inches then t[|t| - 1].gallons
    else
      BracketFound(t, x);
      var k := Bracket(t, x, 0);
      Between(t[k], t[k + 1], x)
  }

  lemma {:induction false} RatioBounds(p: real, q: real)
    requires q > 0.0 && 0.0 <= p <= q
    ensures 0.0 <= p / q <= 1.0
  {
    var r := p / q;
    assert r * q == p;
    if r > 1.0 {
      MulMore(r, 1.0, q);
    }
    if r < 0.0 {
      MulMore(0.0, r, q);
    }
  }

  lemma MulMore(a: real, b: real, c: real)
    requires a > b && c > 0.0
    ensures a * c > b * c
  {
    assert (a - b) * c > 0.0;
  }

  lemma Scaled(r: real, d: real)
    requires 0.0 <= r <= 1.0 && d >= 0.0
    ensures 0.0 <= r * d <= d
  {
    assert (1.0 - r) * d >= 0.0;
  }

  lemma BetweenBounds(top: Row, bottom: Row, x: real)
    requires bottom.inches <= x <= top.inches && bottom.inches < top.inches && top.gallons <= bottom.gallons
    ensures top.gallons <= Between(top, bottom, x) <= bottom.gallons
    ensures x == bottom.inches ==> Between(top, bottom, x) == bottom.gallons
  {
    var ratio := (top.inches - x) / (top.inches - bottom.inches);
    RatioBounds(top.inches - x, top.inches - bottom.inches);
    Scaled(ratio, bottom.gallons - top.gallons);
  }

  // The result never leaves the range from zero to the last row's gallons.
  lemma LookupBounds(t: seq<Row>, x: real)
    requires Descending(t) && Filling(t) && t != []
    ensures 0.0 <= Lookup(t, x) <= t[|t| - 1].gallons
  {
    if Interior(t, x) {
      BracketFound(t, x);
      var k := Bracket(t, x, 0);
      assert t[k].gallons <= t[k + 1].gallons <= t[|t| - 1].gallons;
      BetweenBounds(t[k], t[k + 1], x);
    }
  }

  lemma NotNegative(a: real, d: real)
    requires d > 0.0 && a * d >= 0.0
    ensures a >= 0.0
  {
    if a < 0.0 {
      MulMore(0.0, a, d);
    }
  }

  lemma Quotients(p: real, q: real, d: real)
    requires d > 0.0 && p >= q
    ensures p / d >= q / d
  {
    var r, u := p / d, q / d;
    assert (r - u) * d == p - q;
    NotNegative(r - u, d);
  }

  lemma BetweenMonotone(top: Row, bottom: Row, x: real, y: real)
    requires bottom.inches < top.inches && top.gallons <= bottom.gallons && x <= y
    ensures Between(top, bottom, x) >= Between(top, bottom, y)
  {
    var d := top.inches - bottom.inches;
    Quotients(top.inches - x, top.inches - y, d);
    var g := bottom.gallons - top.gallons;
    assert ((top.inches - x) / d - (top.inches - y) / d) * g >= 0.0;
  }

  // More inches never give more gallons.
  lemma LookupMonotone(t: seq<Row>, x: real, y: real)
    requires Descending(t) && Filling(t) && x <= y
    ensures Lookup(t, x) >= Lookup(t, y)
  {
    hide Between;
    if t != [] {
      LookupBounds(t, x);
      LookupBounds(t, y);
      if Interior(t, x) && Interior(t, y) {
        BracketFound(t, x);
        BracketFound(t, y);
        var a, b := Bracket(t, x, 0), Bracket(t, y, 0);
        if a == b {
          BetweenMonotone(t[a], t[a + 1], x, y);
        } else {
          LaterBracket(t, x, y);
          BetweenBounds(t[a], t[a + 1], x);
          BetweenBounds(t[b], t[b + 1], y);
          assert t[b + 1].gallons <= t[a].gallons;
        }
      }
    }
  }

  // The bracket of the larger reading does not come later.
  lemma {:induction false} LaterBracket(t: seq<Row>, x: real, y: real)
    requires Descending(t) && Interior(t, x) && Interior(t, y) && x <= y
    ensures Bracket(t, y, 0) <= Bracket(t, x, 0)
  {
    BracketFound(t, x);
    BracketFirst(t, y, 0, Bracket(t, x, 0));
  }

  // At its own rows the table is exact, where their heights are distinct.
  lemma LookupAtRows(t: seq<Row>, i: nat)
    requires Descending(t) && Filling(t) && 0 < i < |t| - 1
    requires forall j, k :: 0 <= j < k < |t| ==> t[j].inches != t[k].inches
    ensures Lookup(t, t[i].inches) == t[i].gallons
  {
    var x := t[i].inches;
    assert t[0].inches > x > t[|t| - 1].inches;
    BracketFound(t, x);
    var k := Bracket(t, x, 0);
    BracketFirst(t, x, 0, i - 1);
    assert k + 1 == i;
    BetweenBounds(t[k], t[k + 1], x);
  }

  // ---- the converter ----

  function UpperChar(c: char): char { if 'a' <= c <= 'z' then c - 'a' + 'A' else c }

  // str.upper, on ASCII text.
  function Upper(s: string): string { if s == "" then "" else [UpperChar(s[0])] + Upper(s[1..]) }

  lemma UpperLength(s: string)
    ensures |Upper(s)| == |s|
  {
  }

  class Converter {
    var calibrationTable: seq<Row>
    var maxTankHeightIn: real
    var sensorOffsets: map<string, real>
    var bleMacToSensorId: map<string, string>

    ghost predicate Valid()
      reads this
    {
      Descending(calibrationTable)
    }

    constructor ()
      ensures Valid() && calibrationTable == []
    {
      calibrationTable := [];
      maxTankHeightIn := 56.73228346456693;
      sensorOffsets := map[];
      bleMacToSensorId := map[];
    }

    // load_calibration: rows that do not parse are skipped.
    method LoadCalibration(file: seq<Option<Row>>)
      modifies this`calibrationTable, this`maxTankHeightIn
      ensures Valid() && calibrationTable == Sorted(Parsed(file))
      ensures maxTankHeightIn == if calibrationTable == [] then old(maxTankHeightIn) else calibrationTable[0].inches
    {
      var rows: seq<Row> := [];
      for i := 0 to |file|
        invariant rows == Parsed(file[..i])
      {
        assert file[..i + 1][..i] == file[..i];
        if file[i].Some? {
          rows := rows + [file[i].value];
        }
      }
      assert file[..|file|] == file;
      SortedRight(rows);
      calibrationTable := Sorted(rows);
      if calibrationTable != [] {
        maxTankHeightIn := calibrationTable[0].inches;
      }
    }

    // _interpolate_gallons: the scan over the brackets.
    method InterpolateGallons(x: real) returns (gallons: real)
      requires Valid()
      ensures gallons == Lookup(calibrationTable, x)
    {
      var t := calibrationTable;
      if t == [] {
        return 0.0;
      }
      if x >= t[0].inches {
        return 0.0;
      }
      if x <= t[|t| - 1].inches {
        return t[|t| - 1].gallons;
      }
      BracketFound(t, x);
      ghost var k := Bracket(t, x, 0);
      var i := 0;
      while i < |t| - 1
        invariant i <= k
      {
        if t[i + 1].inches <= x <= t[i].inches {
          assert i == k;
          var ratio := (t[i].inches - x) / (t[i].inches - t[i + 1].inches);
          gallons := t[i].gallons + ratio * (t[i + 1].gallons - t[i].gallons);
          assert gallons == Between(t[k], t[k + 1], x);
          return;
        }
        i := i + 1;
      }
      assert false;
    }

    // mm_to_gallons, before its results are rounded for display.
    method MmToGallons(levelMm: real, mac: Option<string>) returns (gallons: real, levelIn: real, offsetIn: real)
      requires Valid()
      ensures offsetIn == OffsetOf(mac)
      ensures levelIn == levelMm / 25.4 + offsetIn
      ensures gallons == Lookup(calibrationTable, if levelIn > 0.0 then levelIn else 0.0)
    {
      offsetIn := 0.0;
      if mac.Some? && mac.value != "" {
        var suffix := Upper(mac.value);
        if suffix in sensorOffsets {
          offsetIn := sensorOffsets[suffix];
        } else if suffix in bleMacToSensorId {
          var id := bleMacToSensorId[suffix];
          offsetIn := if id in sensorOffsets then sensorOffsets[id] else 0.0;
        }
      }
      levelIn := levelMm / 25.4 + offsetIn;
      var height := if levelIn > 0.0 then levelIn else 0.0;
      gallons := InterpolateGallons(height);
    }

    function OffsetOf(mac: Option<string>): real
      reads this
    {
      match mac
      case None => 0.0
      case Some(suffix) =>
        if suffix == "" then 0.0
        else
          var m := Upper(suffix);
          if m in sensorOffsets then sensorOffsets[m]
          else if m in bleMacToSensorId && bleMacToSensorId[m] in sensorOffsets then sensorOffsets[bleMacToSensorId[m]]
          else 0.0
    }

    // However the suffix is written, its offset is the same.
    lemma OffsetIgnoresCase(a: string, b: string)
      requires Upper(a) == Upper(b)
      ensures OffsetOf(Some(a)) == OffsetOf(Some(b))
    {
      UpperLength(a);
      UpperLength(b);
    }
  }

  function Parsed(file: seq<Option<Row>>): seq<Row> {
    if file == [] then []
    else
      var last := file[|file| - 1];
      Parsed(file[..|file| - 1]) + (if last.Some? then [last.value] else [])
  }
}
