/** Temperature from thermistor voltage: a table search that starts at the previous
    temperature. */
module Thermistor {

  type int8 = x: int | -128 <= x < 128
  type uint16 = x: int | 0 <= x < 0x1_0000

  /** A voltage table, from the lowest temperature up. */
  datatype Table = Table(tempMin: int8, tempMax: int8, mv: seq<uint16>) {

    /** One entry a degree, voltages strictly falling. */
    ghost predicate Valid() {
      && tempMin <= tempMax && |mv| == tempMax - tempMin + 1
      && forall i, j :: 0 <= i < j < |mv| ==> mv[i] > mv[j]
    }
  }

  method TemperatureClamp(t: Table, temperature0: int8) returns (temperature: int8)
    requires t.Valid()
    ensures temperature == Clamp(t, temperature0)
  {
    temperature := if temperature0 < t.tempMax then temperature0 else t.tempMax;
    temperature := if temperature > t.tempMin then temperature else t.tempMin;
  }

  /** The nearest temperature that the table covers. */
  function Clamp(t: Table, temperature: int8): (r: int8)
    requires t.Valid()
    ensures t.tempMin <= r <= t.tempMax
    ensures t.tempMin <= temperature <= t.tempMax ==> r == temperature
    ensures temperature < t.tempMin ==> r == t.tempMin
    ensures temperature > t.tempMax ==> r == t.tempMax
  {
    if temperature < t.tempMin then t.tempMin else if temperature > t.tempMax then t.tempMax else temperature
  }

  method DegreesCelsiusToMillivolts(t: Table, temperature0: int8) returns (mv: uint16)
    requires t.Valid()
    ensures mv == t.mv[Clamp(t, temperature0) - t.tempMin]
  {
    var temperature := TemperatureClamp(t, temperature0);
    mv := t.mv[temperature - t.tempMin];
  }

  /** The search without a hint: the first index from i on whose entry does not
      exceed the voltage, or the last index if every entry does. */
  function Scan(mv: seq<uint16>, v: uint16, i: nat): (r: nat)
    requires i < |mv|
    ensures i <= r < |mv|
    decreases |mv| - i
  {
    if i == |mv| - 1 || mv[i] <= v then i else Scan(mv, v, i + 1)
  }

  function TemperatureOf(t: Table, v: uint16): (celsius: int8)
    requires t.Valid()
    ensures t.tempMin <= celsius <= t.tempMax
  {
    t.tempMin + Scan(t.mv, v, 0)
  }

  /** An index that the search would stop at, reached past larger entries only, is
      where it stops. */
  lemma {:induction false} ScanStopsAt(mv: seq<uint16>, v: uint16, i: nat, r: nat)
    requires i <= r < |mv|
    requires forall k :: i <= k < r ==> mv[k] > v
    requires r == |mv| - 1 || mv[r] <= v
    ensures Scan(mv, v, i) == r
    decreases r - i
  {
    if i < r { ScanStopsAt(mv, v, i + 1, r); }
  }

  /** Where the search stops, and everything it passed over. */
  lemma {:induction false} ScanFinds(mv: seq<uint16>, v: uint16, i: nat)
    requires i < |mv|
    ensures forall k :: i <= k < Scan(mv, v, i) ==> mv[k] > v
    ensures Scan(mv, v, i) == |mv| - 1 || mv[Scan(mv, v, i)] <= v
    decreases |mv| - i
  {
    if i < |mv| - 1 && mv[i] > v { ScanFinds(mv, v, i + 1); }
  }

  /** The hinted search finds the same temperature for every hint. */
  method MillivoltsToDegreesCelsius(t: Table, mv: uint16, hint0: int8) returns (celsius: int8)
    requires t.Valid()
    ensures celsius == TemperatureOf(t, mv)
  {
    var hint := TemperatureClamp(t, hint0);
    var prevIndex: nat := hint - t.tempMin;
    var prevMv := t.mv[prevIndex];
    if mv < prevMv {
      for i := prevIndex + 1 to |t.mv|
        invariant forall k :: 0 <= k < i ==> t.mv[k] > mv
      {
        if mv >= t.mv[i] {
          ScanStopsAt(t.mv, mv, 0, i);
          return t.tempMin + i;
        }
      }
      ScanStopsAt(t.mv, mv, 0, |t.mv| - 1);
      return t.tempMax;
    }
    var i := prevIndex;
    while i > 0
      invariant 0 <= i <= prevIndex && prevMv == t.mv[i] && t.mv[i] <= mv
    {
      var thisMv := prevMv;
      prevMv := t.mv[i - 1];
      if mv >= thisMv && mv < prevMv {
        ScanStopsAt(t.mv, mv, 0, i);
        return t.tempMin + i;
      }
      i := i - 1;
    }
    ScanStopsAt(t.mv, mv, 0, 0);
    return t.tempMin;
  }

  /** A higher voltage never reads as a higher temperature. */
  lemma Antitone(t: Table, low: uint16, high: uint16)
    requires t.Valid() && low <= high
    ensures TemperatureOf(t, high) <= TemperatureOf(t, low)
  {
    ScanFinds(t.mv, low, 0);
    ScanFinds(t.mv, high, 0);
  }

  /** Converting the voltage of a temperature gives that temperature back, clamped. */
  lemma InvertsLookup(t: Table, temperature: int8)
    requires t.Valid()
    ensures TemperatureOf(t, t.mv[Clamp(t, temperature) - t.tempMin]) == Clamp(t, temperature)
  {
    var c := Clamp(t, temperature) - t.tempMin;
    ScanStopsAt(t.mv, t.mv[c], 0, c);
  }

  /** The other way round the temperature is rounded up: its voltage is the greatest
      entry that does not exceed the measurement, if there is one. */
  lemma RoundsUp(t: Table, mv: uint16, i: nat)
    requires t.Valid() && i < |t.mv| && t.mv[i] <= mv
    ensures t.mv[i] <= t.mv[TemperatureOf(t, mv) - t.tempMin] <= mv
  {
    ScanFinds(t.mv, mv, 0);
  }
}
