/**
 * `calculate_aqi` (`backend/main.py`): PM2.5 to AQI by linear
 * interpolation between the breakpoints 12.0, 35.4, 55.4, 150.4 and
 * 250.4 µg/m³, truncated to an integer by `int()`.  The arithmetic is
 * exact here (reals), not IEEE doubles.
 */
module LegacyAqi {
  import opened PyValues


  /** The interpolated value before truncation. */
  function AqiLinear(pm25: real): real {
    if pm25 <= 12.0 then (50.0 / 12.0) * pm25
    else if pm25 <= 35.4 then 50.0 + ((100.0 - 50.0) / (35.4 - 12.0)) * (pm25 - 12.0)
    else if pm25 <= 55.4 then 100.0 + ((150.0 - 100.0) / (55.4 - 35.4)) * (pm25 - 35.4)
    else if pm25 <= 150.4 then 150.0 + ((200.0 - 150.0) / (150.4 - 55.4)) * (pm25 - 55.4)
    else if pm25 <= 250.4 then 200.0 + ((300.0 - 200.0) / (250.4 - 150.4)) * (pm25 - 150.4)
    else 300.0 + ((400.0 - 300.0) / (350.4 - 250.4)) * (pm25 - 250.4)
  }

  /** Each segment stays within its AQI band. */
  lemma AqiLinearBands(pm25: real)
    ensures pm25 <= 0.0 ==> AqiLinear(pm25) <= 0.0
    ensures 0.0 <= pm25 <= 12.0 ==> 0.0 <= AqiLinear(pm25) <= 50.0
    ensures 12.0 < pm25 <= 35.4 ==> 50.0 < AqiLinear(pm25) <= 100.0
    ensures 35.4 < pm25 <= 55.4 ==> 100.0 < AqiLinear(pm25) <= 150.0
    ensures 55.4 < pm25 <= 150.4 ==> 150.0 < AqiLinear(pm25) <= 200.0
    ensures 150.4 < pm25 <= 250.4 ==> 200.0 < AqiLinear(pm25) <= 300.0
    ensures 250.4 < pm25 ==> 300.0 < AqiLinear(pm25)
  {
  }

  /** `calculate_aqi(pm25)` */
  function CalculateAqi(pm25: real): (aqi: int)
    ensures pm25 <= 0.0 ==> aqi <= 0
    ensures 0.0 <= pm25 <= 12.0 ==> 0 <= aqi <= 50
    ensures 12.0 < pm25 <= 35.4 ==> 50 <= aqi <= 100
    ensures 35.4 < pm25 <= 55.4 ==> 100 <= aqi <= 150
    ensures 55.4 < pm25 <= 150.4 ==> 150 <= aqi <= 200
    ensures 150.4 < pm25 <= 250.4 ==> 200 <= aqi <= 300
    ensures 250.4 < pm25 ==> 300 <= aqi
  {
    AqiLinearBands(pm25);
    Truncate(AqiLinear(pm25))
  }

  /** The interpolation is nondecreasing across all segments. */
  lemma AqiLinearMonotone(a: real, b: real)
    requires a <= b
    ensures AqiLinear(a) <= AqiLinear(b)
  {
    AqiLinearBands(a);
    AqiLinearBands(b);
  }

  /** More PM2.5 never gives a lower AQI. */
  lemma AqiMonotone(a: real, b: real)
    requires a <= b
    ensures CalculateAqi(a) <= CalculateAqi(b)
  {
    AqiLinearMonotone(a, b);
    TruncateMonotone(AqiLinear(a), AqiLinear(b));
  }

  /** At each breakpoint the AQI is exactly the band's upper bound. */
  lemma AqiAtBreakpoints()
    ensures CalculateAqi(0.0) == 0
    ensures CalculateAqi(12.0) == 50
    ensures CalculateAqi(35.4) == 100
    ensures CalculateAqi(55.4) == 150
    ensures CalculateAqi(150.4) == 200
    ensures CalculateAqi(250.4) == 300
    ensures CalculateAqi(350.4) == 400
  {
  }
}
