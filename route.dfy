/** The straight-line route the simulated vehicle follows, and the movement
    step `simulate_vehicle_movement` applies to the shared position. */
module Route {
  import opened RandomDraws

  /** A geographic position in decimal degrees. */
  datatype Location = Location(latitude: real, longitude: real)

  const Jakarta: Location := Location(-6.183333, 106.816667)
  const Surabaya: Location := Location(-7.2575, 112.7521)

  /** The fixed per-move steps: the Jakarta-to-Surabaya difference over 100 steps,
      taken as Jakarta minus Surabaya. */
  const LatitudeIncrement: real := (Jakarta.latitude - Surabaya.latitude) / 100.0
  const LongitudeIncrement: real := (Jakarta.longitude - Surabaya.longitude) / 100.0

  /** Half-width of the latitude jitter, and the one value of the longitude jitter. */
  const JitterBound: real := 0.0005

  /** What one move changes the longitude by: the increment plus the fixed jitter. */
  const LongitudeStep: real := LongitudeIncrement - JitterBound

  /** The increments are (Jakarta - Surabaya) / 100, which points north (latitude up)
      and west (longitude down): away from Surabaya, which lies south-east of Jakarta.
      The latitude increment also outweighs any jitter. */
  lemma IncrementDirections()
    ensures LatitudeIncrement == 0.01074167 && LongitudeIncrement == -0.05935433
    ensures Surabaya.latitude < Jakarta.latitude && Jakarta.longitude < Surabaya.longitude
    ensures LatitudeIncrement > JitterBound > 0.0 && LongitudeIncrement < 0.0
    ensures LongitudeStep == -0.05985433
  {
  }

  /** `random.uniform(-0.0005, 0.0005)`, the latitude jitter. It is zero exactly
      when the underlying draw is the midpoint 0.5. */
  function LatitudeJitter(u: real): (j: real)
    requires IsUnitDraw(u)
    ensures -JitterBound <= j < JitterBound
    ensures j == 0.0 <==> u == 0.5
  {
    Uniform(-JitterBound, JitterBound, u)
  }

  /** `random.uniform(-0.0005, -0.0005)`, the longitude jitter: both bounds are the
      same, so whatever the draw the jitter is -0.0005. */
  function LongitudeJitter(u: real): (j: real)
    requires IsUnitDraw(u)
    ensures j == -JitterBound
  {
    Uniform(-JitterBound, -JitterBound, u)
  }

  /** One call of `simulate_vehicle_movement`, on values: each axis gets its
      increment and then its jitter. */
  function Move(p: Location, latU: real, lonU: real): (q: Location)
    requires IsUnitDraw(latU) && IsUnitDraw(lonU)
    ensures LatitudeIncrement - JitterBound <= q.latitude - p.latitude < LatitudeIncrement + JitterBound
    ensures q.longitude == p.longitude + LongitudeStep
    ensures p.latitude < q.latitude && q.longitude < p.longitude
  {
    Location(p.latitude + LatitudeIncrement + LatitudeJitter(latU),
             p.longitude + LongitudeIncrement + LongitudeJitter(lonU))
  }

  /** Draw sequences for a run of moves: one latitude and one longitude draw per move. */
  predicate MoveDraws(latUs: seq<real>, lonUs: seq<real>) {
    |latUs| == |lonUs| && AllUnitDraws(latUs) && AllUnitDraws(lonUs)
  }

  /** The position after the moves whose draws are `latUs` and `lonUs`, in order, from `p`. */
  function Moves(p: Location, latUs: seq<real>, lonUs: seq<real>): Location
    requires MoveDraws(latUs, lonUs)
    decreases |latUs|
  {
    if |latUs| == 0 then p
    else
      var n := |latUs| - 1;
      Move(Moves(p, latUs[..n], lonUs[..n]), latUs[n], lonUs[n])
  }

  /** Appending one move's draws applies one more `Move`. */
  lemma {:induction false} MovesSnoc(p: Location, latUs: seq<real>, lonUs: seq<real>, latU: real, lonU: real)
    requires MoveDraws(latUs, lonUs) && IsUnitDraw(latU) && IsUnitDraw(lonU)
    ensures MoveDraws(latUs + [latU], lonUs + [lonU])
    ensures Moves(p, latUs + [latU], lonUs + [lonU]) == Move(Moves(p, latUs, lonUs), latU, lonU)
  {
  }

  /** No jitter draw can change the longitude trajectory: after n moves it is
      the start plus n longitude steps, with no clamping at the destination. */
  lemma {:induction false} LongitudeAfterMoves(p: Location, latUs: seq<real>, lonUs: seq<real>)
    requires MoveDraws(latUs, lonUs)
    ensures Moves(p, latUs, lonUs).longitude == p.longitude + (|lonUs| as real) * LongitudeStep
  {
    if |latUs| > 0 {
      var n := |latUs| - 1;
      LongitudeAfterMoves(p, latUs[..n], lonUs[..n]);
    }
  }

  /** After n moves the latitude lies within n jitter widths of the start plus
      n latitude increments. */
  lemma {:induction false} LatitudeAfterMoves(p: Location, latUs: seq<real>, lonUs: seq<real>)
    requires MoveDraws(latUs, lonUs)
    ensures var lat, n := Moves(p, latUs, lonUs).latitude, |latUs| as real;
      p.latitude + n * (LatitudeIncrement - JitterBound) <= lat <= p.latitude + n * (LatitudeIncrement + JitterBound)
  {
    if |latUs| > 0 {
      var n := |latUs| - 1;
      LatitudeAfterMoves(p, latUs[..n], lonUs[..n]);
    }
  }

  /** With every latitude jitter zero (every latitude draw 0.5), the latitude after
      n moves is the start plus exactly n latitude increments. */
  lemma {:induction false} LatitudeWithoutJitter(p: Location, latUs: seq<real>, lonUs: seq<real>)
    requires MoveDraws(latUs, lonUs)
    requires forall i :: 0 <= i < |latUs| ==> latUs[i] == 0.5
    ensures Moves(p, latUs, lonUs).latitude == p.latitude + (|latUs| as real) * LatitudeIncrement
  {
    if |latUs| > 0 {
      var n := |latUs| - 1;
      LatitudeWithoutJitter(p, latUs[..n], lonUs[..n]);
    }
  }

  /** Starting from Jakarta, every move takes the vehicle further from Surabaya on
      both axes: after n >= 1 moves it is further north and further west than Jakarta,
      so it never reaches Surabaya. */
  lemma {:induction false} MovesAwayFromSurabaya(latUs: seq<real>, lonUs: seq<real>)
    requires MoveDraws(latUs, lonUs) && |latUs| >= 1
    ensures var q := Moves(Jakarta, latUs, lonUs);
      q.latitude - Surabaya.latitude > Jakarta.latitude - Surabaya.latitude &&
      Surabaya.longitude - q.longitude > Surabaya.longitude - Jakarta.longitude
    ensures Moves(Jakarta, latUs, lonUs) != Surabaya
  {
    LatitudeAfterMoves(Jakarta, latUs, lonUs);
    LongitudeAfterMoves(Jakarta, latUs, lonUs);
    var n := |latUs| as real;
    assert n * (LatitudeIncrement - JitterBound) > 0.0;
    assert n * LongitudeStep < 0.0;
  }
}
