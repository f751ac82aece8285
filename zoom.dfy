/**
 * The preview zoom shared by both clients: a percentage that the zoom-in and
 * zoom-out buttons move by 10, clamped to [50, 200]
 * (Math.min(200, z + 10) and Math.max(50, z - 10)).
 */
module Zoom {

  const Min := 50
  const Max := 200
  const Step := 10
  const Initial := 100

  /** A reachable zoom level: within bounds and a multiple of the step. */
  predicate Valid(z: int)
  {
    Min <= z <= Max && z % Step == 0
  }

  function In(z: int): (r: int)
    ensures Valid(z) ==> Valid(r) && z <= r
    ensures r <= Max
  {
    if z + Step < Max then z + Step else Max
  }

  function Out(z: int): (r: int)
    ensures Valid(z) ==> Valid(r) && r <= z
    ensures Min <= r
  {
    if z - Step > Min then z - Step else Min
  }

  datatype Click = ZoomInClick | ZoomOutClick

  /** The zoom level after a run of button clicks, taken in order. */
  function AfterClicks(z: int, clicks: seq<Click>): (r: int)
    decreases |clicks|
  {
    if |clicks| == 0 then z
    else AfterClicks(if clicks[0] == ZoomInClick then In(z) else Out(z), clicks[1..])
  }

  /** However many clicks, in whatever order, a valid zoom stays valid. */
  lemma {:induction false} ClicksKeepValid(z: int, clicks: seq<Click>)
    requires Valid(z)
    ensures Valid(AfterClicks(z, clicks))
    decreases |clicks|
  {
    if |clicks| > 0 {
      ClicksKeepValid(if clicks[0] == ZoomInClick then In(z) else Out(z), clicks[1..]);
    }
  }

  /** n zoom-in clicks from a valid level reach min(200, z + 10 n): the clamp saturates, never overshoots. */
  lemma {:induction false} RepeatedZoomIn(z: int, n: nat)
    requires Valid(z)
    ensures AfterClicks(z, seq(n, _ => ZoomInClick)) == if z + Step * n < Max then z + Step * n else Max
    decreases n
  {
    if n > 0 {
      var clicks := seq(n, _ => ZoomInClick);
      assert clicks[1..] == seq(n - 1, _ => ZoomInClick);
      RepeatedZoomIn(In(z), n - 1);
    }
  }

  /** n zoom-out clicks from a valid level reach max(50, z - 10 n). */
  lemma {:induction false} RepeatedZoomOut(z: int, n: nat)
    requires Valid(z)
    ensures AfterClicks(z, seq(n, _ => ZoomOutClick)) == if z - Step * n > Min then z - Step * n else Min
    decreases n
  {
    if n > 0 {
      var clicks := seq(n, _ => ZoomOutClick);
      assert clicks[1..] == seq(n - 1, _ => ZoomOutClick);
      RepeatedZoomOut(Out(z), n - 1);
    }
  }

  /** Away from the bounds, zooming in and out undo each other; at a bound the button does nothing. */
  lemma InOutInverse(z: int)
    requires Valid(z)
    ensures z < Max ==> Out(In(z)) == z
    ensures z > Min ==> In(Out(z)) == z
    ensures In(Max) == Max && Out(Min) == Min
  {
  }

  /** Two quick zoom-in clicks from 190 end at 200, not 210. */
  lemma TwoClicksFrom190()
    ensures AfterClicks(190, [ZoomInClick, ZoomInClick]) == 200
  {
    RepeatedZoomIn(190, 2);
    assert [ZoomInClick, ZoomInClick] == seq(2, _ => ZoomInClick);
  }
}
