/** The camera, light and frame-timing state of Renderer, and the gate in
    Resize. Floats are modelled as reals; the size_t clock values as 64-bit
    unsigned integers, whose subtraction wraps. */
module Camera {

  const TwoTo64: int := 0x1_0000_0000_0000_0000

  newtype u64 = x: int | 0 <= x < 0x1_0000_0000_0000_0000

  /** (float)M_PI / 2, exactly as a float holds it. */
  const HalfPi: real := 1.57079637050628662109375

  /** Seconds between two microsecond readings, as the size_t difference
      (now - prev) wrapped modulo 2^64, over 10^6. */
  function ElapsedSeconds(prev: u64, now: u64): (r: real)
    ensures r >= 0.0
    ensures prev <= now ==> r == (now - prev) as real / 1000000.0
    ensures now < prev ==> r == ((now as int - prev as int) + TwoTo64) as real / 1000000.0
  {
    ((now as int - prev as int) % TwoTo64) as real / 1000000.0
  }

  /** On a clock that never runs backwards, the elapsed time of consecutive
      readings adds up: (t1 - t0) + (t2 - t1) = t2 - t0. */
  lemma ElapsedAddsUp(t0: u64, t1: u64, t2: u64)
    requires t0 <= t1 <= t2
    ensures ElapsedSeconds(t0, t1) + ElapsedSeconds(t1, t2) == ElapsedSeconds(t0, t2)
  {
  }

  class Renderer {
    var width: nat
    var height: nat
    /** The first clock reading, 0 until the first Update. */
    var usec: u64
    /** The clock reading of the last Update. */
    var currSec: u64
    var elapsedSec: real
    var lon: real
    var lat: real
    var dist: real
    var xpos: real
    var ypos: real
    var lightPower: real
    /** The back-buffer views and depth buffer exist. */
    var backBufferReady: bool

    constructor ()
      ensures width == 0 && height == 0 && usec == 0 && currSec == 0 && elapsedSec == 0.0
      ensures lon == 0.0 && lat == 0.0 && dist == 10.0 && xpos == 0.0 && ypos == 0.0
      ensures lightPower == 1.0 && !backBufferReady
    {
      width, height := 0, 0;
      usec, currSec, elapsedSec := 0, 0, 0.0;
      lon, lat, dist := 0.0, 0.0, 10.0;
      xpos, ypos := 0.0, 0.0;
      lightPower := 1.0;
      backBufferReady := false;
    }

    /** The latitude is within [-pi/2, pi/2]. */
    predicate LatitudeBounded()
      reads this
    {
      -HalfPi <= lat <= HalfPi
    }

    /** Turns the camera by the mouse motion, scaled by 5 per window size,
        then clamps the latitude to [-pi/2, pi/2]. */
    method MouseMove(dx: int, dy: int)
      requires width != 0 && height != 0
      modifies this`lon, this`lat
      ensures lon == old(lon) + dx as real / width as real * 5.0
      ensures var moved := old(lat) + dy as real / height as real * 5.0;
        && (moved <= -HalfPi ==> lat == -HalfPi)
        && (moved >= HalfPi ==> lat == HalfPi)
        && (-HalfPi < moved < HalfPi ==> lat == moved)
      ensures LatitudeBounded()
    {
      lon := lon + dx as real / width as real * 5.0;
      lat := lat + dy as real / height as real * 5.0;

      if lat <= -HalfPi {
        lat := -HalfPi;
      }
      if lat >= HalfPi {
        lat := HalfPi;
      }
    }

    /** Zooms by dz / 100; a distance below 1 snaps to exactly 0. */
    method MouseWheel(dz: int)
      modifies this`dist
      ensures var moved := old(dist) + dz as real / 100.0;
        (moved < 1.0 ==> dist == 0.0) && (moved >= 1.0 ==> dist == moved)
      ensures dist == 0.0 || dist >= 1.0
    {
      dist := dist + dz as real / 100.0;
      if dist < 1.0 {
        dist := 0.0;
      }
    }

    /** Moves sideways by deltaX and forward by deltaY, without any clamp. */
    method KeyArrowPress(deltaX: real, deltaY: real)
      modifies this`xpos, this`dist
      ensures xpos == old(xpos) + deltaX && dist == old(dist) - deltaY
    {
      xpos := xpos + deltaX;
      dist := dist - deltaY;
    }

    method SwitchLightMode(value: real)
      modifies this`lightPower
      ensures lightPower == value
    {
      lightPower := value;
    }

    /** The timing lines at the start of Update, for the clock reading `now`.
        The first call (usec still 0) starts the clock, so its frame lasts 0
        seconds; every call then measures from the previous reading. */
    method Update(now: u64) returns (ok: bool)
      modifies this`usec, this`currSec, this`elapsedSec
      ensures usec == (if old(usec) == 0 then now else old(usec))
      ensures currSec == now
      ensures elapsedSec == ElapsedSeconds(if old(usec) == 0 then now else old(currSec), now)
      ensures old(usec) == 0 ==> elapsedSec == 0.0
      ensures ok
    {
      if usec == 0 {
        usec := now;
        currSec := now;
      }

      elapsedSec := ElapsedSeconds(currSec, now);
      currSec := now;
      ok := true;
    }

    /** Acts only when the size changes: releases the back-buffer views and
        depth buffer, and takes the new size only if ResizeBuffers succeeds
        (`resized`), after which SetupBackBuffer recreates them (`setUp`). */
    method Resize(width: nat, height: nat, resized: bool, setUp: bool)
      modifies this`width, this`height, this`backBufferReady
      ensures width == old(this.width) && height == old(this.height) ==>
        this.width == width && this.height == height && backBufferReady == old(backBufferReady)
      ensures (width != old(this.width) || height != old(this.height)) ==>
        && (this.width, this.height) == (if resized then (width, height) else (old(this.width), old(this.height)))
        && backBufferReady == (resized && setUp)
    {
      if width != this.width || height != this.height {
        backBufferReady := false;

        if resized {
          this.width := width;
          this.height := height;
          backBufferReady := setUp;
        }
      }
    }
  }
}
