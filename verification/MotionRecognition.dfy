/**
 Fading the ring tone out in steps when the phone is picked up: one step per volume level, spread over a fixed
 time. The volume table maps a level to its loudness; loudness is a real number here.
 */
module MotionRecognition {
  // In microseconds.
  const REDUCE_RING_TOTAL_LENGTH := 1500000

  /** Louder with every level, and audible from the first one on. */
  ghost predicate Increasing(loudness: int -> real, top: int) {
    && (forall v :: 1 <= v <= top ==> loudness(v) > 0.0)
    && forall v, w :: 1 <= v < w <= top ==> loudness(v) < loudness(w)
  }

  /** The volume set at a level, as a share of the starting loudness, if the reading there can be used. */
  predicate Sets(loudness: int -> real, top: int, level: int, volume: real)
    requires loudness(top) != 0.0
  {
    loudness(level) != 0.0 && loudness(level) < loudness(top) && volume == loudness(level) / loudness(top)
  }

  function Pause(top: int): (us: nat)
    requires top > 1
    ensures (top - 1) * us <= REDUCE_RING_TOTAL_LENGTH < (top - 1) * us + (top - 1)
  {
    REDUCE_RING_TOTAL_LENGTH / (top - 1)
  }

  /**
   What a fade does: `settings` are the volumes set, relative to the starting loudness, and `slept` is the time
   spent, in microseconds. It goes down level by level, and stops before level 1 only at an unusable reading.
   */
  ghost predicate Fade(top: int, loudness: int -> real, settings: seq<real>, slept: int) {
    if top <= 1 || loudness(top) == 0.0 then settings == [] && slept == 0
    else
      && |settings| <= top - 1
      && slept == |settings| * Pause(top)
      && (forall k :: 0 <= k < |settings| ==> Sets(loudness, top, top - 1 - k, settings[k]))
      && (|settings| < top - 1 ==>
            loudness(top - 1 - |settings|) == 0.0 || loudness(top) <= loudness(top - 1 - |settings|))
  }

  method ReduceRingToneVolume(currentVolume: int, loudness: int -> real)
    returns (settings: seq<real>, slept: int)
    ensures Fade(currentVolume, loudness, settings, slept)
  {
    settings, slept := [], 0;
    var count := 0;
    if currentVolume <= 1 {
      return;
    }
    var beginVolumeDb := loudness(currentVolume);
    if beginVolumeDb == 0.0 {
      return;
    }
    var reduceCount := currentVolume - 1;
    while count < reduceCount
      invariant 0 <= count <= reduceCount && |settings| == count
      invariant slept == count * Pause(currentVolume)
      invariant forall k :: 0 <= k < count ==> Sets(loudness, currentVolume, currentVolume - 1 - k, settings[k])
    {
      count := count + 1;
      var endVolumeDb := loudness(currentVolume - count);
      if endVolumeDb == 0.0 || beginVolumeDb <= endVolumeDb {
        return;
      }
      settings := settings + [endVolumeDb / beginVolumeDb];
      OneMore(count, Pause(currentVolume));
      slept := slept + REDUCE_RING_TOTAL_LENGTH / reduceCount;
    }
  }

  lemma OneMore(count: int, pause: int)
    ensures (count - 1) * pause + pause == count * pause
  {
  }

  lemma SignOfFactor(x: real, whole: real)
    requires 0.0 < whole && 0.0 < x * whole
    ensures 0.0 < x
  {
  }

  lemma RatioOrder(less: real, more: real, whole: real)
    requires 0.0 < whole && less < more
    ensures less / whole < more / whole
  {
    var a, b := less / whole, more / whole;
    assert a * whole == less && b * whole == more;
    SignOfFactor(b - a, whole);
  }

  lemma RatioBetween(part: real, whole: real)
    requires 0.0 < whole && part < whole
    ensures part / whole < 1.0 && (0.0 < part ==> 0.0 < part / whole)
  {
    assert whole / whole == 1.0;
    RatioOrder(part, whole, whole);
    if 0.0 < part {
      assert 0.0 / whole == 0.0;
      RatioOrder(0.0, part, whole);
    }
  }

  lemma MoreTakesLonger(count: int, most: int, pause: nat)
    requires 0 <= count <= most
    ensures 0 <= count * pause <= most * pause
  {
  }

  /** Whatever the table, the time spent is within the budget, and every volume set is below the starting one. */
  lemma WithinBudget(top: int, loudness: int -> real, settings: seq<real>, slept: int)
    requires Fade(top, loudness, settings, slept)
    ensures 0 <= slept <= REDUCE_RING_TOTAL_LENGTH
    ensures top > 1 && loudness(top) > 0.0 ==> forall k :: 0 <= k < |settings| ==> settings[k] < 1.0
  {
    if top > 1 && loudness(top) != 0.0 {
      MoreTakesLonger(|settings|, top - 1, Pause(top));
      if loudness(top) > 0.0 {
        forall k | 0 <= k < |settings|
          ensures settings[k] < 1.0
        {
          assert Sets(loudness, top, top - 1 - k, settings[k]);
          RatioBetween(loudness(top - 1 - k), loudness(top));
        }
      }
    }
  }

  lemma SetAt(top: int, loudness: int -> real, settings: seq<real>, slept: int, k: nat)
    requires Fade(top, loudness, settings, slept) && k < |settings|
    ensures loudness(top) != 0.0 && Sets(loudness, top, top - 1 - k, settings[k])
  {
  }

  /**
   The fade goes past exactly the levels whose readings are neither zero nor as loud as the start, and has paused
   for the same time at each.
   */
  lemma FadeStopsAt(top: int, loudness: int -> real, settings: seq<real>, slept: int, n: nat)
    requires Fade(top, loudness, settings, slept) && top > 1 && loudness(top) != 0.0 && n < top
    ensures |settings| >= n <==>
      forall level :: top - n <= level < top ==> loudness(level) != 0.0 && loudness(level) < loudness(top)
    ensures slept == |settings| * (1500000 / (top - 1))
  {
    if |settings| >= n {
      forall level | top - n <= level < top
        ensures loudness(level) != 0.0 && loudness(level) < loudness(top)
      {
        SetAt(top, loudness, settings, slept, top - 1 - level);
      }
    }
  }

  /** The settings and the time depend on the table alone. */
  lemma FadeIsDetermined(top: int, loudness: int -> real, a: seq<real>, b: seq<real>, x: int, y: int)
    requires Fade(top, loudness, a, x) && Fade(top, loudness, b, y)
    ensures a == b && x == y
  {
    if |a| < |b| {
      SetAt(top, loudness, b, y, |a|);
    } else if |b| < |a| {
      SetAt(top, loudness, a, x, |b|);
    } else {
      forall k | 0 <= k < |a|
        ensures a[k] == b[k]
      {
        assert Sets(loudness, top, top - 1 - k, a[k]) && Sets(loudness, top, top - 1 - k, b[k]);
      }
    }
  }

  /**
   With a usable table the fade is complete: one setting for every level below the top, each softer than the one
   before and between 0 and 1, the last one the ratio of level 1; and it takes the whole time, short of less than
   one microsecond a step.
   */
  lemma FadeIsComplete(top: int, loudness: int -> real, settings: seq<real>, slept: int)
    requires top > 1 && Increasing(loudness, top) && Fade(top, loudness, settings, slept)
    ensures |settings| == top - 1
    ensures forall k :: 0 <= k < |settings| ==> 0.0 < settings[k] < 1.0
    ensures forall j, k :: 0 <= j < k < |settings| ==> settings[k] < settings[j]
    ensures settings[|settings| - 1] == loudness(1) / loudness(top)
    ensures REDUCE_RING_TOTAL_LENGTH - (top - 1) < slept <= REDUCE_RING_TOTAL_LENGTH
  {
    forall k | 0 <= k < |settings|
      ensures 0.0 < settings[k] < 1.0
    {
      assert Sets(loudness, top, top - 1 - k, settings[k]);
      RatioBetween(loudness(top - 1 - k), loudness(top));
    }
    forall j, k | 0 <= j < k < |settings|
      ensures settings[k] < settings[j]
    {
      assert Sets(loudness, top, top - 1 - j, settings[j]) && Sets(loudness, top, top - 1 - k, settings[k]);
      RatioOrder(loudness(top - 1 - k), loudness(top - 1 - j), loudness(top));
    }
  }
}
