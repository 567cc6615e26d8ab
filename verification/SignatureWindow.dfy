/** The validity period of new signatures, in the serial arithmetic of section 3.1.5 of RFC 4034. */
module SignatureWindow {
  import opened Serials

  datatype Window = Window(inception: Serial, expiration: Serial)

  /** Both ends are computed in 32 bits, the durations being cut to 32 bits first. */
  function SigningWindow(now: Serial, inceptionOffset: nat, validityTime: nat): Window {
    Window(Wrap(now - inceptionOffset % TWO32), Wrap(now + validityTime % TWO32))
  }

  predicate AtOrBefore(a: Serial, b: Serial) {
    a == b || Before(a, b)
  }

  predicate Covers(w: Window, t: Serial) {
    AtOrBefore(w.inception, t) && AtOrBefore(t, w.expiration)
  }

  lemma WrapCut(n: int, d: nat)
    ensures Wrap(n - d % TWO32) == Wrap(n - d) && Wrap(n + d % TWO32) == Wrap(n + d)
  {
    var q := d / TWO32;
    assert d == q * TWO32 + d % TWO32;
    WrapShift(n - d, q);
    WrapShift(n + d % TWO32, q);
  }

  lemma WrapShift(n: int, q: int)
    ensures Wrap(n + q * TWO32) == Wrap(n)
  {
    assert (n + q * TWO32) % TWO32 == n % TWO32;
  }

  /** Every instant from `now - inceptionOffset` to `now + validityTime` is covered by the signature's
      window, whatever wraps, exactly if the two durations add up to less than 2^31 seconds. */
  lemma WindowCoversIntendedTime(now: Serial, inceptionOffset: nat, validityTime: nat)
    ensures (forall t :: now - inceptionOffset <= t <= now + validityTime ==>
               Covers(SigningWindow(now, inceptionOffset, validityTime), Wrap(t)))
            <==> inceptionOffset + validityTime < TWO31
  {
    var w := SigningWindow(now, inceptionOffset, validityTime);
    var from, to := now - inceptionOffset, now + validityTime;
    WrapCut(now, inceptionOffset);
    WrapCut(now, validityTime);
    if inceptionOffset + validityTime < TWO31 {
      forall t | from <= t <= to ensures Covers(w, Wrap(t)) {
        BeforeInWindow(from, t);
        BeforeInWindow(t, to);
      }
    } else {
      var t := from + TWO31;
      HalfwayIsUnordered(from);
      assert from <= t <= to && !Covers(w, Wrap(t));
    }
  }
}
