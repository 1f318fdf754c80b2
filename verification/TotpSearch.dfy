/** The search for how far an authenticator's clock has drifted. */
module TotpSearch {
  import opened Options

  /** The four bands, in seconds either side of now. */
  const BANDS: seq<nat> := [2 * 60 * 60, 2 * 86400, 60 * 86400, 730 * 86400]

  function Abs(d: int): nat {
    if d < 0 then -d else d
  }

  /** The code the app showed belongs to the step d away, and the next one to the step after it. */
  predicate Matches(codeAt: int -> string, here: int, code: string, next: Option<string>, d: int) {
    codeAt(here + d) == code && (next.Some? ==> codeAt(here + d + 1) == next.value)
  }

  /** Nearer, or as near and negative. */
  predicate Before(a: int, b: int) {
    Abs(a) < Abs(b) || (Abs(a) == Abs(b) && a <= b)
  }

  ghost predicate Nearest(codeAt: int -> string, here: int, code: string, next: Option<string>, lo: int, hi: int, found: Option<int>) {
    && (found.Some? ==> lo <= found.value < hi && Matches(codeAt, here, code, next, found.value))
    && (forall d :: lo <= d < hi && Matches(codeAt, here, code, next, d) ==> found.Some? && Before(found.value, d))
  }

  /** There is only one answer. */
  lemma NearestIsOne(codeAt: int -> string, here: int, code: string, next: Option<string>, lo: int, hi: int, a: Option<int>, b: Option<int>)
    requires Nearest(codeAt, here, code, next, lo, hi, a) && Nearest(codeAt, here, code, next, lo, hi, b)
    ensures a == b
  {
  }

  /** A match in a narrow band is nearer than anything a wider one adds. */
  lemma NarrowIsEnough(codeAt: int -> string, here: int, code: string, next: Option<string>, span: int, wide: int, found: Option<int>)
    requires Nearest(codeAt, here, code, next, -span, span + 1, found) && found.Some? && 0 <= span <= wide
    ensures Nearest(codeAt, here, code, next, -wide, wide + 1, found)
  {
  }

  function Span(band: nat, step: int): (span: int)
    requires step > 0 && band < |BANDS|
    ensures span >= 0
  {
    BANDS[band] / step
  }

  lemma Wider(step: int, band: nat)
    requires step > 0 && band < |BANDS|
    ensures Span(band, step) <= Span(|BANDS| - 1, step)
  {
    Divided(BANDS[band], BANDS[|BANDS| - 1], step);
  }

  lemma Divided(a: int, b: int, step: int)
    requires step > 0 && a <= b
    ensures a / step <= b / step
  {
    Quotients(a / step, a % step, b / step, b % step, step);
  }

  lemma Quotients(q: int, r: int, p: int, t: int, step: int)
    requires step > 0 && 0 <= r && t < step && q * step + r <= p * step + t
    ensures q <= p
  {
    assert (q - p) * step < step;
    if q > p {
      Product(q - p - 1, step);
    }
  }

  lemma Product(x: int, y: int)
    requires x >= 0 && y >= 0
    ensures x * y >= 0
  {
  }

  /** Over the whole two years either side: the offset nearest to now at which the code fits, the
      earlier of two equally near, and none only when none fits. Stopping at the first band with a
      match loses nothing. */
  method Diagnose(codeAt: int -> string, here: int, step: int, code: string, next: Option<string>) returns (nearest: Option<int>)
    requires step > 0
    ensures Nearest(codeAt, here, code, next, -Span(|BANDS| - 1, step), Span(|BANDS| - 1, step) + 1, nearest)
  {
    nearest := None;
    var band: int := 0;
    while band < |BANDS| && nearest.None?
      invariant 0 <= band <= |BANDS| && (nearest.Some? ==> band > 0)
      invariant band > 0 ==> Nearest(codeAt, here, code, next, -Span(band - 1, step), Span(band - 1, step) + 1, nearest)
    {
      var span := Span(band, step);
      var d := -span;
      while d < span + 1
        invariant -span <= d <= span + 1
        invariant Nearest(codeAt, here, code, next, -span, d, nearest)
      {
        if codeAt(here + d) == code && (next.None? || codeAt(here + d + 1) == next.value) {
          if nearest.None? || Abs(d) < Abs(nearest.value) {
            nearest := Some(d);
          }
        }
        d := d + 1;
      }
      band := band + 1;
    }
    if nearest.Some? {
      Wider(step, band - 1);
      NarrowIsEnough(codeAt, here, code, next, Span(band - 1, step), Span(|BANDS| - 1, step), nearest);
    }
  }
}
