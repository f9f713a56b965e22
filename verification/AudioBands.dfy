/** The spectrum probe of the audio lighting, over exact reals: a second-order recurrence over
    the tapered window measures the power of one frequency. */
module Probe {

  datatype Complex = Complex(re: real, im: real)

  const ZERO := Complex(0.0, 0.0)
  const ONE := Complex(1.0, 0.0)

  function Plus(a: Complex, b: Complex): Complex {
    Complex(a.re + b.re, a.im + b.im)
  }

  function Times(a: Complex, b: Complex): Complex {
    Complex(a.re * b.re - a.im * b.im, a.re * b.im + a.im * b.re)
  }

  function Scaled(x: real, a: Complex): Complex {
    Complex(x * a.re, x * a.im)
  }

  function Conjugate(a: Complex): Complex {
    Complex(a.re, -a.im)
  }

  function Squared(a: Complex): real {
    a.re * a.re + a.im * a.im
  }

  /** A direction: cosine and sine of one angle. */
  predicate Unit(turn: Complex) {
    Squared(turn) == 1.0
  }

  /** `turn` applied `times` times. */
  function Turned(turn: Complex, times: nat): Complex {
    if times == 0 then ONE else Times(turn, Turned(turn, times - 1))
  }

  /** The samples' sum, the k-th turned back k times: one bin of the Fourier transform. */
  function Spectrum(samples: seq<real>, turn: Complex): Complex {
    if samples == [] then ZERO
    else
      var k := |samples| - 1;
      Plus(Spectrum(samples[..k], turn), Scaled(samples[k], Turned(Conjugate(turn), k)))
  }

  /** The recurrence's last two values. */
  datatype Last = Last(previous: real, older: real)

  const REST := Last(0.0, 0.0)

  function Advanced(last: Last, sample: real, coefficient: real): Last {
    Last(sample + coefficient * last.previous - last.older, last.previous)
  }

  function Recurrence(samples: seq<real>, coefficient: real): Last {
    if samples == [] then REST
    else Advanced(Recurrence(samples[..|samples| - 1], coefficient), samples[|samples| - 1], coefficient)
  }

  function PairPower(last: Last, coefficient: real): real {
    last.previous * last.previous + last.older * last.older - coefficient * last.previous * last.older
  }

  function Power(samples: seq<real>, coefficient: real): real {
    PairPower(Recurrence(samples, coefficient), coefficient)
  }

  /** What the last two values say about the spectrum. */
  function Seen(last: Last, turn: Complex): Complex {
    Complex(last.previous - turn.re * last.older, turn.im * last.older)
  }

  lemma {:induction false} ProductSquares(a: Complex, b: Complex)
    ensures Squared(Times(a, b)) == Squared(a) * Squared(b)
  {
    var p, q, r, s := a.re * b.re, a.im * b.im, a.re * b.im, a.im * b.re;
    assert p * q == r * s;
    assert Squared(Times(a, b)) == (p - q) * (p - q) + (r + s) * (r + s) == p * p + q * q + r * r + s * s;
    assert p * p == a.re * a.re * (b.re * b.re) && q * q == a.im * a.im * (b.im * b.im);
    assert r * r == a.re * a.re * (b.im * b.im) && s * s == a.im * a.im * (b.re * b.re);
  }

  lemma {:induction false} TimesPlus(a: Complex, b: Complex, c: Complex)
    ensures Times(a, Plus(b, c)) == Plus(Times(a, b), Times(a, c))
  {
  }

  lemma {:induction false} TimesScaled(a: Complex, x: real, b: Complex)
    ensures Times(a, Scaled(x, b)) == Scaled(x, Times(a, b))
  {
    assert a.re * (x * b.re) == x * (a.re * b.re) && a.im * (x * b.im) == x * (a.im * b.im);
    assert a.re * (x * b.im) == x * (a.re * b.im) && a.im * (x * b.re) == x * (a.im * b.re);
  }

  lemma {:induction false} TimesAssociates(a: Complex, b: Complex, c: Complex)
    ensures Times(Times(a, b), c) == Times(a, Times(b, c))
  {
    assert (a.re * b.re - a.im * b.im) * c.re == a.re * (b.re * c.re) - a.im * (b.im * c.re);
    assert (a.re * b.im + a.im * b.re) * c.im == a.re * (b.im * c.im) + a.im * (b.re * c.im);
    assert (a.re * b.re - a.im * b.im) * c.im == a.re * (b.re * c.im) - a.im * (b.im * c.im);
    assert (a.re * b.im + a.im * b.re) * c.re == a.re * (b.im * c.re) + a.im * (b.re * c.re);
  }

  lemma {:induction false} UnitFacts(turn: Complex)
    requires Unit(turn)
    ensures Times(turn, Conjugate(turn)) == ONE && Squared(turn) == 1.0 && Times(ONE, ONE) == ONE && Squared(ONE) == 1.0
  {
  }

  lemma {:induction false} TimesOne(a: Complex)
    ensures Times(ONE, a) == a && Times(a, ONE) == a && Times(a, ZERO) == ZERO && Plus(ZERO, a) == a
  {
  }

  /** Turning forth and back cancels. */
  lemma {:induction false} TurnsCancel(turn: Complex, times: nat)
    requires Unit(turn)
    ensures Times(Turned(turn, times), Turned(Conjugate(turn), times)) == ONE
    ensures Squared(Turned(turn, times)) == 1.0
  {
    hide Times, Squared, Conjugate, Unit;
    UnitFacts(turn);
    if times > 0 {
      TurnsCancel(turn, times - 1);
      var forth, back := Turned(turn, times - 1), Turned(Conjugate(turn), times - 1);
      Rearranges(turn, forth, Conjugate(turn), back);
      ProductSquares(turn, forth);
    }
  }

  lemma {:induction false} Rearranges(a: Complex, b: Complex, c: Complex, d: Complex)
    ensures Times(Times(a, b), Times(c, d)) == Times(Times(a, c), Times(b, d))
  {
    TimesAssociates(a, b, Times(c, d));
    TimesAssociates(b, c, d);
    TimesAssociates(c, b, d);
    TimesAssociates(a, c, Times(b, d));
    assert Times(b, c) == Times(c, b);
    hide Times;
  }

  lemma {:induction false} AdvancedSeen(last: Last, sample: real, turn: Complex)
    requires Unit(turn)
    ensures Seen(Advanced(last, sample, 2.0 * turn.re), turn) == Plus(Times(turn, Seen(last, turn)), Complex(sample, 0.0))
  {
    var c, s, p, o := turn.re, turn.im, last.previous, last.older;
    assert c * (p - c * o) - s * (s * o) == c * p - (c * c + s * s) * o;
    assert c * (s * o) + s * (p - c * o) == s * p;
    assert 2.0 * c * p - c * p == c * p;
  }

  /** The recurrence carries the spectrum, turned forward to the last sample. */
  lemma {:induction false} RecurrenceIsSpectrum(samples: seq<real>, turn: Complex)
    requires Unit(turn) && samples != []
    ensures Seen(Recurrence(samples, 2.0 * turn.re), turn) == Times(Turned(turn, |samples| - 1), Spectrum(samples, turn))
  {
    hide Times, Plus, Squared, Conjugate, Unit, Seen, Advanced, Scaled;
    var k := |samples| - 1;
    var init := samples[..k];
    var forth, back, here := Turned(turn, k), Turned(Conjugate(turn), k), Complex(samples[k], 0.0);
    AdvancedSeen(Recurrence(init, 2.0 * turn.re), samples[k], turn);
    TimesPlus(forth, Spectrum(init, turn), Scaled(samples[k], back));
    TimesScaled(forth, samples[k], back);
    TurnsCancel(turn, k);
    ScaledOne(samples[k]);
    if k > 0 {
      RecurrenceIsSpectrum(init, turn);
      TimesAssociates(turn, Turned(turn, k - 1), Spectrum(init, turn));
      assert Recurrence(samples, 2.0 * turn.re) == Advanced(Recurrence(init, 2.0 * turn.re), samples[k], 2.0 * turn.re);
      assert forth == Times(turn, Turned(turn, k - 1));
    } else {
      TimesOne(forth);
      TimesOne(turn);
      NothingSeen(turn);
    }
  }

  lemma {:induction false} ScaledOne(x: real)
    ensures Scaled(x, ONE) == Complex(x, 0.0)
  {
  }

  lemma {:induction false} NothingSeen(turn: Complex)
    ensures Seen(REST, turn) == ZERO
  {
  }

  lemma {:induction false} PairPowerIsSquared(last: Last, turn: Complex)
    requires Unit(turn)
    ensures PairPower(last, 2.0 * turn.re) == Squared(Seen(last, turn))
  {
    var c, s, p, o := turn.re, turn.im, last.previous, last.older;
    assert (p - c * o) * (p - c * o) == p * p - 2.0 * c * p * o + c * c * (o * o);
    assert (s * o) * (s * o) == s * s * (o * o);
    assert c * c * (o * o) + s * s * (o * o) == (c * c + s * s) * (o * o);
  }

  lemma {:induction false} SquaresArePositive(a: Complex)
    ensures Squared(a) >= 0.0
  {
    assert a.re * a.re >= 0.0 && a.im * a.im >= 0.0;
  }

  /** For a coefficient of twice a cosine, the power is the squared modulus of the spectrum. */
  lemma {:induction false} PowerIsSpectral(samples: seq<real>, turn: Complex)
    requires Unit(turn)
    ensures Power(samples, 2.0 * turn.re) == Squared(Spectrum(samples, turn)) >= 0.0
  {
    hide Times, Unit, Squared, Seen, Advanced, PairPower, Turned;
    PairPowerIsSquared(Recurrence(samples, 2.0 * turn.re), turn);
    SquaresArePositive(Spectrum(samples, turn));
    if samples == [] {
      NothingSeen(turn);
    } else {
      RecurrenceIsSpectrum(samples, turn);
      TurnsCancel(turn, |samples| - 1);
      ProductSquares(Turned(turn, |samples| - 1), Spectrum(samples, turn));
    }
  }
}

/** The ring of recent samples the probes read. */
module AudioBands {
  import opened Wrappers
  import opened Probe

  const WINDOW: nat := 2048

  /** A sample as the capture delivers it; one that is not finite has no value. */
  type Sample = Option<real>

  function Clamped(sample: Sample): real {
    if sample.None? then 0.0 else if sample.value < -1.0 then -1.0 else if sample.value > 1.0 then 1.0 else sample.value
  }

  function AllClamped(samples: seq<Sample>): (r: seq<real>)
    ensures |r| == |samples|
  {
    seq(|samples|, i requires 0 <= i < |samples| => Clamped(samples[i]))
  }

  function Zeros(count: nat): (r: seq<real>)
    ensures |r| == count
  {
    seq(count, i => 0.0)
  }

  /** The last samples a window holds. */
  function Latest(samples: seq<real>): seq<real> {
    if |samples| <= WINDOW then samples else samples[|samples| - WINDOW..]
  }

  function Tapered(window: seq<real>, taper: seq<real>): (r: seq<real>)
    requires |window| == |taper|
    ensures |r| == |window|
  {
    seq(|window|, i requires 0 <= i < |window| => window[i] * taper[i])
  }

  lemma {:induction false} LatestNext(window: seq<real>, pushed: seq<real>, x: real)
    requires |window| == WINDOW
    ensures Latest(window + (pushed + [x])) == Latest(window + pushed)[1..] + [x]
  {
  }

  lemma {:induction false} NothingPushed(window: seq<real>, incoming: seq<Sample>)
    requires |window| == WINDOW
    ensures Latest(window + AllClamped(incoming[..0])) == window == Latest(window + Zeros(0))
  {
    assert window + AllClamped(incoming[..0]) == window == window + Zeros(0);
  }

  lemma {:induction false} ClampedNext(incoming: seq<Sample>, k: nat)
    requires k < |incoming|
    ensures AllClamped(incoming[..k + 1]) == AllClamped(incoming[..k]) + [Clamped(incoming[k])]
  {
  }

  lemma {:induction false} ZerosNext(count: nat)
    ensures Zeros(count + 1) == Zeros(count) + [0.0]
  {
  }

  lemma {:induction false} AdvancedIs(previous: real, older: real, sample: real, coefficient: real)
    ensures Advanced(Last(previous, older), sample, coefficient) == Last(sample + coefficient * previous - older, previous)
  {
  }

  lemma {:induction false} PowerIs(samples: seq<real>, previous: real, older: real, coefficient: real)
    requires Recurrence(samples, coefficient) == Last(previous, older)
    ensures Power(samples, coefficient) == previous * previous + older * older - coefficient * previous * older
  {
  }

  lemma {:induction false} Nothing(samples: seq<real>, coefficient: real)
    ensures Recurrence(samples[..0], coefficient) == REST
  {
  }

  lemma {:induction false} RecurrenceNext(samples: seq<real>, k: nat, coefficient: real)
    requires k < |samples|
    ensures Recurrence(samples[..k + 1], coefficient) == Advanced(Recurrence(samples[..k], coefficient), samples[k], coefficient)
  {
    assert samples[..k + 1][..k] == samples[..k];
  }

  /** Beyond a whole window, more silence changes nothing. */
  lemma {:induction false} SilenceSaturates(window: seq<real>, count: nat)
    requires |window| == WINDOW <= count
    ensures Latest(window + Zeros(count)) == Zeros(WINDOW) == Latest(window + Zeros(WINDOW))
  {
  }

  lemma {:induction false} SilenceIsDark(count: nat, coefficient: real)
    ensures Recurrence(Zeros(count), coefficient) == REST && Power(Zeros(count), coefficient) == 0.0
  {
    if count > 0 {
      assert Zeros(count)[..count - 1] == Zeros(count - 1);
      SilenceIsDark(count - 1, coefficient);
    }
  }

  class Bands {
    const samples: array<real>
    const coefficients: seq<real>
    const taper: seq<real>
    var cursor: nat

    ghost predicate Valid()
      reads this
    {
      samples.Length == WINDOW == |taper| && cursor < WINDOW
    }

    /** The ring, oldest sample first. */
    ghost function Window(): (w: seq<real>)
      requires Valid()
      reads this, samples
      ensures |w| == WINDOW
    {
      samples[cursor..] + samples[..cursor]
    }

    constructor (coefficients: seq<real>, taper: seq<real>)
      requires |taper| == WINDOW
      ensures Valid() && fresh(samples) && this.coefficients == coefficients && this.taper == taper && Window() == Zeros(WINDOW)
    {
      this.coefficients, this.taper, cursor := coefficients, taper, 0;
      samples := new real[WINDOW](i => 0.0);
    }

    method Put(x: real)
      requires Valid()
      modifies this`cursor, samples
      ensures Valid() && Window() == old(Window())[1..] + [x]
    {
      samples[cursor] := x;
      cursor := (cursor + 1) % WINDOW;
      assert samples[..] == old(samples[..])[old(cursor) := x];
    }

    method Push(incoming: seq<Sample>)
      requires Valid()
      modifies this`cursor, samples
      ensures Valid() && Window() == Latest(old(Window()) + AllClamped(incoming))
    {
      hide Latest, Clamped, AllClamped;
      ghost var before := Window();
      NothingPushed(before, incoming);
      for k := 0 to |incoming|
        invariant Valid() && Window() == Latest(before + AllClamped(incoming[..k]))
      {
        LatestNext(before, AllClamped(incoming[..k]), Clamped(incoming[k]));
        ClampedNext(incoming, k);
        Put(Clamped(incoming[k]));
      }
      assert incoming[..|incoming|] == incoming;
    }

    /** As pushing that many zeros, without more than a window of work. */
    method Silence(count: nat)
      requires Valid()
      modifies this`cursor, samples
      ensures Valid() && Window() == Latest(old(Window()) + Zeros(count))
    {
      hide Latest, Zeros;
      ghost var before := Window();
      NothingPushed(before, []);
      var work := if count < WINDOW then count else WINDOW;
      for k := 0 to work
        invariant Valid() && Window() == Latest(before + Zeros(k))
      {
        LatestNext(before, Zeros(k), 0.0);
        ZerosNext(k);
        Put(0.0);
      }
      if count >= WINDOW { SilenceSaturates(before, count); }
    }

    /** One band's power: for a coefficient of twice a cosine, the spectrum's at that angle. */
    method Measure(band: nat) returns (power: real)
      requires Valid() && band < |coefficients|
      ensures var exact := Power(Tapered(Window(), taper), coefficients[band]); power == if exact < 0.0 then 0.0 else exact
      ensures forall turn: Complex | Unit(turn) && coefficients[band] == 2.0 * turn.re
        :: power == Squared(Spectrum(Tapered(Window(), taper), turn))
    {
      hide Recurrence, Spectrum, Squared, Unit;
      var coefficient := coefficients[band];
      var previous, older := 0.0, 0.0;
      ghost var tapered := Tapered(Window(), taper);
      Nothing(tapered, coefficient);
      for i := 0 to WINDOW
        invariant Recurrence(tapered[..i], coefficient) == Last(previous, older)
      {
        var sample := samples[(cursor + i) % WINDOW] * taper[i];
        assert sample == tapered[i];
        RecurrenceNext(tapered, i, coefficient);
        var next := sample + coefficient * previous - older;
        AdvancedIs(previous, older, sample, coefficient);
        older := previous;
        previous := next;
      }
      assert tapered[..WINDOW] == tapered;
      power := previous * previous + older * older - coefficient * previous * older;
      PowerIs(tapered, previous, older, coefficient);
      forall turn: Complex | Unit(turn) && coefficient == 2.0 * turn.re
        ensures power == Squared(Spectrum(tapered, turn)) >= 0.0
      {
        PowerIsSpectral(tapered, turn);
      }
      if power < 0.0 { power := 0.0; }
    }
  }
}
