/** The waveform component: smoothing of the band amplitudes, the per-point
    radius formula, the path builder, the layer map and the beat/colour state. */
module Waveform {
  import opened Bands

  // ---------------------------------------------------------------------------
  // Smoothing
  // ---------------------------------------------------------------------------

  /** The factor `updateWaveform` passes to `smoothValue`. */
  const SMOOTHING: real := 0.2

  /** `r` lies on the closed segment between `a` and `b`. */
  predicate Between(r: real, a: real, b: real)
  {
    (a <= b ==> a <= r <= b) && (b <= a ==> b <= r <= a)
  }

  /** A fraction in [0,1] of `d` lies between 0 and `d`. */
  lemma ScaledBetween(f: real, d: real)
    requires 0.0 <= f <= 1.0
    ensures Between(f * d, 0.0, d)
  {
    if d >= 0.0 {
      NonnegativeProduct(f, d);
      NonnegativeProduct(1.0 - f, d);
    } else {
      NonnegativeProduct(f, -d);
      NonnegativeProduct(1.0 - f, -d);
    }
  }

  lemma NonnegativeProduct(a: real, b: real)
    requires 0.0 <= a && 0.0 <= b
    ensures 0.0 <= a * b
  {
  }

  lemma SmoothStep(current: real, target: real, factor: real)
    ensures current * (1.0 - factor) + target * factor == current + factor * (target - current)
  {
    assert current * (1.0 - factor) == current - current * factor;
    assert factor * (target - current) == factor * target - factor * current;
  }

  lemma SmoothValueFacts(current: real, target: real, factor: real)
    ensures var r := current * (1.0 - factor) + target * factor;
      r - current == factor * (target - current) &&
      (0.0 <= factor <= 1.0 ==> Between(r, current, target))
  {
    SmoothStep(current, target, factor);
    if 0.0 <= factor <= 1.0 {
      ScaledBetween(factor, target - current);
    }
  }

  /** Exponential smoothing: moves `current` towards `target` by the fraction `factor`. */
  function SmoothValue(current: real, target: real, factor: real): (r: real)
    ensures r - current == factor * (target - current)
    ensures 0.0 <= factor <= 1.0 ==> Between(r, current, target)
    ensures factor == 0.0 ==> r == current
    ensures factor == 1.0 ==> r == target
    ensures current == target ==> r == current
  {
    SmoothValueFacts(current, target, factor);
    current * (1.0 - factor) + target * factor
  }

  /** One `updateWaveform` step: every band smoothed towards its raw reading
      with factor 0.2. Each band stays between its old value and its reading,
      and its distance to the reading shrinks to exactly 0.8 of what it was. */
  function Smooth(prev: Bands, raw: Bands): (r: Bands)
    ensures forall k: Band :: Between(Get(r, k), Get(prev, k), Get(raw, k))
    ensures forall k: Band :: Get(r, k) - Get(raw, k) == 0.8 * (Get(prev, k) - Get(raw, k))
  {
    Bands(SmoothValue(prev.low, raw.low, SMOOTHING),
          SmoothValue(prev.mid, raw.mid, SMOOTHING),
          SmoothValue(prev.high, raw.high, SMOOTHING))
  }

  function Pow(b: real, n: nat): (p: real)
  {
    if n == 0 then 1.0 else b * Pow(b, n - 1)
  }

  /** `n` successive smoothing steps of one band towards the constant reading `target`. */
  function SmoothToward(current: real, target: real, n: nat): (r: real)
  {
    if n == 0 then current else SmoothValue(SmoothToward(current, target, n - 1), target, SMOOTHING)
  }

  lemma Associate(a: real, b: real, c: real)
    ensures a * (b * c) == (a * b) * c
  {
  }

  /** Smoothing towards a constant is a contraction by 0.8 per step that never
      overshoots: after `n` steps the distance is exactly `0.8^n` times the
      initial one, the value is still between the start and the target, and
      each step lands between the previous value and the target. */
  lemma {:induction false} SmoothTowardContracts(current: real, target: real, n: nat)
    ensures SmoothToward(current, target, n) - target == Pow(0.8, n) * (current - target)
    ensures Between(SmoothToward(current, target, n), current, target)
    ensures Between(SmoothToward(current, target, n + 1), SmoothToward(current, target, n), target)
  {
    if n > 0 {
      SmoothTowardContracts(current, target, n - 1);
      var x := SmoothToward(current, target, n - 1);
      calc {
        SmoothToward(current, target, n) - target;
        0.8 * (x - target);
        0.8 * (Pow(0.8, n - 1) * (current - target));
        { Associate(0.8, Pow(0.8, n - 1), current - target); }
        (0.8 * Pow(0.8, n - 1)) * (current - target);
        Pow(0.8, n) * (current - target);
      }
    }
  }

  /** The amplitude after feeding the raw readings `inputs`, oldest first, to
      successive `updateWaveform` steps starting from `start`. */
  function Run(start: Bands, inputs: seq<Bands>): (r: Bands)
  {
    if inputs == [] then start else Smooth(Run(start, inputs[..|inputs| - 1]), inputs[|inputs| - 1])
  }

  /** The same fold for a single band. */
  function RunBand(start: real, inputs: seq<real>): (r: real)
  {
    if inputs == [] then start else SmoothValue(RunBand(start, inputs[..|inputs| - 1]), inputs[|inputs| - 1], SMOOTHING)
  }

  /** The readings of band `k` in a sequence of raw readings. */
  function Column(inputs: seq<Bands>, k: Band): (c: seq<real>)
    ensures |c| == |inputs|
    ensures forall i :: 0 <= i < |inputs| ==> c[i] == Get(inputs[i], k)
  {
    seq(|inputs|, i requires 0 <= i < |inputs| => Get(inputs[i], k))
  }

  /** Bands are smoothed independently: band `k` of the amplitude depends only
      on band `k` of the start value and of each reading. */
  lemma {:induction false} RunBandwise(start: Bands, inputs: seq<Bands>, k: Band)
    ensures Get(Run(start, inputs), k) == RunBand(Get(start, k), Column(inputs, k))
  {
    if inputs != [] {
      var n := |inputs| - 1;
      RunBandwise(start, inputs[..n], k);
      assert Column(inputs[..n], k) == Column(inputs, k)[..n];
    }
  }

  /** From an amplitude in [0,1], readings in [0,1) keep every band in [0,1]
      after any number of steps. */
  lemma {:induction false} RunStaysInUnit(start: Bands, inputs: seq<Bands>)
    requires InUnit(start)
    requires forall i :: 0 <= i < |inputs| ==> InRandomRange(inputs[i])
    ensures InUnit(Run(start, inputs))
  {
    if inputs != [] {
      var n := |inputs| - 1;
      RunStaysInUnit(start, inputs[..n]);
      var prev, raw := Run(start, inputs[..n]), inputs[n];
      assert InRandomRange(raw);
      forall k: Band ensures 0.0 <= Get(Smooth(prev, raw), k) <= 1.0 {
        assert 0.0 <= Get(prev, k) <= 1.0 && 0.0 <= Get(raw, k) < 1.0;
      }
    }
  }

  // ---------------------------------------------------------------------------
  // Geometry
  // ---------------------------------------------------------------------------

  /** `Math.sin`, `Math.cos` and `Math.PI`, left uninterpreted. */
  datatype Trig = Trig(sin: real -> real, cos: real -> real, pi: real)

  /** One SVG path command; the formatting of its coordinates into text is not modelled. */
  datatype Command = MoveTo(x: real, y: real) | LineTo(x: real, y: real) | ClosePath

  /** three.js `MathUtils.mapLinear`: the affine map sending `a1` to `b1` and
      `a2` to `b2`, extrapolated outside the domain. */
  function MapLinear(x: real, a1: real, a2: real, b1: real, b2: real): (r: real)
    requires a1 != a2
    ensures x == a1 ==> r == b1
    ensures x == a2 ==> r == b2
    ensures a1 < a2 && b1 <= b2 && a1 <= x <= a2 ==> b1 <= r <= b2
  {
    var r := b1 + (x - a1) * (b2 - b1) / (a2 - a1);
    var t := (x - a1) / (a2 - a1);
    QuotientTimes(x - a1, b2 - b1, a2 - a1);
    if a1 < a2 && a1 <= x <= a2 then
      UnitQuotient(x - a1, a2 - a1);
      ScaledBetween(t, b2 - b1);
      r
    else r
  }

  lemma QuotientTimes(n: real, m: real, d: real)
    requires d != 0.0
    ensures n * m / d == (n / d) * m
  {
    var q := n / d;
    assert n == q * d;
    assert n * m == (q * m) * d;
  }

  lemma UnitQuotient(n: real, d: real)
    requires 0.0 <= n <= d && 0.0 < d
    ensures 0.0 <= n / d <= 1.0
  {
    var q := n / d;
    assert q * d == n;
    SignOfFactor(q, d);
    assert (1.0 - q) * d == d - n;
    SignOfFactor(1.0 - q, d);
  }

  lemma SignOfFactor(a: real, b: real)
    requires 0.0 < b && 0.0 <= a * b
    ensures 0.0 <= a
  {
  }

  /** `high` mapped from [0, 0.6] onto [-0.1, 0.2]. */
  function MappedHigh(high: real): (r: real)
    ensures high == 0.0 ==> r == -0.1
    ensures high == 0.6 ==> r == 0.2
    ensures 0.0 <= high <= 0.6 ==> -0.1 <= r <= 0.2
  {
    MapLinear(high, 0.0, 0.6, -0.1, 0.2)
  }

  /** `low` mapped from [0.6, 1] onto [0.2, 0.5]. */
  function MappedLow(low: real): (r: real)
    ensures low == 0.6 ==> r == 0.2
    ensures low == 1.0 ==> r == 0.5
    ensures 0.6 <= low <= 1.0 ==> 0.2 <= r <= 0.5
  {
    MapLinear(low, 0.6, 1.0, 0.2, 0.5)
  }

  /** `mid * 0.6`: a mid energy in [0,1] gives a gain in [0, 0.6]. */
  function OffsetGain(mid: real): (g: real)
    ensures mid == 0.0 ==> g == 0.0
    ensures 0.0 <= mid <= 1.0 ==> 0.0 <= g <= 0.6
  {
    mid * 0.6
  }

  /** The position `i / points` of point `i` along the polygon, as a fraction of a turn. */
  function Fraction(i: nat, points: nat): (f: real)
    requires i < points
    ensures 0.0 <= f < 1.0
    ensures i == 0 ==> f == 0.0
  {
    var f := i as real / points as real;
    UnitQuotient(i as real, points as real);
    assert f * points as real == i as real;
    f
  }

  /** `(i / points) * 2 * PI`: the first point sits at angle 0. */
  function Angle(i: nat, points: nat, trig: Trig): (a: real)
    requires i < points
    ensures i == 0 ==> a == 0.0
  {
    Fraction(i, points) * 2.0 * trig.pi
  }

  /** `(mappedHigh + offsetGain + mappedLow * sin(i / 10)) * 80`. Where
      `sin(i / 10)` vanishes, only the high and mid terms remain. */
  function SpikeFactor(amp: Bands, i: nat, trig: Trig): (s: real)
    ensures trig.sin(i as real / 10.0) == 0.0 ==> s == (MappedHigh(amp.high) + OffsetGain(amp.mid)) * 80.0
  {
    (MappedHigh(amp.high) + OffsetGain(amp.mid) + MappedLow(amp.low) * trig.sin(i as real / 10.0)) * 80.0
  }

  /** `radius + (layer / 6) * spikeFactor * sin(frequency * (i / points) * 3 * PI)`:
      the radius of point `i` of layer `layer` with base radius `radius`. It
      equals the base radius on layer 0, where the spike factor is zero, and
      where the modulating sine is zero. */
  function ModRadius(amp: Bands, i: nat, points: nat, layer: nat, frequency: real, radius: real, trig: Trig): (m: real)
    requires i < points
    ensures layer == 0 ==> m == radius
    ensures SpikeFactor(amp, i, trig) == 0.0 ==> m == radius
    ensures trig.sin(frequency * Fraction(i, points) * 3.0 * trig.pi) == 0.0 ==> m == radius
  {
    radius + (layer as real / 6.0) * SpikeFactor(amp, i, trig) * trig.sin(frequency * Fraction(i, points) * 3.0 * trig.pi)
  }

  /** The command for point `i`: a move for the first point, a line for the
      others, to `(modRadius * cos(angle), modRadius * sin(angle))`. */
  function Vertex(amp: Bands, i: nat, points: nat, layer: nat, frequency: real, radius: real, trig: Trig): (v: Command)
    requires i < points
    ensures v.MoveTo? <==> i == 0
    ensures !v.ClosePath?
    ensures var m, a := ModRadius(amp, i, points, layer, frequency, radius, trig), Angle(i, points, trig);
      v.x == m * trig.cos(a) && v.y == m * trig.sin(a)
  {
    var m := ModRadius(amp, i, points, layer, frequency, radius, trig);
    var a := Angle(i, points, trig);
    if i == 0 then MoveTo(m * trig.cos(a), m * trig.sin(a)) else LineTo(m * trig.cos(a), m * trig.sin(a))
  }

  /** The commands of one layer's path: one per point, then the closing command. */
  function Path(amp: Bands, points: nat, layer: nat, frequency: real, radius: real, trig: Trig): (p: seq<Command>)
    ensures |p| == points + 1
    ensures p[points] == ClosePath
    ensures points > 0 ==> p[0].MoveTo?
    ensures forall j :: 0 < j < points ==> p[j].LineTo?
    ensures forall j :: 0 <= j < points ==> p[j] == Vertex(amp, j, points, layer, frequency, radius, trig)
    ensures points == 0 ==> p == [ClosePath]
  {
    seq(points + 1, j requires 0 <= j <= points =>
      if j < points then Vertex(amp, j, points, layer, frequency, radius, trig) else ClosePath)
  }

  /** `generatePath`: pushes one command per point, then the closing command. */
  method GeneratePath(amp: Bands, points: nat, layer: nat, frequency: real, radius: real, trig: Trig)
    returns (pathData: seq<Command>)
    ensures pathData == Path(amp, points, layer, frequency, radius, trig)
  {
    pathData := [];
    for i := 0 to points
      invariant |pathData| == i
      invariant forall j :: 0 <= j < i ==> pathData[j] == Vertex(amp, j, points, layer, frequency, radius, trig)
    {
      var angle := Angle(i, points, trig);
      var modRadius := ModRadius(amp, i, points, layer, frequency, radius, trig);
      var x := modRadius * trig.cos(angle);
      var y := modRadius * trig.sin(angle);
      pathData := pathData + [if i == 0 then MoveTo(x, y) else LineTo(x, y)];
    }
    pathData := pathData + [ClosePath];
  }

  /** The innermost layer (index 0) is a circle of the base radius whatever the
      amplitudes: its factor `layer / 6` is zero. */
  lemma Layer0IsCircle(amp: Bands, points: nat, frequency: real, radius: real, trig: Trig, i: nat)
    requires i < points
    ensures ModRadius(amp, i, points, 0, frequency, radius, trig) == radius
    ensures var a := Angle(i, points, trig);
      Path(amp, points, 0, frequency, radius, trig)[i]
        == if i == 0 then MoveTo(radius * trig.cos(a), radius * trig.sin(a))
           else LineTo(radius * trig.cos(a), radius * trig.sin(a))
  {
  }

  /** With all three energies zero the spike factor is `-8 - 20 sin(i/10)`,
      which is not zero: `low` 0 maps to -0.25 and `high` 0 to -0.1. */
  lemma ZeroEnergySpike(i: nat, trig: Trig)
    ensures SpikeFactor(Bands(0.0, 0.0, 0.0), i, trig) == -8.0 - 20.0 * trig.sin(i as real / 10.0)
  {
    assert MappedLow(0.0) == -0.25;
  }

  /** Base radius of layer `layer`: layers nest outwards 5 units apart. */
  function LayerRadius(radius: real, layer: nat): (r: real)
  {
    radius + layer as real * 5.0
  }

  lemma LayerRadiiIncrease(radius: real, j: nat, k: nat)
    requires j < k
    ensures LayerRadius(radius, j) < LayerRadius(radius, k)
    ensures LayerRadius(radius, k) - LayerRadius(radius, j) == 5.0 * (k - j) as real
    ensures LayerRadius(radius, 0) == radius
  {
  }

  /** The layer map of the rendered SVG: one path per layer, path `k` generated
      for layer index `k` with base radius `radius + 5k`. */
  method RenderLayers(amp: Bands, points: nat, layers: nat, frequency: real, radius: real, trig: Trig)
    returns (paths: seq<seq<Command>>)
    ensures |paths| == layers
    ensures forall k :: 0 <= k < layers ==> paths[k] == Path(amp, points, k, frequency, LayerRadius(radius, k), trig)
  {
    paths := [];
    for layer := 0 to layers
      invariant |paths| == layer
      invariant forall k :: 0 <= k < layer ==> paths[k] == Path(amp, points, k, frequency, LayerRadius(radius, k), trig)
    {
      var d := GeneratePath(amp, points, layer, frequency, radius + layer as real * 5.0, trig);
      paths := paths + [d];
    }
  }

  // ---------------------------------------------------------------------------
  // Colour and beat
  // ---------------------------------------------------------------------------

  const COLORS: seq<string> := ["limegreen", "cyan", "magenta", "yellow", "orange"]

  /** `Math.floor(r * colors.length)` for a random `r` in [0, 1). */
  function ColorIndex(r: real): (k: int)
    requires 0.0 <= r < 1.0
    ensures 0 <= k < |COLORS|
    ensures k as real <= r * |COLORS| as real < k as real + 1.0
  {
    (r * |COLORS| as real).Floor
  }

  /** `getRandomColor` with its random draw `r` as a parameter: always one of the five colours. */
  function GetRandomColor(r: real): (c: string)
    requires 0.0 <= r < 1.0
    ensures c in COLORS
    ensures c == COLORS[ColorIndex(r)]
  {
    COLORS[ColorIndex(r)]
  }

  /** Every colour of the list is picked by the draws in its fifth of [0, 1). */
  lemma EveryColorReachable(k: nat, r: real)
    requires k < |COLORS|
    requires k as real / 5.0 <= r < (k + 1) as real / 5.0
    ensures GetRandomColor(r) == COLORS[k]
  {
    assert k as real <= r * 5.0 < (k + 1) as real;
  }

  /** The held state of one waveform component: its props, its amplitude,
      its colour and its beat count. `history` records the raw readings fed
      to `UpdateWaveform` so far. */
  class Waveframe {
    const frequency: real
    const points: nat
    const layers: nat
    const radius: real
    var amplitude: Bands
    var currentColor: string
    var beat: int
    ghost var history: seq<Bands>

    ghost predicate Valid()
      reads this
    {
      (forall i :: 0 <= i < |history| ==> InRandomRange(history[i])) &&
      amplitude == Run(Bands(1.0, 1.0, 1.0), history)
    }

    /** The props and their defaults: 12, 30 points, 12 layers, radius 100
        and `limegreen`. */
    constructor (frequency: real := 12.0, points: nat := 30, layers: nat := 12, radius: real := 100.0,
                 color: string := "limegreen")
      ensures Valid()
      ensures this.frequency == frequency && this.points == points && this.layers == layers && this.radius == radius
      ensures amplitude == Bands(1.0, 1.0, 1.0) && currentColor == color && beat == 0 && history == []
    {
      this.frequency, this.points, this.layers, this.radius := frequency, points, layers, radius;
      amplitude := Bands(1.0, 1.0, 1.0);
      currentColor := color;
      beat := 0;
      history := [];
    }

    /** `updateWaveform` with its three random draws as parameters. */
    method UpdateWaveform(low: real, mid: real, high: real)
      requires Valid()
      requires 0.0 <= low < 1.0 && 0.0 <= mid < 1.0 && 0.0 <= high < 1.0
      modifies this
      ensures Valid()
      ensures amplitude == Smooth(old(amplitude), Bands(low, mid, high))
      ensures history == old(history) + [Bands(low, mid, high)]
      ensures InUnit(amplitude)
      ensures currentColor == old(currentColor) && beat == old(beat)
    {
      var raw := Bands(low, mid, high);
      assert InRandomRange(raw);
      amplitude := Smooth(amplitude, raw);
      history := history + [raw];
      assert history[..|history| - 1] == old(history);
      RunStaysInUnit(Bands(1.0, 1.0, 1.0), history);
    }

    /** The beat timer's callback: the beat count goes up by exactly one. */
    method Tick()
      modifies this`beat
      ensures beat == old(beat) + 1
    {
      beat := beat + 1;
    }

    /** The effect keyed on `beat`: a new colour drawn with `r`. React also
        runs it once on mount, so the `color` prop is replaced right after the
        first render. */
    method Recolor(r: real)
      requires 0.0 <= r < 1.0
      modifies this`currentColor
      ensures currentColor == GetRandomColor(r) && currentColor in COLORS
    {
      currentColor := GetRandomColor(r);
    }

    /** The rendered layers for the current amplitude. */
    method Render(trig: Trig) returns (paths: seq<seq<Command>>)
      ensures |paths| == layers
      ensures forall k :: 0 <= k < layers ==> paths[k] == Path(amplitude, points, k, frequency, LayerRadius(radius, k), trig)
    {
      paths := RenderLayers(amplitude, points, layers, frequency, radius, trig);
    }
  }

  /** Mounting the component as the application shell does, with only the
      colour given: the other props take their defaults, and the effect keyed
      on `beat`, run once on mount, replaces the colour with a random draw. */
  method MountInApp(r: real) returns (w: Waveframe)
    requires 0.0 <= r < 1.0
    ensures fresh(w) && w.Valid()
    ensures w.frequency == 12.0 && w.points == 30 && w.layers == 12 && w.radius == 100.0
    ensures w.amplitude == Bands(1.0, 1.0, 1.0) && w.beat == 0
    ensures w.currentColor == GetRandomColor(r)
  {
    w := new Waveframe(color := "limegreen");
    w.Recolor(r);
  }
}
