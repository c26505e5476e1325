/** The harmonic coefficient tables of a PeriodicWave and the basic
    waveforms it can generate (src/impl/PeriodicWave.js). Coefficients are
    real numbers: the float64 evaluation and the rounding into Float32Array
    entries are not modelled, and neither changes a sign or an exact zero here. */
module Waves {

  /** Math.PI; only its positivity is used by the proofs. */
  const Pi: real := 3.141592653589793

  /** Length of the sawtooth, triangle and square tables. */
  const TableLength: nat := 2048

  /** The kinds generateBasicWaveform knows (PeriodicWave.BasicWaveForms). */
  const BasicWaveForms: set<string> := {"sine", "sawtooth", "triangle", "square"}

  /** Math.pow(-1, k) for a whole exponent k: +1 for even k, -1 for odd k. */
  function NegOnePow(k: nat): (r: real)
    ensures r == if k % 2 == 0 then 1.0 else -1.0
  {
    if k == 0 then 1.0 else -NegOnePow(k - 1)
  }

  /** imag[n] of the sawtooth table: harmonics of magnitude 2 / (n pi),
      positive at odd n and negative at even n. */
  function SawtoothCoefficient(n: nat): (c: real)
    ensures n == 0 ==> c == 0.0
    ensures n > 0 && n % 2 == 1 ==> c == 2.0 / (n as real * Pi) && c > 0.0
    ensures n > 0 && n % 2 == 0 ==> c == -(2.0 / (n as real * Pi)) && c < 0.0
  {
    if n == 0 then 0.0 else NegOnePow(n + 1) * (2.0 / (n as real * Pi))
  }

  /** imag[n] of the triangle table; `sin` stands for Math.sin. The
      denominator is positive, so each harmonic has the sign of sin(n pi / 2). */
  function TriangleCoefficient(n: nat, sin: real -> real): (c: real)
    ensures n == 0 ==> c == 0.0
    ensures n > 0 ==> (c > 0.0 <==> sin(n as real * Pi / 2.0) > 0.0)
    ensures n > 0 ==> (c == 0.0 <==> sin(n as real * Pi / 2.0) == 0.0)
  {
    if n == 0 then 0.0
    else (8.0 * sin(n as real * Pi / 2.0)) / ((n as real * Pi) * (n as real * Pi))
  }

  /** imag[n] of the square table: zero at even n, 4 / (n pi) at odd n. */
  function SquareCoefficient(n: nat): (c: real)
    ensures n % 2 == 0 ==> c == 0.0
    ensures n % 2 == 1 ==> c == 4.0 / (n as real * Pi)
  {
    if n == 0 then 0.0 else (2.0 / (n as real * Pi)) * (1.0 - NegOnePow(n))
  }

  /** A table of `length` zeros (a fresh Float32Array). */
  function Zeros(length: nat): seq<real> {
    seq(length, _ => 0.0)
  }

  /** The sawtooth imaginary table: imag[n] for n in [0, 2048). */
  function SawtoothTable(): seq<real> {
    seq(TableLength, n requires 0 <= n => SawtoothCoefficient(n))
  }

  function TriangleTable(sin: real -> real): seq<real> {
    seq(TableLength, n requires 0 <= n => TriangleCoefficient(n, sin))
  }

  function SquareTable(): seq<real> {
    seq(TableLength, n requires 0 <= n => SquareCoefficient(n))
  }

  /** The three fields generateBasicWaveform replaces. */
  datatype Tables = Tables(realPart: seq<real>, imagPart: seq<real>, name: string)

  /** The tables generateBasicWaveform installs for a waveform kind. */
  function BasicWaveform(kind: string, sin: real -> real): (w: Tables)
    // every kind yields equal-length tables with no DC term and a zero real part
    ensures |w.realPart| == |w.imagPart| > 0 && w.imagPart[0] == 0.0
    ensures forall n :: 0 <= n < |w.realPart| ==> w.realPart[n] == 0.0
    ensures kind == "sine" ==> w.imagPart == [0.0, 1.0] && w.name == "sine"
    ensures kind in BasicWaveForms - {"sine"} ==> |w.imagPart| == TableLength && w.name == kind
    // square: exactly the odd harmonics, each 4 / (n pi)
    ensures kind == "square" ==> forall n :: 0 < n < |w.imagPart| ==>
      (n % 2 == 0 ==> w.imagPart[n] == 0.0) && (n % 2 == 1 ==> w.imagPart[n] == 4.0 / (n as real * Pi))
    // sawtooth: positive odd harmonics, negative even harmonics
    ensures kind == "sawtooth" ==> forall n :: 0 < n < |w.imagPart| ==>
      (n % 2 == 1 ==> w.imagPart[n] > 0.0) && (n % 2 == 0 ==> w.imagPart[n] < 0.0)
    ensures kind !in BasicWaveForms ==> w == Tables([0.0], [0.0], "custom")
  {
    if kind == "sine" then Tables([0.0, 0.0], [0.0, 1.0], "sine")
    else if kind == "sawtooth" then
      Tables(Zeros(TableLength), SawtoothTable(), "sawtooth")
    else if kind == "triangle" then
      Tables(Zeros(TableLength), TriangleTable(sin), "triangle")
    else if kind == "square" then
      Tables(Zeros(TableLength), SquareTable(), "square")
    else Tables([0.0], [0.0], "custom")
  }

  class PeriodicWave {
    /** The fields `_real` and `_imag`. */
    var realPart: seq<real>
    var imagPart: seq<real>
    /** The field `_constants`, returned by getConstraints. */
    var constants: bool
    var name: string

    /** The tables are stored as given; `constraints` is the truthiness of the
        option (absent reads as false), and the stored flag is its negation. */
    constructor (realPart: seq<real>, imagPart: seq<real>, constraints: bool)
      ensures this.realPart == realPart && this.imagPart == imagPart
      ensures constants == !constraints && this.name == "custom"
    {
      this.realPart := realPart;
      this.imagPart := imagPart;
      this.constants := !constraints;
      this.name := "custom";
    }

    function GetReal(): seq<real> reads this { realPart }

    function GetImag(): seq<real> reads this { imagPart }

    function GetConstraints(): bool reads this { constants }

    function GetName(): string reads this { name }

    /** generateBasicWaveform: replace both tables and the name wholesale. */
    method GenerateBasicWaveform(kind: string, sin: real -> real)
      modifies this
      ensures Tables(realPart, imagPart, name) == BasicWaveform(kind, sin)
      ensures |realPart| == |imagPart|
      ensures constants == old(constants)
    {
      if kind == "sine" {
        realPart, imagPart, name := [0.0, 0.0], [0.0, 1.0], "sine";
      } else if kind == "sawtooth" {
        realPart := Zeros(TableLength);
        imagPart := SawtoothTable();
        name := "sawtooth";
      } else if kind == "triangle" {
        realPart := Zeros(TableLength);
        imagPart := TriangleTable(sin);
        name := "triangle";
      } else if kind == "square" {
        realPart := Zeros(TableLength);
        imagPart := SquareTable();
        name := "square";
      } else {
        realPart, imagPart, name := [0.0], [0.0], "custom";
      }
    }
  }
}
