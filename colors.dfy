/**
 * Integer RGB and RGBA colours with 8-bit channels. The int constructors and
 * `Set` clamp every channel into [0, 255]; the 8-bit constructors store their
 * arguments as given. Converting RGBA to RGB drops alpha; converting RGB to
 * RGBA takes the given alpha, and assigning an RGB to an RGBA makes it opaque.
 */
module Colors {

  /** An 8-bit unsigned channel (`uint8_t`). */
  newtype uint8 = x: int | 0 <= x < 256

  /** The alpha of an opaque colour, the default alpha. */
  const Opaque: uint8 := 255

  /** `max(min(255, v), 0)`: the channel value nearest to `v`. */
  function Clamp(v: int): (c: uint8)
    ensures 0 <= v <= 255 ==> c as int == v
    ensures v < 0 ==> c == 0
    ensures v > 255 ==> c == 255
  {
    var upper := if v < 255 then v else 255;
    (if upper > 0 then upper else 0) as uint8
  }

  /** Clamping never moves a value further away than needed, and a clamped value stays put. */
  lemma ClampNearestAndIdempotent(v: int, w: uint8)
    ensures Clamp(Clamp(v) as int) == Clamp(v)
    ensures Clamp(w as int) == w
    ensures (Clamp(v) as int - v) * (Clamp(v) as int - v) <= (w as int - v) * (w as int - v)
  {
  }

  /** RGBA colour (`SRgba`). */
  class Rgba {
    var r: uint8
    var g: uint8
    var b: uint8
    var a: uint8

    /** From ints: each channel clamped into [0, 255]; alpha defaults to opaque. */
    constructor FromInts(r: int, g: int, b: int, a: int := 255)
      ensures this.r == Clamp(r) && this.g == Clamp(g) && this.b == Clamp(b) && this.a == Clamp(a)
    {
      this.r := Clamp(r);
      this.g := Clamp(g);
      this.b := Clamp(b);
      this.a := Clamp(a);
    }

    /** From 8-bit values: stored as given; alpha defaults to opaque. */
    constructor FromBytes(r: uint8, g: uint8, b: uint8, a: uint8 := Opaque)
      ensures this.r == r && this.g == g && this.b == b && this.a == a
    {
      this.r := r;
      this.g := g;
      this.b := b;
      this.a := a;
    }

    /** From an RGB colour: its channels, with the given alpha (opaque by default). */
    constructor FromRgb(other: Rgb, a: uint8 := Opaque)
      ensures r == other.r && g == other.g && b == other.b && this.a == a
    {
      r := other.r;
      g := other.g;
      b := other.b;
      this.a := a;
    }

    /** Overwrites every channel, clamped into [0, 255]; alpha defaults to opaque. */
    method Set(r: int, g: int, b: int, a: int := 255)
      modifies this
      ensures this.r == Clamp(r) && this.g == Clamp(g) && this.b == Clamp(b) && this.a == Clamp(a)
    {
      this.r := Clamp(r);
      this.g := Clamp(g);
      this.b := Clamp(b);
      this.a := Clamp(a);
    }

    /** Assigning an RGB colour copies its channels and makes this colour opaque. */
    method AssignRgb(other: Rgb)
      modifies this
      ensures r == other.r && g == other.g && b == other.b && a == Opaque
    {
      r := other.r;
      g := other.g;
      b := other.b;
      a := Opaque;
    }

    /** Channel-wise equality, alpha included. */
    predicate Equals(other: Rgba)
      reads this, other
      ensures Equals(other) <==> (r, g, b, a) == (other.r, other.g, other.b, other.a)
    {
      r == other.r && g == other.g && b == other.b && a == other.a
    }

    /** The negation of `Equals`: some channel, alpha included, differs. */
    predicate NotEquals(other: Rgba)
      reads this, other
      ensures NotEquals(other) <==> (r, g, b, a) != (other.r, other.g, other.b, other.a)
    {
      !Equals(other)
    }

    /** True exactly when some channel, alpha included, is nonzero. */
    predicate AsBool()
      reads this
      ensures AsBool() <==> (r, g, b, a) != (0, 0, 0, 0)
    {
      r != 0 || g != 0 || b != 0 || a != 0
    }
  }

  /** RGB colour (`SRgb`). */
  class Rgb {
    var r: uint8
    var g: uint8
    var b: uint8

    /** From ints: each channel clamped into [0, 255]. */
    constructor FromInts(r: int, g: int, b: int)
      ensures this.r == Clamp(r) && this.g == Clamp(g) && this.b == Clamp(b)
    {
      this.r := Clamp(r);
      this.g := Clamp(g);
      this.b := Clamp(b);
    }

    /** From 8-bit values: stored as given. */
    constructor FromBytes(r: uint8, g: uint8, b: uint8)
      ensures this.r == r && this.g == g && this.b == b
    {
      this.r := r;
      this.g := g;
      this.b := b;
    }

    /** From an RGBA colour: its colour channels; alpha is dropped. */
    constructor FromRgba(other: Rgba)
      ensures r == other.r && g == other.g && b == other.b
    {
      r := other.r;
      g := other.g;
      b := other.b;
    }

    /** Overwrites every channel, clamped into [0, 255]. */
    method Set(r: int, g: int, b: int)
      modifies this
      ensures this.r == Clamp(r) && this.g == Clamp(g) && this.b == Clamp(b)
    {
      this.r := Clamp(r);
      this.g := Clamp(g);
      this.b := Clamp(b);
    }

    /** Assigning an RGBA colour copies its colour channels and drops alpha. */
    method AssignRgba(other: Rgba)
      modifies this
      ensures r == other.r && g == other.g && b == other.b
    {
      r := other.r;
      g := other.g;
      b := other.b;
    }

    /** Channel-wise equality. */
    predicate Equals(other: Rgb)
      reads this, other
      ensures Equals(other) <==> (r, g, b) == (other.r, other.g, other.b)
    {
      r == other.r && g == other.g && b == other.b
    }

    /**
     * Inequality with an RGBA colour: the RGBA colour is first converted to RGB,
     * so alpha plays no part.
     */
    predicate NotEqualsRgba(other: Rgba)
      reads this, other
      ensures NotEqualsRgba(other) <==> (r, g, b) != (other.r, other.g, other.b)
    {
      !(r == other.r && g == other.g && b == other.b)
    }

    /** True exactly when some channel is nonzero. */
    predicate AsBool()
      reads this
      ensures AsBool() <==> (r, g, b) != (0, 0, 0)
    {
      r != 0 || g != 0 || b != 0
    }
  }

  /** RGB to RGBA and back gives the colour it started from, whatever the alpha. */
  method RgbRoundTrip(c: Rgb, alpha: uint8) returns (back: Rgb)
    ensures back.Equals(c)
  {
    var wide := new Rgba.FromRgb(c, alpha);
    back := new Rgb.FromRgba(wide);
  }

  /** Two RGBA colours that differ only in alpha are unequal, yet an RGB colour made from one equals the other's colour part. */
  method AlphaOnlyDifference(c: Rgb) returns (x: Rgba, y: Rgba)
    ensures x.NotEquals(y)
    ensures !c.NotEqualsRgba(x) && !c.NotEqualsRgba(y)
  {
    x := new Rgba.FromRgb(c, 0);
    y := new Rgba.FromRgb(c);
  }

  /** An RGBA colour built from ints with the default alpha is always true, even black. */
  method OpaqueIsTrue(r: int, g: int, b: int) returns (c: Rgba)
    ensures c.AsBool()
    ensures c.a == Opaque
  {
    c := new Rgba.FromInts(r, g, b);
  }
}
