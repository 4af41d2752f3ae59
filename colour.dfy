/** Integer RGB colours: saturating addition, scaling by a float factor and the
    fixed palette of named colours (class Colour of Raytracer.cs). */
module Colours {

  /** An RGB triple. Channels are not constrained by the type: intermediate
      colours may leave [0, 255]; Clamp brings them back. */
  datatype Colour = Colour(red: int, green: int, blue: int)

  const BLACK := Colour(0, 0, 0)

  /** The error colour that SetColour gives for codes outside the palette. */
  const ERROR_PINK := Colour(255, 0, 127)

  predicate InRange(c: Colour) {
    0 <= c.red <= 255 && 0 <= c.green <= 255 && 0 <= c.blue <= 255
  }

  /** Channel-wise order: every channel of a is at most that of b. */
  predicate Below(a: Colour, b: Colour) {
    a.red <= b.red && a.green <= b.green && a.blue <= b.blue
  }

  predicate NonNegative(c: Colour) {
    0 <= c.red && 0 <= c.green && 0 <= c.blue
  }

  /** One channel of Clamp: saturate at 255 first, then at 0. */
  function ClampChannel(v: int): (r: int)
    ensures 0 <= r <= 255
  {
    var upper := if v > 255 then 255 else v;
    if upper < 0 then 0 else upper
  }

  function Clamp(c: Colour): (r: Colour)
    ensures InRange(r)
    ensures InRange(c) ==> r == c
  {
    Colour(ClampChannel(c.red), ClampChannel(c.green), ClampChannel(c.blue))
  }

  /** The two-argument Add: channel-wise sum, clamped. */
  function Add(a: Colour, b: Colour): (r: Colour)
    ensures InRange(r)
  {
    Clamp(Colour(a.red + b.red, a.green + b.green, a.blue + b.blue))
  }

  /** The three-argument Add. */
  function Add3(a: Colour, b: Colour, c: Colour): (r: Colour)
    ensures InRange(r)
  {
    Clamp(Colour(a.red + b.red + c.red, a.green + b.green + c.green, a.blue + b.blue + c.blue))
  }

  /** The four-argument Add. */
  function Add4(a: Colour, b: Colour, c: Colour, d: Colour): (r: Colour)
    ensures InRange(r)
  {
    Clamp(Colour(a.red + b.red + c.red + d.red,
                 a.green + b.green + c.green + d.green,
                 a.blue + b.blue + c.blue + d.blue))
  }

  /** C#'s (int) conversion of a floating-point value: truncation toward zero. */
  function Truncate(x: real): (n: int)
    ensures 0.0 <= x ==> 0 <= n && n as real <= x < n as real + 1.0
    ensures x < 0.0 ==> n <= 0 && x <= n as real && n as real < x + 1.0
  {
    if x >= 0.0 then x.Floor else -((-x).Floor)
  }

  /** Colour.Multiply: every channel scaled by a float and truncated. */
  function Multiply(c: Colour, value: real): (r: Colour)
    ensures value == 0.0 ==> r == BLACK
    ensures NonNegative(c) && 0.0 <= value ==> NonNegative(r)
  {
    Colour(ScaleChannel(c.red, value), ScaleChannel(c.green, value), ScaleChannel(c.blue, value))
  }

  /** One channel of Colour.Multiply. */
  function ScaleChannel(p: int, value: real): int {
    Truncate(p as real * value)
  }

  /** One channel of Colour.Combine: p * q * val / 255, truncated. */
  function CombineChannel(p: int, q: int, val: real): int {
    Truncate((p * q) as real * val / 255.0)
  }

  /** Colour.Combine: the channel-wise product of two colours, scaled by val / 255. */
  function Combine(a: Colour, b: Colour, val: real): (r: Colour)
    ensures val == 0.0 ==> r == BLACK
    ensures b == Colour(255, 255, 255) && val == 1.0 ==> r == a
  {
    Colour(CombineChannel(a.red, b.red, val),
           CombineChannel(a.green, b.green, val),
           CombineChannel(a.blue, b.blue, val))
  }

  /** The named colours, in the order of the ColourList enumeration. */
  datatype ColourName =
    | Red | Orange | Yellow | Lime | Green | OceanGreen | Cyan | SkyBlue
    | Blue | Purple | Pink | HotPink | White | Grey | Black

  /** The enumeration's integer value. */
  function Code(n: ColourName): (code: int)
    ensures 0 <= code <= 14
  {
    match n
    case Red => 0
    case Orange => 1
    case Yellow => 2
    case Lime => 3
    case Green => 4
    case OceanGreen => 5
    case Cyan => 6
    case SkyBlue => 7
    case Blue => 8
    case Purple => 9
    case Pink => 10
    case HotPink => 11
    case White => 12
    case Grey => 13
    case Black => 14
  }

  /** SetColour(int): the palette lookup; any other code gives the error colour. */
  function SetColour(code: int): (c: Colour)
    ensures InRange(c)
    ensures c.red in {0, 127, 255} && c.green in {0, 127, 255} && c.blue in {0, 127, 255}
    ensures !(0 <= code <= 14) ==> c == ERROR_PINK
  {
    match code
    case 0 => Colour(255, 0, 0)
    case 1 => Colour(255, 127, 0)
    case 2 => Colour(255, 255, 0)
    case 3 => Colour(127, 255, 0)
    case 4 => Colour(0, 255, 0)
    case 5 => Colour(0, 255, 127)
    case 6 => Colour(0, 255, 255)
    case 7 => Colour(0, 127, 255)
    case 8 => Colour(0, 0, 255)
    case 9 => Colour(127, 0, 255)
    case 10 => Colour(255, 0, 255)
    case 11 => Colour(255, 0, 127)
    case 12 => Colour(255, 255, 255)
    case 13 => Colour(127, 127, 127)
    case 14 => Colour(0, 0, 0)
    case _ => ERROR_PINK
  }

  /** The Colour(ColourList) constructor. */
  function Named(n: ColourName): (c: Colour)
    ensures InRange(c)
    ensures c == ERROR_PINK <==> n == HotPink
  {
    SetColour(Code(n))
  }

  // ---------------------------------------------------------------------------
  // Properties of the clamping arithmetic

  /** Clamp picks the in-range value nearest to its input, channel by channel. */
  lemma ClampChannelNearest(v: int, w: int)
    requires 0 <= w <= 255
    ensures var r := ClampChannel(v);
      (if r <= v then v - r else r - v) <= (if w <= v then v - w else w - v)
  {
  }

  lemma ClampIdempotent(c: Colour)
    ensures Clamp(Clamp(c)) == Clamp(c)
  {
  }

  /** Clamp is monotone: a channel-wise brighter input never gives a darker output. */
  lemma ClampMonotone(a: Colour, b: Colour)
    requires Below(a, b)
    ensures Below(Clamp(a), Clamp(b))
  {
  }

  /** The order of the terms does not matter: every Add overload is
      unchanged when two adjacent terms are swapped, and adjacent swaps
      reach every order. */
  lemma AddCommutes(a: Colour, b: Colour, c: Colour, d: Colour)
    ensures Add(a, b) == Add(b, a)
    ensures Add3(a, b, c) == Add3(b, a, c) && Add3(a, b, c) == Add3(a, c, b)
    ensures Add4(a, b, c, d) == Add4(b, a, c, d) && Add4(a, b, c, d) == Add4(a, c, b, d)
    ensures Add4(a, b, c, d) == Add4(a, b, d, c)
  {
  }

  lemma AddBlackIsIdentity(c: Colour)
    requires InRange(c)
    ensures Add(c, BLACK) == c && Add(BLACK, c) == c
  {
  }

  /** For non-negative contributions, saturating at each step gives the same
      result as saturating once: the four-term Add equals nested two-term Adds. */
  lemma {:induction false} Add4IsNestedAdd(a: Colour, b: Colour, c: Colour, d: Colour)
    requires NonNegative(a) && NonNegative(b) && NonNegative(c) && NonNegative(d)
    ensures Add4(a, b, c, d) == Add(Add(Add(a, b), c), d)
    ensures Add3(a, b, c) == Add(Add(a, b), c)
  {
    NestedChannel(a.red, b.red, c.red, d.red);
    NestedChannel(a.green, b.green, c.green, d.green);
    NestedChannel(a.blue, b.blue, c.blue, d.blue);
  }

  lemma NestedChannel(p: int, q: int, r: int, s: int)
    requires 0 <= p && 0 <= q && 0 <= r && 0 <= s
    ensures ClampChannel(p + q + r + s) == ClampChannel(ClampChannel(ClampChannel(p + q) + r) + s)
    ensures ClampChannel(p + q + r) == ClampChannel(ClampChannel(p + q) + r)
  {
  }

  /** With a negative contribution the nested form differs: the sum saturates
      at 255 before the negative term is subtracted. */
  lemma NestedAddDiffersWithNegative()
    ensures Add3(Colour(200, 0, 0), Colour(200, 0, 0), Colour(-100, 0, 0)) == Colour(255, 0, 0)
    ensures Add(Add(Colour(200, 0, 0), Colour(200, 0, 0)), Colour(-100, 0, 0)) == Colour(155, 0, 0)
  {
  }

  /** Adding a channel-wise larger colour never darkens the result. */
  lemma AddMonotone(a: Colour, b: Colour, b': Colour)
    requires Below(b, b')
    ensures Below(Add(a, b), Add(a, b'))
  {
    ClampMonotone(Colour(a.red + b.red, a.green + b.green, a.blue + b.blue),
                  Colour(a.red + b'.red, a.green + b'.green, a.blue + b'.blue));
  }

  // ---------------------------------------------------------------------------
  // Properties of the float scalings

  lemma {:induction false} CombineChannelInRange(p: int, q: int, val: real)
    requires 0 <= p <= 255 && 0 <= q <= 255 && 0.0 <= val <= 1.0
    ensures 0 <= CombineChannel(p, q, val) <= 255
  {
    var pq := p * q;
    assert 0 <= pq <= 255 * 255 by {
      assert p * q <= 255 * q;
      assert 255 * q <= 255 * 255;
    }
    var x := pq as real * val;
    ScaleDown(pq as real, val);
    assert x / 255.0 <= 255.0;
  }

  /** Combining two in-range colours with a factor in [0, 1] stays in range
      (this is how ambient, diffuse and specular terms are formed). */
  lemma CombineInRange(a: Colour, b: Colour, val: real)
    requires InRange(a) && InRange(b) && 0.0 <= val <= 1.0
    ensures InRange(Combine(a, b, val))
  {
    CombineChannelInRange(a.red, b.red, val);
    CombineChannelInRange(a.green, b.green, val);
    CombineChannelInRange(a.blue, b.blue, val);
  }

  lemma {:induction false} CombineNonNegative(a: Colour, b: Colour, val: real)
    requires NonNegative(a) && NonNegative(b) && 0.0 <= val
    ensures NonNegative(Combine(a, b, val))
  {
    assert 0 <= a.red * b.red && 0 <= a.green * b.green && 0 <= a.blue * b.blue;
  }

  lemma {:induction false} MultiplyChannel(p: int, value: real)
    requires 0 <= p <= 255 && 0.0 <= value <= 1.0
    ensures 0 <= ScaleChannel(p, value) <= p
  {
    var x := p as real * value;
    assert 0.0 <= x <= p as real by {
      ScaleDown(p as real, value);
    }
    TruncateWithin(x, p);
  }

  lemma TruncateWithin(x: real, p: int)
    requires 0.0 <= x <= p as real
    ensures 0 <= Truncate(x) <= p
  {
    assert Truncate(x) as real <= p as real;
  }

  /** A non-negative quantity scaled by a factor in [0, 1] stays within [0, itself]. */
  lemma ScaleDown(a: real, v: real)
    requires 0.0 <= a && 0.0 <= v <= 1.0
    ensures 0.0 <= a * v <= a
  {
    assert a * (1.0 - v) >= 0.0;
  }

  /** Scaling an in-range colour by a factor in [0, 1] darkens it and stays in range. */
  lemma MultiplyDarkens(c: Colour, value: real)
    requires InRange(c) && 0.0 <= value <= 1.0
    ensures InRange(Multiply(c, value)) && Below(Multiply(c, value), c)
  {
    MultiplyChannel(c.red, value);
    MultiplyChannel(c.green, value);
    MultiplyChannel(c.blue, value);
  }

  lemma MultiplyByOne(c: Colour)
    ensures Multiply(c, 1.0) == c
  {
  }

  // ---------------------------------------------------------------------------
  // Properties of the palette

  /** The fifteen named colours are pairwise distinct. */
  lemma NamedDistinct(m: ColourName, n: ColourName)
    requires m != n
    ensures Named(m) != Named(n)
  {
    NamedRoundTrip(m);
    NamedRoundTrip(n);
  }

  /** The name of a palette colour, read back from its channels. */
  function NameOf(c: Colour): ColourName {
    if c == Colour(255, 0, 0) then Red
    else if c == Colour(255, 127, 0) then Orange
    else if c == Colour(255, 255, 0) then Yellow
    else if c == Colour(127, 255, 0) then Lime
    else if c == Colour(0, 255, 0) then Green
    else if c == Colour(0, 255, 127) then OceanGreen
    else if c == Colour(0, 255, 255) then Cyan
    else if c == Colour(0, 127, 255) then SkyBlue
    else if c == Colour(0, 0, 255) then Blue
    else if c == Colour(127, 0, 255) then Purple
    else if c == Colour(255, 0, 255) then Pink
    else if c == Colour(255, 0, 127) then HotPink
    else if c == Colour(255, 255, 255) then White
    else if c == Colour(127, 127, 127) then Grey
    else Black
  }

  /** Every name's colour reads back as that name. */
  lemma NamedRoundTrip(n: ColourName)
    ensures NameOf(Named(n)) == n
  {
    match n
    case Red =>
    case Orange =>
    case Yellow =>
    case Lime =>
    case Green =>
    case OceanGreen =>
    case Cyan =>
    case SkyBlue =>
    case Blue =>
    case Purple =>
    case Pink =>
    case HotPink =>
    case White =>
    case Grey =>
    case Black =>
  }

  /** The enumeration covers exactly the codes 0..14. */
  lemma CodeOnto(code: int)
    requires 0 <= code <= 14
    ensures exists n :: Code(n) == code
  {
    var names := [Red, Orange, Yellow, Lime, Green, OceanGreen, Cyan, SkyBlue,
                  Blue, Purple, Pink, HotPink, White, Grey, Black];
    assert Code(names[code]) == code;
  }

  /** An unknown code cannot be told apart from HOT PINK. */
  lemma ErrorColourIsHotPink(code: int)
    requires !(0 <= code <= 14)
    ensures SetColour(code) == Named(HotPink)
  {
  }
}
