/** The plain-text PPM ("P3") export of a rendered image (class Exporter of
    Raytracer.cs): the header, then one line per image row holding the
    red, green and blue values of its pixels in decimal. Decode reads such a
    text back; the round trip shows that the export loses nothing. Writing
    the file itself is not modelled: CreateFile returns the path and the
    text it would write. */
module Ppm {
  import opened Colours
  import opened Sequences

  datatype Option<T> = None | Some(value: T)

  // ---------------------------------------------------------------------------
  // Decimal numerals (int.ToString and its inverse)

  predicate IsDigit(ch: char) {
    '0' <= ch <= '9'
  }

  predicate AllDigits(s: string) {
    forall k :: 0 <= k < |s| ==> IsDigit(s[k])
  }

  function DigitChar(d: nat): (ch: char)
    requires d < 10
    ensures IsDigit(ch) && ch as int - '0' as int == d
  {
    "0123456789"[d]
  }

  function DigitValue(ch: char): (d: nat)
    requires IsDigit(ch)
    ensures d < 10
  {
    ch as int - '0' as int
  }

  /** The decimal numeral of n, without leading zeros. */
  function NatToString(n: nat): (s: string)
    ensures |s| >= 1 && AllDigits(s)
    ensures |s| > 1 ==> s[0] != '0'
  {
    if n < 10 then [DigitChar(n)] else NatToString(n / 10) + [DigitChar(n % 10)]
  }

  /** int.ToString: a minus sign before the numeral of a negative number. */
  function IntToString(i: int): (s: string)
    ensures |s| >= 1 && ' ' !in s && '\n' !in s
    ensures i >= 0 ==> s == NatToString(i)
  {
    if i < 0 then "-" + NatToString(-i) else NatToString(i)
  }

  /** The value of a non-empty string of digits. */
  function DigitsValue(s: string): nat
    requires |s| >= 1 && AllDigits(s)
  {
    if |s| == 1 then DigitValue(s[0]) else 10 * DigitsValue(s[..|s| - 1]) + DigitValue(s[|s| - 1])
  }

  function ParseNat(s: string): Option<nat> {
    if |s| >= 1 && AllDigits(s) then Some(DigitsValue(s)) else None
  }

  function ParseInt(s: string): Option<int> {
    if |s| >= 2 && s[0] == '-' then
      match ParseNat(s[1..])
      case Some(n) => Some(0 - n)
      case None => None
    else
      match ParseNat(s)
      case Some(n) => Some(n)
      case None => None
  }

  lemma {:induction false} NatRoundTrip(n: nat)
    ensures ParseNat(NatToString(n)) == Some(n)
  {
    if n >= 10 {
      var s := NatToString(n);
      assert s[..|s| - 1] == NatToString(n / 10);
      NatRoundTrip(n / 10);
    }
  }

  lemma {:induction false} ParseNegative(t: string, n: nat)
    requires ParseNat(t) == Some(n)
    ensures ParseInt("-" + t) == Some(-(n as int))
  {
    var s := "-" + t;
    assert s[0] == '-' && s[1..] == t;
  }

  lemma {:induction false} ParseNonNegative(t: string, n: nat)
    requires ParseNat(t) == Some(n)
    ensures ParseInt(t) == Some(n)
  {
    assert IsDigit(t[0]);
  }

  /** Reading back the decimal text of any integer gives the integer. */
  lemma {:induction false} IntRoundTrip(i: int)
    ensures ParseInt(IntToString(i)) == Some(i)
  {
    if i < 0 {
      NatRoundTrip(-i);
      ParseNegative(NatToString(-i), -i);
    } else {
      NatRoundTrip(i);
      ParseNonNegative(NatToString(i), i);
    }
  }

  // ---------------------------------------------------------------------------
  // Joining with a separator and splitting at it

  /** The parts with sep between consecutive ones and none after the last. */
  function Join(parts: seq<string>, sep: char): string {
    if |parts| == 0 then ""
    else if |parts| == 1 then parts[0]
    else parts[0] + [sep] + Join(parts[1..], sep)
  }

  /** The pieces of s between occurrences of sep; there is always one more
      piece than there are separators. */
  function Split(s: string, sep: char): (parts: seq<string>)
    ensures |parts| >= 1
  {
    if |s| == 0 then [""] else Prepend(s[0], Split(s[1..], sep), sep)
  }

  /** The pieces of [ch] + s from the pieces of s: a separator starts a new
      empty piece, any other character joins the first piece. */
  function Prepend(ch: char, parts: seq<string>, sep: char): (r: seq<string>)
    requires |parts| >= 1
    ensures |r| >= 1
  {
    if ch == sep then [""] + parts else [[ch] + parts[0]] + parts[1..]
  }

  lemma PrependAppend(ch: char, ra: seq<string>, rb: seq<string>, sep: char)
    requires |ra| >= 1
    ensures Prepend(ch, ra + rb, sep) == Prepend(ch, ra, sep) + rb
  {
    if ch == sep {
      AppendAssociative([""], ra, rb);
    } else {
      assert (ra + rb)[1..] == ra[1..] + rb;
      AppendAssociative([[ch] + ra[0]], ra[1..], rb);
    }
  }

  lemma {:induction false} SplitWithoutSeparator(s: string, sep: char)
    requires sep !in s
    ensures Split(s, sep) == [s]
  {
    if |s| > 0 {
      assert s[0] != sep && sep !in s[1..];
      SplitWithoutSeparator(s[1..], sep);
      assert [s[0]] + s[1..] == s;
    }
  }

  /** Splitting at one separator splits the text into the pieces of either side. */
  lemma {:induction false} SplitAppend(a: string, b: string, sep: char)
    ensures Split(a + [sep] + b, sep) == Split(a, sep) + Split(b, sep)
  {
    var s := a + [sep] + b;
    if |a| > 0 {
      assert s[0] == a[0] && s[1..] == a[1..] + [sep] + b;
      SplitAppend(a[1..], b, sep);
      PrependAppend(a[0], Split(a[1..], sep), Split(b, sep), sep);
    } else {
      assert s[0] == sep && s[1..] == b;
    }
  }

  lemma {:induction false} JoinSnoc(parts: seq<string>, p: string, sep: char)
    requires |parts| >= 1
    ensures Join(parts + [p], sep) == Join(parts, sep) + [sep] + p
  {
    if |parts| > 1 {
      assert (parts + [p])[1..] == parts[1..] + [p];
      JoinSnoc(parts[1..], p, sep);
    }
  }

  lemma {:induction false} JoinAvoids(parts: seq<string>, sep: char, ch: char)
    requires ch != sep && forall k :: 0 <= k < |parts| ==> ch !in parts[k]
    ensures ch !in Join(parts, sep)
  {
    if |parts| > 1 {
      JoinAvoids(parts[1..], sep, ch);
    }
  }

  /** Split undoes Join when no part holds the separator. */
  lemma {:induction false} SplitJoinInverse(parts: seq<string>, sep: char)
    requires |parts| >= 1 && forall k :: 0 <= k < |parts| ==> sep !in parts[k]
    ensures Split(Join(parts, sep), sep) == parts
  {
    SplitWithoutSeparator(parts[0], sep);
    if |parts| > 1 {
      SplitAppend(parts[0], Join(parts[1..], sep), sep);
      SplitJoinInverse(parts[1..], sep);
    }
  }

  /** The separator written after the n-th of total parts: none after the last. */
  function Gap(n: nat, total: nat, sep: char): string {
    if 0 < n < total then [sep] else []
  }

  lemma {:induction false} JoinStep(parts: seq<string>, j: nat, sep: char)
    requires j < |parts|
    ensures Join(parts[..j], sep) + Gap(j, |parts|, sep) + parts[j] == Join(parts[..j + 1], sep)
  {
    if j > 0 {
      assert parts[..j + 1] == parts[..j] + [parts[j]];
      JoinSnoc(parts[..j], parts[j], sep);
    } else {
      assert parts[..1] == [parts[0]];
    }
  }

  /** Text written part by part, each part followed by the separator unless
      it is the last: after j parts, the prefix, the first j parts joined, and
      a separator when more parts follow. */
  predicate Written(text: string, prefix: string, parts: seq<string>, j: nat, sep: char)
    requires j <= |parts|
  {
    text == prefix + (Join(parts[..j], sep) + Gap(j, |parts|, sep))
  }

  lemma {:induction false} WrittenStep(text: string, prefix: string, parts: seq<string>, j: nat, sep: char)
    requires j < |parts| && Written(text, prefix, parts, j, sep)
    ensures Written(text + parts[j] + Gap(j + 1, |parts|, sep), prefix, parts, j + 1, sep)
  {
    JoinStep(parts, j, sep);
    var done := Join(parts[..j], sep) + Gap(j, |parts|, sep);
    AppendAssociative(prefix, done, parts[j]);
    AppendAssociative(prefix, done + parts[j], Gap(j + 1, |parts|, sep));
  }

  lemma {:induction false} WrittenAll(text: string, prefix: string, parts: seq<string>, sep: char)
    requires Written(text, prefix, parts, |parts|, sep)
    ensures text == prefix + Join(parts, sep)
  {
    assert parts[..|parts|] == parts;
    assert Gap(|parts|, |parts|, sep) == [];
    assert Join(parts, sep) + [] == Join(parts, sep);
  }

  // ---------------------------------------------------------------------------
  // The export format

  /** "P3", the width and height, and the maximum channel value 255, each
      followed by a line break. */
  function Header(width: nat, height: nat): (text: string)
    ensures Split(text, '\n') == ["P3", IntToString(width) + " " + IntToString(height), "255", ""]
  {
    var dims := IntToString(width) + " " + IntToString(height);
    var text := "P3\n" + IntToString(width) + " " + IntToString(height) + "\n255\n";
    HeaderShape(IntToString(width), IntToString(height), "");
    AppendEmpty(text);
    SplitLeadingLines("P3", dims, "255", "", '\n');
    SplitWithoutSeparator("", '\n');
    text
  }

  /** One pixel: its three channel numerals separated by single spaces. */
  function PixelText(c: Colour): (text: string)
    ensures Split(text, ' ') == [IntToString(c.red), IntToString(c.green), IntToString(c.blue)]
  {
    var r, g, b := IntToString(c.red), IntToString(c.green), IntToString(c.blue);
    assert r + " " + g + " " + b == (r + [' '] + g) + [' '] + b;
    SplitAppend(r + [' '] + g, b, ' ');
    SplitAppend(r, g, ' ');
    SplitWithoutSeparator(r, ' ');
    SplitWithoutSeparator(g, ' ');
    SplitWithoutSeparator(b, ' ');
    r + " " + g + " " + b
  }

  function PixelTexts(row: seq<Colour>): (r: seq<string>)
    ensures |r| == |row| && forall j :: 0 <= j < |row| ==> r[j] == PixelText(row[j])
  {
    if |row| == 0 then [] else [PixelText(row[0])] + PixelTexts(row[1..])
  }

  /** One image row: its pixels separated by single spaces. */
  function RowText(row: seq<Colour>): string {
    Join(PixelTexts(row), ' ')
  }

  function RowTexts(grid: seq<seq<Colour>>): (r: seq<string>)
    ensures |r| == |grid| && forall i :: 0 <= i < |grid| ==> r[i] == RowText(grid[i])
  {
    if |grid| == 0 then [] else [RowText(grid[0])] + RowTexts(grid[1..])
  }

  /** The text of an image given as its rows, top row first. */
  function Encode(width: nat, height: nat, grid: seq<seq<Colour>>): (text: string)
    ensures IsGrid(grid, width, height) ==>
      Split(text, '\n') == ["P3", IntToString(width) + " " + IntToString(height), "255"]
                            + (if height == 0 then [""] else RowTexts(grid))
  {
    var body := Join(RowTexts(grid), '\n');
    HeaderLines(width, height, body);
    if IsGrid(grid, width, height) && height > 0 then
      BodyLines(grid);
      Header(width, height) + body
    else
      Header(width, height) + body
  }

  predicate IsGrid(grid: seq<seq<Colour>>, width: nat, height: nat) {
    |grid| == height && forall i :: 0 <= i < |grid| ==> |grid[i]| == width
  }

  // ---------------------------------------------------------------------------
  // Reading the format back

  datatype Picture = Picture(width: nat, height: nat, grid: seq<seq<Colour>>)

  /** The decimal channel values of a row, three per pixel. */
  function Tokens(row: seq<Colour>): (r: seq<string>)
    ensures |r| == 3 * |row|
  {
    if |row| == 0 then []
    else [IntToString(row[0].red), IntToString(row[0].green), IntToString(row[0].blue)] + Tokens(row[1..])
  }

  /** The pixels of a sequence of channel values taken three at a time. */
  function DecodeTokens(tokens: seq<string>): Option<seq<Colour>>
    decreases |tokens|
  {
    if |tokens| == 0 then Some([])
    else if |tokens| < 3 then None
    else
      match (ParseInt(tokens[0]), ParseInt(tokens[1]), ParseInt(tokens[2]), DecodeTokens(tokens[3..]))
      case (Some(r), Some(g), Some(b), Some(rest)) => Some([Colour(r, g, b)] + rest)
      case _ => None
  }

  function DecodeRow(line: string, width: nat): Option<seq<Colour>> {
    if width == 0 then (if line == "" then Some([]) else None)
    else
      var tokens := Split(line, ' ');
      if |tokens| != 3 * width then None else DecodeTokens(tokens)
  }

  function DecodeRows(lines: seq<string>, width: nat): Option<seq<seq<Colour>>> {
    if |lines| == 0 then Some([])
    else
      match (DecodeRow(lines[0], width), DecodeRows(lines[1..], width))
      case (Some(row), Some(rest)) => Some([row] + rest)
      case _ => None
  }

  /** Reads a P3 text of the shape Encode writes. */
  function Decode(text: string): Option<Picture> {
    var lines := Split(text, '\n');
    if |lines| < 4 || lines[0] != "P3" || lines[2] != "255" then None
    else
      var dims := Split(lines[1], ' ');
      if |dims| != 2 then None
      else
        match (ParseNat(dims[0]), ParseNat(dims[1]))
        case (Some(width), Some(height)) =>
          var rows := lines[3..];
          if height == 0 then (if rows == [""] then Some(Picture(width, 0, [])) else None)
          else if |rows| != height then None
          else
            (match DecodeRows(rows, width)
             case Some(grid) => Some(Picture(width, height, grid))
             case None => None)
        case _ => None
  }

  // ---------------------------------------------------------------------------
  // The round trip

  lemma {:induction false} SplitRowText(row: seq<Colour>)
    requires |row| >= 1
    ensures Split(RowText(row), ' ') == Tokens(row)
  {
    if |row| > 1 {
      assert PixelTexts(row)[1..] == PixelTexts(row[1..]);
      SplitAppend(PixelText(row[0]), RowText(row[1..]), ' ');
      SplitRowText(row[1..]);
    }
  }

  lemma {:induction false} DecodeTokensInverse(row: seq<Colour>)
    ensures DecodeTokens(Tokens(row)) == Some(row)
  {
    if |row| > 0 {
      var c := row[0];
      IntRoundTrip(c.red);
      IntRoundTrip(c.green);
      IntRoundTrip(c.blue);
      assert Tokens(row)[3..] == Tokens(row[1..]);
      DecodeTokensInverse(row[1..]);
      assert [Colour(c.red, c.green, c.blue)] + row[1..] == row;
    }
  }

  lemma {:induction false} DecodeRowInverse(row: seq<Colour>)
    ensures DecodeRow(RowText(row), |row|) == Some(row)
  {
    if |row| > 0 {
      SplitRowText(row);
      DecodeTokensInverse(row);
    }
  }

  lemma {:induction false} DecodeRowsInverse(grid: seq<seq<Colour>>, width: nat)
    requires forall i :: 0 <= i < |grid| ==> |grid[i]| == width
    ensures DecodeRows(RowTexts(grid), width) == Some(grid)
  {
    if |grid| > 0 {
      DecodeRowInverse(grid[0]);
      assert RowTexts(grid)[1..] == RowTexts(grid[1..]);
      DecodeRowsInverse(grid[1..], width);
      assert [grid[0]] + grid[1..] == grid;
    }
  }

  lemma {:induction false} SplitLeadingLines(a: string, b: string, c: string, rest: string, sep: char)
    requires sep !in a && sep !in b && sep !in c
    ensures Split(a + [sep] + b + [sep] + c + [sep] + rest, sep) == [a, b, c] + Split(rest, sep)
  {
    assert a + [sep] + b + [sep] + c + [sep] + rest == a + [sep] + (b + [sep] + (c + [sep] + rest));
    SplitAppend(a, b + [sep] + (c + [sep] + rest), sep);
    SplitAppend(b, c + [sep] + rest, sep);
    SplitAppend(c, rest, sep);
    SplitWithoutSeparator(a, sep);
    SplitWithoutSeparator(b, sep);
    SplitWithoutSeparator(c, sep);
  }

  lemma {:induction false} HeaderLines(width: nat, height: nat, body: string)
    ensures Split(Header(width, height) + body, '\n')
      == ["P3", IntToString(width) + " " + IntToString(height), "255"] + Split(body, '\n')
  {
    var dims := IntToString(width) + " " + IntToString(height);
    HeaderShape(IntToString(width), IntToString(height), body);
    SplitLeadingLines("P3", dims, "255", body, '\n');
  }

  /** The header text regrouped as its three lines, each followed by a line break. */
  lemma HeaderShape(w: string, h: string, body: string)
    ensures "P3\n" + w + " " + h + "\n255\n" + body
      == "P3" + ['\n'] + (w + " " + h) + ['\n'] + "255" + ['\n'] + body
  {
  }

  lemma {:induction false} BodyLines(grid: seq<seq<Colour>>)
    requires |grid| >= 1
    ensures Split(Join(RowTexts(grid), '\n'), '\n') == RowTexts(grid)
  {
    forall i | 0 <= i < |grid|
      ensures '\n' !in RowTexts(grid)[i]
    {
      JoinAvoids(PixelTexts(grid[i]), ' ', '\n');
    }
    SplitJoinInverse(RowTexts(grid), '\n');
  }

  /** Decoding an exported image gives back its width, height and pixels. */
  lemma {:induction false} DecodeEncode(width: nat, height: nat, grid: seq<seq<Colour>>)
    requires IsGrid(grid, width, height)
    ensures Decode(Encode(width, height, grid)) == Some(Picture(width, height, grid))
  {
    var lines := Split(Encode(width, height, grid), '\n');
    DimensionsLine(width, height);
    assert lines[0] == "P3" && lines[2] == "255";
    if height > 0 {
      assert lines[3..] == RowTexts(grid);
      DecodeRowsInverse(grid, width);
    } else {
      assert lines[3..] == [""];
    }
  }

  /** The second header line reads back as the width and the height. */
  lemma {:induction false} DimensionsLine(width: nat, height: nat)
    ensures var dims := Split(IntToString(width) + " " + IntToString(height), ' ');
      dims == [IntToString(width), IntToString(height)]
      && ParseNat(dims[0]) == Some(width) && ParseNat(dims[1]) == Some(height)
  {
    var w, h := IntToString(width), IntToString(height);
    SplitAppend(w, h, ' ');
    SplitWithoutSeparator(w, ' ');
    SplitWithoutSeparator(h, ' ');
    NatRoundTrip(width);
    NatRoundTrip(height);
  }

  // ---------------------------------------------------------------------------
  // The exporter

  class Exporter {
    var width: nat
    var height: nat
    var image: array2<Colour>

    /** A width by height image, black until SetImage replaces it. */
    constructor (w: nat, h: nat)
      ensures width == w && height == h
      ensures fresh(image) && image.Length0 == w && image.Length1 == h
    {
      width, height := w, h;
      image := new Colour[w, h]((_, _) => BLACK);
    }

    /** Takes the image by reference; its size need not match width and height. */
    method SetImage(img: array2<Colour>)
      modifies this
      ensures image == img && width == old(width) && height == old(height)
    {
      image := img;
    }

    /** The loops of CreateFile read image[j, i] for every column j < width
        and row i < height. */
    predicate Readable()
      reads this
    {
      width == 0 || height == 0 || (width <= image.Length0 && height <= image.Length1)
    }

    /** The rows the export reads, top row first; image is indexed [column, row]. */
    function Grid(): (grid: seq<seq<Colour>>)
      reads this, image
      requires Readable()
      ensures IsGrid(grid, width, height)
      ensures forall i, j :: 0 <= i < height && 0 <= j < width ==> grid[i][j] == image[j, i]
    {
      seq(height, i reads this, image requires 0 <= i < height && (width == 0 || (i < image.Length1 && width <= image.Length0)) =>
        seq(width, j reads this, image requires 0 <= j < width && j < image.Length0 && i < image.Length1 => image[j, i]))
    }

    /** CreateFile: the path written to and the text written, or None when the
        image is smaller than width by height, where the source's loop throws
        on the first pixel outside the array and writes no file. */
    method CreateFile(filename: string) returns (path: string, text: Option<string>)
      ensures path == "../" + filename + ".ppm"
      ensures Readable() ==> text == Some(Encode(width, height, Grid()))
      ensures !Readable() ==> text == None
    {
      path := "../" + filename + ".ppm";
      if !Readable() {
        return path, None;
      }
      var output := "P3\n";
      output := output + IntToString(width) + " " + IntToString(height) + "\n255\n";
      var fileOutput := AppendRows(output, Grid());
      text := Some(fileOutput);
    }

    /** The row loop of CreateFile: appends the rows of grid, the image's
        rows, separated by line breaks. */
    method AppendRows(fileOutput: string, ghost grid: seq<seq<Colour>>) returns (r: string)
      requires Readable() && IsGrid(grid, width, height)
      requires forall i, j :: 0 <= i < height && 0 <= j < width ==> grid[i][j] == image[j, i]
      ensures r == fileOutput + Join(RowTexts(grid), '\n')
    {
      ghost var rows := RowTexts(grid);
      r := fileOutput;
      assert Written(r, fileOutput, rows, 0, '\n') by {
        assert Join(rows[..0], '\n') + Gap(0, height, '\n') == [];
      }
      for i := 0 to height
        invariant Written(r, fileOutput, rows, i, '\n')
      {
        WrittenStep(r, fileOutput, rows, i, '\n');
        r := AppendRow(r, grid[i], i);
        if i != height - 1 {
          r := r + "\n";
        } else {
          assert Gap(i + 1, height, '\n') == [];
          AppendEmpty(r);
        }
      }
      WrittenAll(r, fileOutput, rows, '\n');
    }

    /** The inner loop of CreateFile: appends the pixels of image row i,
        separated by single spaces. */
    method AppendRow(fileOutput: string, ghost row: seq<Colour>, i: nat) returns (r: string)
      requires (width == 0 || (i < image.Length1 && width <= image.Length0)) && |row| == width
      requires forall j :: 0 <= j < width ==> row[j] == image[j, i]
      ensures r == fileOutput + RowText(row)
    {
      ghost var pixels := PixelTexts(row);
      r := fileOutput;
      assert Written(r, fileOutput, pixels, 0, ' ') by {
        assert Join(pixels[..0], ' ') + Gap(0, width, ' ') == [];
      }
      for j := 0 to width
        invariant Written(r, fileOutput, pixels, j, ' ')
      {
        WrittenStep(r, fileOutput, pixels, j, ' ');
        r := r + PixelText(image[j, i]);
        if j != width - 1 {
          r := r + " ";
        } else {
          assert Gap(j + 1, width, ' ') == [];
          AppendEmpty(r);
        }
      }
      WrittenAll(r, fileOutput, pixels, ' ');
    }
  }
}
