/** The nearest-palette-colour selector: `hexToRgb` slices a colour string
    into three base-16 channels, and `closestColor` scans the palette for the
    candidate nearest to the target colour, keeping the first one on ties. */
module Utils {
  import opened Common

  /** A JavaScript number as `parseInt` produces it: an integer or `NaN`. */
  datatype Num = NaN | Int(n: int)

  datatype Rgb = Rgb(r: Num, g: Num, b: Num)

  // ---------------------------------------------------------------------
  // parseInt(s, 16)
  // ---------------------------------------------------------------------

  /** The white space and line terminators `parseInt` skips before a number. */
  predicate IsJsWhiteSpace(c: char) {
    var n := c as int;
    n == 0x09 || n == 0x0A || n == 0x0B || n == 0x0C || n == 0x0D || n == 0x20 ||
    n == 0xA0 || n == 0x1680 || 0x2000 <= n <= 0x200A || n == 0x2028 || n == 0x2029 ||
    n == 0x202F || n == 0x205F || n == 0x3000 || n == 0xFEFF
  }

  /** Where `parseInt` is in its reading of the string: still skipping white
      space, past the sign, or inside the run of digits (with the sign, the
      value so far and how many digits were read). */
  datatype Phase = Leading | AfterSign(negative: bool) | InDigits(negative: bool, value: nat, count: nat)

  function PhaseRank(p: Phase): nat {
    match p
    case Leading => 2
    case AfterSign(_) => 1
    case InDigits(_, _, _) => 0
  }

  /** `parseInt(s, 16)`: skip white space, read an optional sign and an
      optional `0x` prefix, then the longest run of hex digits; `NaN` when
      that run is empty. (A negative zero is the integer 0 here, which is the
      same number in every subtraction and square below.) */
  function ParseInt16(s: string): (r: Num)
    ensures |s| == 0 ==> r == NaN
  {
    assert |s| == 0 ==> ParseFrom(s, Leading) == ParseFrom(s, AfterSign(false)) == ParseFrom(s, InDigits(false, 0, 0));
    ParseFrom(s, Leading)
  }

  function ParseFrom(s: string, phase: Phase): Num
    decreases |s|, PhaseRank(phase)
  {
    match phase
    case Leading =>
      if |s| > 0 && IsJsWhiteSpace(s[0]) then ParseFrom(s[1..], Leading)
      else if |s| > 0 && (s[0] == '-' || s[0] == '+') then ParseFrom(s[1..], AfterSign(s[0] == '-'))
      else ParseFrom(s, AfterSign(false))
    case AfterSign(negative) =>
      if |s| >= 2 && s[0] == '0' && (s[1] == 'x' || s[1] == 'X') then ParseFrom(s[2..], InDigits(negative, 0, 0))
      else ParseFrom(s, InDigits(negative, 0, 0))
    case InDigits(negative, value, count) =>
      if |s| > 0 && IsHexDigit(s[0]) then ParseFrom(s[1..], InDigits(negative, 16 * value + HexDigitValue(s[0]), count + 1))
      else if count == 0 then NaN
      else
        var n: int := value;
        Int(if negative then -n else n)
  }

  /** Reading starts straight at the digits when the first character is a hex digit. */
  lemma ParseStartsAtDigit(d: string)
    requires |d| > 0 && IsHexDigit(d[0]) && (|d| >= 2 ==> IsHexDigit(d[1]))
    ensures ParseInt16(d) == ParseFrom(d, InDigits(false, 0, 0))
  {
    assert !IsJsWhiteSpace(d[0]);
    assert ParseFrom(d, Leading) == ParseFrom(d, AfterSign(false));
  }

  lemma ParseOneDigit(d: string)
    requires |d| == 1 && IsHexDigit(d[0])
    ensures ParseInt16(d) == Int(HexDigitValue(d[0]))
  {
    ParseStartsAtDigit(d);
    assert ParseFrom(d[1..], InDigits(false, HexDigitValue(d[0]), 1)) == Int(HexDigitValue(d[0]));
  }

  lemma ParseTwoDigits(d: string)
    requires |d| == 2 && IsHexDigit(d[0]) && IsHexDigit(d[1])
    ensures ParseInt16(d) == Int(16 * HexDigitValue(d[0]) + HexDigitValue(d[1]))
  {
    ParseStartsAtDigit(d);
    var v := 16 * HexDigitValue(d[0]) + HexDigitValue(d[1]);
    assert d[1..][0] == d[1] && d[1..][1..] == [];
    assert ParseFrom(d[1..][1..], InDigits(false, v, 2)) == Int(v);
    assert ParseFrom(d[1..], InDigits(false, HexDigitValue(d[0]), 1)) == Int(v);
  }

  predicate NoHexDigits(s: string) {
    forall i :: 0 <= i < |s| ==> !IsHexDigit(s[i])
  }

  /** Reading on from a phase with no digit read yet, through a string with
      no hex digit, finds no number. */
  lemma {:induction false} NoDigitsFrom(s: string, phase: Phase)
    requires NoHexDigits(s) && !(phase.InDigits? && phase.count > 0)
    ensures ParseFrom(s, phase) == NaN
    decreases |s|, PhaseRank(phase)
  {
    match phase
    case Leading =>
      if |s| > 0 && IsJsWhiteSpace(s[0]) {
        NoDigitsFrom(s[1..], Leading);
      } else if |s| > 0 && (s[0] == '-' || s[0] == '+') {
        NoDigitsFrom(s[1..], AfterSign(s[0] == '-'));
      } else {
        NoDigitsFrom(s, AfterSign(false));
      }
    case AfterSign(negative) =>
      NoDigitsFrom(s, InDigits(negative, 0, 0));
    case InDigits(_, _, _) =>
  }

  /** `parseInt(s, 16)` of a string without any hex digit is `NaN`. */
  lemma NoDigitsNoNumber(s: string)
    requires NoHexDigits(s)
    ensures ParseInt16(s) == NaN
  {
    NoDigitsFrom(s, Leading);
  }

  // ---------------------------------------------------------------------
  // hexToRgb
  // ---------------------------------------------------------------------

  function Min(a: nat, b: nat): nat { if a <= b then a else b }

  /** `String.prototype.substring` for `start <= end`: both ends are clamped to the length. */
  function Substring(s: string, start: nat, end: nat): (t: string)
    requires start <= end
    ensures |t| <= end - start
    ensures end <= |s| ==> t == s[start..end]
  {
    s[Min(start, |s|)..Min(end, |s|)]
  }

  /** `hexToRgb`: characters 1–2, 3–4 and 5–6, each read by `parseInt(_, 16)`. */
  function HexToRgb(hex: string): (r: Rgb)
    ensures |hex| <= 5 ==> r.b == NaN
    ensures |hex| <= 3 ==> r.g == NaN && r.b == NaN
    ensures |hex| <= 1 ==> r == Rgb(NaN, NaN, NaN)
  {
    Rgb(ParseInt16(Substring(hex, 1, 3)),
        ParseInt16(Substring(hex, 3, 5)),
        ParseInt16(Substring(hex, 5, 7)))
  }

  /** The value of the two hex digits `s[i]`, `s[i+1]`. */
  function Byte(s: string, i: nat): (v: nat)
    requires i + 1 < |s| && IsHexDigit(s[i]) && IsHexDigit(s[i + 1])
    ensures v <= 255
  {
    16 * HexDigitValue(s[i]) + HexDigitValue(s[i + 1])
  }

  /** The channel read from the two hex digits at `i` and `i + 1`. */
  lemma ChannelAt(s: string, i: nat)
    requires i + 1 < |s| && IsHexDigit(s[i]) && IsHexDigit(s[i + 1])
    ensures ParseInt16(Substring(s, i, i + 2)) == Int(Byte(s, i))
  {
    var d := s[i..i + 2];
    assert Substring(s, i, i + 2) == d;
    assert d[0] == s[i] && d[1] == s[i + 1];
    ParseTwoDigits(d);
  }

  /** A `#RRGGBB` colour, in either case, reads as its three channels, each in 0..255. */
  lemma HexToRgbLong(s: string)
    requires IsLongHexColor(s)
    ensures HexToRgb(s) == Rgb(Int(Byte(s, 1)), Int(Byte(s, 3)), Int(Byte(s, 5)))
    ensures HexToRgb(s).r.n <= 255 && HexToRgb(s).g.n <= 255 && HexToRgb(s).b.n <= 255
  {
    forall i | 1 <= i < 7 ensures IsHexDigit(s[i]) {
      assert s[i] == s[1..][i - 1];
    }
    ChannelAt(s, 1);
    ChannelAt(s, 3);
    ChannelAt(s, 5);
  }

  /** A `#RGB` colour reads `RG` as red, `B` alone as green, and an empty
      string as blue, so its blue channel is `NaN`. */
  lemma HexToRgbShort(s: string)
    requires IsShortHexColor(s)
    ensures HexToRgb(s) == Rgb(Int(Byte(s, 1)), Int(HexDigitValue(s[3])), NaN)
  {
    forall i | 1 <= i < 4 ensures IsHexDigit(s[i]) {
      assert s[i] == s[1..][i - 1];
    }
    ChannelAt(s, 1);
    var g := s[3..4];
    assert Substring(s, 3, 5) == g && g[0] == s[3];
    ParseOneDigit(g);
    assert Substring(s, 5, 7) == "";
  }

  // ---------------------------------------------------------------------
  // Distance
  // ---------------------------------------------------------------------

  function Square(x: int): nat { x * x }

  /** The square of the Euclidean RGB distance, or `None` where the source's
      distance is `NaN` (some channel of either colour is `NaN`). */
  function SqDist(a: Rgb, b: Rgb): Option<nat> {
    if a.r.Int? && a.g.Int? && a.b.Int? && b.r.Int? && b.g.Int? && b.b.Int? then
      Some(Square(b.r.n - a.r.n) + Square(b.g.n - a.g.n) + Square(b.b.n - a.b.n))
    else None
  }

  lemma SqDistSelf(x: Rgb)
    ensures SqDist(x, x).Some? ==> SqDist(x, x) == Some(0)
  {
  }

  /** The distance the loop body computes between the target and one candidate. */
  function Distance(target: string, color: string): Option<nat> {
    SqDist(HexToRgb(target), HexToRgb(color))
  }

  /** `Math.sqrt` is strictly monotone, so comparing squared distances picks the
      same candidate as comparing the distances: for any non-negative roots `x`
      of `a` and `y` of `b`, `x < y` exactly when `a < b`. */
  lemma SquaredDistanceOrdersLikeDistance(a: nat, b: nat, x: real, y: real)
    requires 0.0 <= x && 0.0 <= y
    requires x * x == a as real && y * y == b as real
    ensures x < y <==> a < b
  {
    if x < y {
      SquareStrictlyMonotone(x, y);
    } else if y < x {
      SquareStrictlyMonotone(y, x);
    }
  }

  lemma SquareStrictlyMonotone(x: real, y: real)
    requires 0.0 <= x < y
    ensures x * x < y * y
  {
    var d := y - x;
    assert y * y == x * x + 2.0 * x * d + d * d;
    assert d * d > 0.0;
    assert x * d >= 0.0;
  }

  lemma PositiveSquare(x: int)
    ensures x != 0 ==> Square(x) > 0
  {
    if x > 0 {
      assert x * x >= x * 1;
    } else if x < 0 {
      assert (-x) * (-x) >= (-x) * 1;
    }
  }

  lemma SumOfSquaresZero(x: int, y: int, z: int)
    ensures Square(x) + Square(y) + Square(z) == 0 <==> x == 0 && y == 0 && z == 0
  {
    PositiveSquare(x);
    PositiveSquare(y);
    PositiveSquare(z);
  }

  /** Two colours with all channels defined are at distance 0 exactly when they are equal. */
  lemma SqDistZeroIffSameChannels(x: Rgb, y: Rgb)
    requires x.r.Int? && x.g.Int? && x.b.Int? && y.r.Int? && y.g.Int? && y.b.Int?
    ensures SqDist(x, y) == Some(0) <==> x == y
  {
    SumOfSquaresZero(y.r.n - x.r.n, y.g.n - x.g.n, y.b.n - x.b.n);
  }

  lemma ByteEqual(s: string, t: string, i: nat)
    requires i + 1 < |s| && i + 1 < |t|
    requires IsHexDigit(s[i]) && IsHexDigit(s[i + 1]) && IsHexDigit(t[i]) && IsHexDigit(t[i + 1])
    ensures Byte(s, i) == Byte(t, i) <==>
              HexDigitValue(s[i]) == HexDigitValue(t[i]) && HexDigitValue(s[i + 1]) == HexDigitValue(t[i + 1])
  {
  }

  /** Every pair of `#RRGGBB` colours has a defined distance. */
  lemma LongDistanceDefined(t: string, c: string)
    requires IsLongHexColor(t) && IsLongHexColor(c)
    ensures Distance(t, c).Some?
  {
    HexToRgbLong(t);
    HexToRgbLong(c);
  }

  /** A `#RGB` colour, as target or as candidate, has no defined distance. */
  lemma ShortDistanceUndefined(t: string, c: string)
    requires IsShortHexColor(t) || IsShortHexColor(c)
    ensures Distance(t, c).None?
  {
    if IsShortHexColor(t) { HexToRgbShort(t); } else { HexToRgbShort(c); }
  }

  lemma LongDigits(s: string)
    requires IsLongHexColor(s)
    ensures forall i :: 1 <= i < 7 ==> IsHexDigit(s[i])
  {
    forall i | 1 <= i < 7 ensures IsHexDigit(s[i]) {
      assert s[i] == s[1..][i - 1];
    }
  }

  /** Two `#RRGGBB` colours have the same three channels exactly when they
      spell the same colour up to case. */
  lemma SameChannelsIffSameColour(a: string, b: string)
    requires IsLongHexColor(a) && IsLongHexColor(b)
    ensures Byte(a, 1) == Byte(b, 1) && Byte(a, 3) == Byte(b, 3) && Byte(a, 5) == Byte(b, 5)
            <==> EqualIgnoringCase(a, b)
  {
    LongDigits(a);
    LongDigits(b);
    ByteEqual(a, b, 1);
    ByteEqual(a, b, 3);
    ByteEqual(a, b, 5);
    forall i | 1 <= i < 7
      ensures HexDigitValue(a[i]) == HexDigitValue(b[i]) <==> Upper(a[i]) == Upper(b[i])
    {
      HexDigitValueIgnoresCase(a[i], b[i]);
    }
  }

  /** Two `#RRGGBB` colours are at distance 0 exactly when they are the same
      colour written in possibly different case. */
  lemma DistanceZeroIffSameColour(a: string, b: string)
    requires IsLongHexColor(a) && IsLongHexColor(b)
    ensures Distance(a, b) == Some(0) <==> EqualIgnoringCase(a, b)
  {
    HexToRgbLong(a);
    HexToRgbLong(b);
    SqDistZeroIffSameChannels(HexToRgb(a), HexToRgb(b));
    SameChannelsIffSameColour(a, b);
  }

  // ---------------------------------------------------------------------
  // closestColor: specification
  // ---------------------------------------------------------------------

  /** The distance of every candidate to the target, in palette order. */
  function Distances(target: string, colors: seq<string>): (ds: seq<Option<nat>>)
    ensures |ds| == |colors|
  {
    if |colors| == 0 then [] else [Distance(target, colors[0])] + Distances(target, colors[1..])
  }

  lemma {:induction false} DistancesAt(target: string, colors: seq<string>, j: nat)
    requires j < |colors|
    ensures Distances(target, colors)[j] == Distance(target, colors[j])
  {
    if j > 0 {
      DistancesAt(target, colors[1..], j - 1);
    }
  }

  /** No candidate has a defined distance. */
  ghost predicate NoneDefined(ds: seq<Option<nat>>) {
    forall j :: 0 <= j < |ds| ==> ds[j].None?
  }

  /** `k` is the lowest index among the candidates at minimal defined distance. */
  ghost predicate IsNearest(ds: seq<Option<nat>>, k: int) {
    0 <= k < |ds| && ds[k].Some? &&
    (forall j :: 0 <= j < |ds| && ds[j].Some? ==> ds[k].value <= ds[j].value) &&
    (forall j :: 0 <= j < k && ds[j].Some? ==> ds[k].value < ds[j].value)
  }

  /** The nearest candidate with a defined distance, found by an independent
      recursion over the suffixes of the palette: the head wins when it is at
      least as near as the best of the tail. */
  function NearestDefined(ds: seq<Option<nat>>): (r: Option<nat>)
    ensures r.None? <==> NoneDefined(ds)
    ensures r.Some? ==> IsNearest(ds, r.value)
    decreases |ds|
  {
    if |ds| == 0 then None
    else
      var rest := ds[1..];
      assert forall j :: 1 <= j < |ds| ==> ds[j] == rest[j - 1];
      match NearestDefined(rest)
      case None => if ds[0].Some? then Some(0) else None
      case Some(k) => if ds[0].Some? && ds[0].value <= ds[k + 1].value then Some(0) else Some(k + 1)
  }

  /** Two indices that both satisfy `IsNearest` are the same index. */
  lemma NearestIsUnique(ds: seq<Option<nat>>, i: int, j: int)
    requires IsNearest(ds, i) && IsNearest(ds, j)
    ensures i == j
  {
  }

  /** The index `closestColor` returns: the nearest candidate, or 0 (the
      initial `colorsArray[0]`) when no distance is defined. */
  function ClosestIndex(target: string, colors: seq<string>): nat {
    match NearestDefined(Distances(target, colors))
    case None => 0
    case Some(k) => k
  }

  /** What `closestColor` returns; `None` is the `undefined` of `[][0]`. */
  function ClosestColorOf(target: string, colors: seq<string>): (r: Option<string>)
    ensures r.Some? <==> |colors| > 0
    ensures r.Some? ==> r.value in colors
  {
    if |colors| == 0 then None else Some(colors[ClosestIndex(target, colors)])
  }

  // ---------------------------------------------------------------------
  // closestColor: the scan
  // ---------------------------------------------------------------------

  /** `distance < minDistance`, with `None` for `NaN` on the left and for the
      initial `Number.MAX_VALUE` on the right; every defined distance is below
      `Number.MAX_VALUE`, and `NaN` is below nothing. */
  predicate Below(distance: Option<nat>, minDistance: Option<nat>) {
    distance.Some? && (minDistance.None? || distance.value < minDistance.value)
  }

  /** The state of the scan after the first `i` candidates: `minDistance` is
      unset exactly when none of them had a defined distance, and otherwise
      `best` is the first of them at the minimal distance `minDistance`. */
  ghost predicate Scanned(ds: seq<Option<nat>>, i: nat, best: nat, minDistance: Option<nat>)
    requires i <= |ds|
  {
    (minDistance.None? <==> NoneDefined(ds[..i])) &&
    (minDistance.None? ==> best == 0) &&
    (minDistance.Some? ==> IsNearest(ds[..i], best) && minDistance == ds[best])
  }

  /** One iteration of the scan keeps `Scanned`; strict `<` keeps the earlier candidate on a tie. */
  lemma ScanStep(ds: seq<Option<nat>>, i: nat, best: nat, minDistance: Option<nat>)
    requires i < |ds| && Scanned(ds, i, best, minDistance)
    ensures Below(ds[i], minDistance) ==> Scanned(ds, i + 1, i, ds[i])
    ensures !Below(ds[i], minDistance) ==> Scanned(ds, i + 1, best, minDistance)
  {
    assert forall j :: 0 <= j < i ==> ds[..i + 1][j] == ds[..i][j];
    assert ds[..i + 1][i] == ds[i];
  }

  /** `closestColor(targetColor, colorsArray)`. */
  method ClosestColor(targetColor: string, colorsArray: seq<string>) returns (closest: Option<string>)
    ensures closest == ClosestColorOf(targetColor, colorsArray)
  {
    ghost var ds := Distances(targetColor, colorsArray);
    var minDistance: Option<nat> := None;
    closest := if |colorsArray| > 0 then Some(colorsArray[0]) else None;
    ghost var best := 0;
    for i := 0 to |colorsArray|
      invariant Scanned(ds, i, best, minDistance)
      invariant closest == if |colorsArray| > 0 then Some(colorsArray[best]) else None
    {
      var rgb1 := HexToRgb(targetColor);
      var rgb2 := HexToRgb(colorsArray[i]);
      var distance := SqDist(rgb1, rgb2);
      DistancesAt(targetColor, colorsArray, i);
      ScanStep(ds, i, best, minDistance);
      if Below(distance, minDistance) {
        minDistance := distance;
        closest := Some(colorsArray[i]);
        best := i;
      }
    }
    assert ds[..|colorsArray|] == ds;
    match NearestDefined(ds)
    case None =>
    case Some(k) => NearestIsUnique(ds, k, best);
  }

  // ---------------------------------------------------------------------
  // Properties of the selector
  // ---------------------------------------------------------------------

  /** `c` has a defined distance to the target, no greater than that of `d`. */
  predicate AtLeastAsNear(target: string, c: string, d: string) {
    Distance(target, c).Some? &&
    (Distance(target, d).None? || Distance(target, c).value <= Distance(target, d).value)
  }

  /** With a `#RRGGBB` target the result is at least as near as every
      `#RRGGBB` candidate. */
  lemma ClosestIsNearest(target: string, colors: seq<string>, j: nat)
    requires IsLongHexColor(target)
    requires j < |colors| && IsLongHexColor(colors[j])
    ensures AtLeastAsNear(target, colors[ClosestIndex(target, colors)], colors[j])
  {
    var ds := Distances(target, colors);
    LongDistanceDefined(target, colors[j]);
    DistancesAt(target, colors, j);
    var k := NearestDefined(ds).value;
    DistancesAt(target, colors, k);
  }

  /** Ties go to the earlier candidate: a candidate that an earlier one
      matches in distance is never the result. */
  lemma TieGoesToFirst(target: string, colors: seq<string>, i: nat, j: nat)
    requires i < j < |colors|
    requires Distance(target, colors[i]).Some? && Distance(target, colors[i]) == Distance(target, colors[j])
    ensures ClosestIndex(target, colors) != j
  {
    var ds := Distances(target, colors);
    DistancesAt(target, colors, i);
    DistancesAt(target, colors, j);
  }

  /** A `#RGB` target has no defined distance to anything, so the scan never
      replaces `colorsArray[0]`. */
  lemma ShortTargetKeepsFirst(target: string, colors: seq<string>)
    requires IsShortHexColor(target)
    ensures ClosestIndex(target, colors) == 0
  {
    var ds := Distances(target, colors);
    forall j | 0 <= j < |colors| ensures ds[j].None? {
      DistancesAt(target, colors, j);
      ShortDistanceUndefined(target, colors[j]);
    }
  }

  /** A `#RGB` candidate is chosen only as the default `colorsArray[0]`, and
      then only when no candidate has a defined distance. */
  lemma ShortCandidateNeverWins(target: string, colors: seq<string>, k: nat)
    requires k < |colors| && IsShortHexColor(colors[k])
    ensures ClosestIndex(target, colors) == k ==> k == 0 && NoneDefined(Distances(target, colors))
  {
    var ds := Distances(target, colors);
    ShortDistanceUndefined(target, colors[k]);
    DistancesAt(target, colors, k);
  }

  /** With a `#RRGGBB` target and a palette of valid colours, the first
      candidate that spells the target (ignoring case) is the result. */
  lemma ExactMatchWins(target: string, colors: seq<string>, k: nat)
    requires IsLongHexColor(target)
    requires forall j :: 0 <= j < |colors| ==> IsHexColor(colors[j])
    requires k < |colors| && EqualIgnoringCase(colors[k], target)
    requires forall j :: 0 <= j < k ==> !EqualIgnoringCase(colors[j], target)
    ensures ClosestIndex(target, colors) == k
  {
    var ds := Distances(target, colors);
    assert IsLongHexColor(colors[k]);
    DistanceZeroIffSameColour(target, colors[k]);
    DistancesAt(target, colors, k);
    var w := NearestDefined(ds).value;
    assert ds[w] == Some(0);
    if w < k {
      DistancesAt(target, colors, w);
      if IsShortHexColor(colors[w]) {
        ShortDistanceUndefined(target, colors[w]);
      } else {
        DistanceZeroIffSameColour(target, colors[w]);
      }
    }
  }

  /** A colour listed first in its own palette is always the answer. */
  lemma TargetFirstIsChosen(c: string, others: seq<string>)
    ensures ClosestColorOf(c, [c] + others) == Some(c)
  {
    var colors := [c] + others;
    var ds := Distances(c, colors);
    assert colors[0] == c;
    DistancesAt(c, colors, 0);
    SqDistSelf(HexToRgb(c));
    match NearestDefined(ds)
    case None =>
    case Some(w) =>
      DistancesAt(c, colors, w);
      assert ds[0] == Some(0);
  }

  /** The channels of a `#RRGGBB` colour given by its three bytes. */
  predicate HasChannels(s: string, r: nat, g: nat, b: nat) {
    IsLongHexColor(s) && Byte(s, 1) == r && Byte(s, 3) == g && Byte(s, 5) == b
  }

  lemma RedChannels()
    ensures HasChannels("#FF0000", 255, 0, 0)
  {
  }

  lemma GreenChannels()
    ensures HasChannels("#00FF00", 0, 255, 0)
  {
  }

  lemma NearRedChannels()
    ensures HasChannels("#FE0101", 254, 1, 1)
  {
  }

  /** Pure red against a green and an almost-red: the almost-red wins. */
  lemma NearestRedExample()
    ensures ClosestColorOf("#FF0000", ["#00FF00", "#FE0101"]) == Some("#FE0101")
  {
    var red, green, nearRed := "#FF0000", "#00FF00", "#FE0101";
    var colors := [green, nearRed];
    var ds := Distances(red, colors);
    RedChannels();
    GreenChannels();
    NearRedChannels();
    HexToRgbLong(red);
    HexToRgbLong(green);
    HexToRgbLong(nearRed);
    DistancesAt(red, colors, 0);
    DistancesAt(red, colors, 1);
    assert ds[0] == Some(130050);
    assert ds[1] == Some(3);
  }
}
