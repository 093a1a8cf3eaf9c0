/** One parcel for a whole order: parcel-from-lines.ts. */
module Parcels {
  import opened Wrappers
  import opened Money

  datatype ParcelLine = ParcelLine(
    qty: real, sku: string, weight: Option<real>, length: Option<real>, width: Option<real>, height: Option<real>)

  /** Kilograms to three decimals, whole centimetres. */
  datatype Parcel = Parcel(weight: real, length: int, width: int, height: int)

  datatype MissingDimensions = MissingDimensions(skus: seq<string>)

  predicate IsGiven(x: Option<real>) {
    x.Some? && x.value > 0.0
  }

  predicate IsComplete(l: ParcelLine) {
    IsGiven(l.weight) && IsGiven(l.length) && IsGiven(l.width) && IsGiven(l.height)
  }

  /** Weight and sides are there and positive, all four. */
  predicate IsMeasured(l: ParcelLine) {
    forall x :: x in [l.weight, l.length, l.width, l.height] ==> x != None && x.value > 0.0
  }

  lemma CompleteIsMeasured(l: ParcelLine)
    ensures IsComplete(l) <==> IsMeasured(l)
  {
    var given := [l.weight, l.length, l.width, l.height];
    assert given[0] in given && given[1] in given && given[2] in given && given[3] in given;
  }

  predicate AllComplete(lines: seq<ParcelLine>) {
    forall i :: 0 <= i < |lines| ==> IsComplete(lines[i])
  }

  function IncompleteSkus(lines: seq<ParcelLine>): (skus: seq<string>)
    ensures skus == [] <==> AllComplete(lines)
    ensures forall s :: s in skus <==> exists i :: 0 <= i < |lines| && !IsComplete(lines[i]) && lines[i].sku == s
  {
    if |lines| == 0 then []
    else
      var n := |lines| - 1;
      if IsComplete(lines[n]) then IncompleteSkus(lines[..n]) else IncompleteSkus(lines[..n]) + [lines[n].sku]
  }

  /** Half a piece ships in a whole box, and a line ships one piece at least. */
  function Pieces(qty: real): (n: int)
    ensures n >= 1 && qty <= n as real && (n == 1 || (n as real) < qty + 1.0)
  {
    if Ceil(qty) < 1 then 1 else Ceil(qty)
  }

  /** `Math.round(n * 1000) / 1000`. */
  function Round3(x: real): real {
    (x * 1000.0 + 0.5).Floor as real / 1000.0
  }

  /** Three sides, longest first. */
  datatype Sides = Sides(long: real, mid: real, thin: real)

  function SortDescending(a: real, b: real, c: real): Sides {
    if a >= b then
      if b >= c then Sides(a, b, c) else if a >= c then Sides(a, c, b) else Sides(c, a, b)
    else
      if a >= c then Sides(b, a, c) else if b >= c then Sides(b, c, a) else Sides(c, b, a)
  }

  lemma SortDescendingSorts(a: real, b: real, c: real)
    ensures var s := SortDescending(a, b, c);
            s.long >= s.mid >= s.thin && multiset{s.long, s.mid, s.thin} == multiset{a, b, c}
  {
  }

  function SidesOf(l: ParcelLine): Sides
    requires IsComplete(l)
  {
    SortDescending(l.length.value, l.width.value, l.height.value)
  }

  /** What the loop has gathered: kilograms, the longest and second longest side so far, and the stack. */
  datatype Sums = Sums(weight: real, length: real, width: real, height: real)

  const NOTHING := Sums(0.0, 0.0, 0.0, 0.0)

  function One(l: ParcelLine): Sums
    requires IsComplete(l)
  {
    var n := Pieces(l.qty) as real;
    Sums(Times(n, l.weight.value), SidesOf(l).long, SidesOf(l).mid, Times(n, SidesOf(l).thin))
  }

  function Join(a: Sums, b: Sums): Sums {
    Sums(a.weight + b.weight, Max(a.length, b.length), Max(a.width, b.width), a.height + b.height)
  }

  function Total(parts: seq<Sums>): Sums {
    if |parts| == 0 then NOTHING else Join(Total(parts[..|parts| - 1]), parts[|parts| - 1])
  }

  function Parts(lines: seq<ParcelLine>): (parts: seq<Sums>)
    requires AllComplete(lines)
    ensures |parts| == |lines| && forall i :: 0 <= i < |lines| ==> parts[i] == One(lines[i])
  {
    seq(|lines|, i requires 0 <= i < |lines| => One(lines[i]))
  }

  function Boxed(s: Sums): Parcel {
    Parcel(Round3(s.weight), Ceil(s.length), Ceil(s.width), Ceil(s.height))
  }

  function ParcelOf(lines: seq<ParcelLine>): Parcel
    requires AllComplete(lines)
  {
    Boxed(Total(Parts(lines)))
  }

  method ParcelFromLines(lines: seq<ParcelLine>) returns (r: Result<Parcel, MissingDimensions>)
    ensures r.Success? <==> lines != [] && forall i :: 0 <= i < |lines| ==> IsMeasured(lines[i])
    ensures r.Success? ==> AllComplete(lines) && r.value == ParcelOf(lines)
    ensures r.Failure? ==> r.error.skus == IncompleteSkus(lines)
  {
    forall i | 0 <= i < |lines| ensures IsComplete(lines[i]) <==> IsMeasured(lines[i]) {
      CompleteIsMeasured(lines[i]);
    }
    if |lines| == 0 {
      return Failure(MissingDimensions([]));
    }
    var incomplete := IncompleteSkus(lines);
    if |incomplete| > 0 {
      return Failure(MissingDimensions(incomplete));
    }
    ghost var parts := Parts(lines);
    var weight, length, width, height := 0.0, 0.0, 0.0, 0.0;
    for i := 0 to |lines|
      invariant Sums(weight, length, width, height) == Total(parts[..i])
    {
      assert parts[..i + 1][..i] == parts[..i];
      weight, length, width, height := PackLine(lines[i], weight, length, width, height);
    }
    assert parts[..|lines|] == parts;
    return Success(Parcel(Round3(weight), Ceil(length), Ceil(width), Ceil(height)));
  }

  /** The loop's turn for one line. */
  method PackLine(line: ParcelLine, weight0: real, length0: real, width0: real, height0: real)
    returns (weight: real, length: real, width: real, height: real)
    requires IsComplete(line)
    ensures Sums(weight, length, width, height) == Join(Sums(weight0, length0, width0, height0), One(line))
  {
    var qty := if 1 < Ceil(line.qty) then Ceil(line.qty) else 1;
    var sides := SortDescending(line.length.value, line.width.value, line.height.value);
    weight := weight0 + Times(qty as real, line.weight.value);
    length := Max(length0, sides.long);
    width := Max(width0, sides.mid);
    height := height0 + Times(qty as real, sides.thin);
  }

  // Algebra of the sums.

  predicate NonNegative(s: Sums) {
    s.weight >= 0.0 && s.length >= 0.0 && s.width >= 0.0 && s.height >= 0.0
  }

  predicate AllNonNegative(parts: seq<Sums>) {
    forall i :: 0 <= i < |parts| ==> NonNegative(parts[i])
  }

  lemma {:induction false} TotalNonNegative(parts: seq<Sums>)
    requires AllNonNegative(parts)
    ensures NonNegative(Total(parts))
  {
    if |parts| > 0 {
      TotalNonNegative(parts[..|parts| - 1]);
    }
  }

  /** A sequence with one element taken out. */
  function Without<T>(s: seq<T>, i: nat): seq<T>
    requires i < |s|
  {
    s[..i] + s[i + 1..]
  }

  lemma WithoutBeforeLast<T>(s: seq<T>, i: nat)
    requires i < |s| - 1
    ensures Without(s, i) == Without(s[..|s| - 1], i) + [s[|s| - 1]]
  {
  }

  lemma JoinSwaps(a: Sums, x: Sums, y: Sums)
    ensures Join(Join(a, x), y) == Join(Join(a, y), x)
  {
  }

  lemma TotalOfMore(parts: seq<Sums>, x: Sums)
    ensures Total(parts + [x]) == Join(Total(parts), x)
  {
    assert (parts + [x])[..|parts|] == parts;
  }

  /** A part may be pulled out of the middle. */
  lemma {:induction false} TotalWithout(parts: seq<Sums>, i: nat)
    requires i < |parts|
    ensures Total(parts) == Join(Total(Without(parts, i)), parts[i])
  {
    var n := |parts| - 1;
    if i == n {
      assert Without(parts, i) == parts[..n];
    } else {
      TotalWithout(parts[..n], i);
      WithoutBeforeLast(parts, i);
      TotalOfMore(Without(parts[..n], i), parts[n]);
      JoinSwaps(Total(Without(parts[..n], i)), parts[i], parts[n]);
    }
  }

  lemma PartsAreNonNegative(lines: seq<ParcelLine>)
    requires AllComplete(lines)
    ensures AllNonNegative(Parts(lines))
  {
    forall i | 0 <= i < |lines| ensures NonNegative(Parts(lines)[i]) {
      OneIsPositive(lines[i]);
    }
  }

  lemma OneIsPositive(l: ParcelLine)
    requires IsComplete(l)
    ensures NonNegative(One(l))
  {
    assert SidesOf(l).thin > 0.0;
    TimesPositive(Pieces(l.qty) as real, l.weight.value);
    TimesPositive(Pieces(l.qty) as real, SidesOf(l).thin);
  }

  lemma TimesPositive(a: real, b: real)
    requires a > 0.0 && b > 0.0
    ensures Times(a, b) > 0.0
  {
  }

  /** The total of an order with line `i` taken out, and what that line adds to it. */
  lemma LineAdds(lines: seq<ParcelLine>, i: nat)
    requires AllComplete(lines) && i < |lines|
    ensures AllComplete(Without(lines, i)) && NonNegative(Total(Parts(Without(lines, i))))
    ensures Total(Parts(lines)) == Join(Total(Parts(Without(lines, i))), One(lines[i]))
  {
    var rest := Without(lines, i);
    PartsAreNonNegative(lines);
    PartsAreNonNegative(rest);
    assert Without(Parts(lines), i) == Parts(rest);
    TotalWithout(Parts(lines), i);
    TotalNonNegative(Parts(rest));
  }

  lemma {:induction false} TotalOfPermutation(a: seq<ParcelLine>, b: seq<ParcelLine>)
    requires multiset(a) == multiset(b) && AllComplete(a) && AllComplete(b)
    ensures Total(Parts(a)) == Total(Parts(b))
    decreases |a|
  {
    if |a| > 0 {
      var n := |a| - 1;
      var i := Matching(a, b);
      assert Without(a, n) == a[..n];
      LineAdds(a, n);
      LineAdds(b, i);
      TotalOfPermutation(a[..n], Without(b, i));
    } else {
      assert |multiset(b)| == 0;
    }
  }

  /** The last line of one order, found in another with the same lines. */
  lemma Matching(a: seq<ParcelLine>, b: seq<ParcelLine>) returns (i: nat)
    requires multiset(a) == multiset(b) && |a| > 0
    ensures i < |b| && b[i] == a[|a| - 1] && multiset(a[..|a| - 1]) == multiset(Without(b, i))
  {
    var n := |a| - 1;
    assert a[n] in multiset(b);
    i :| 0 <= i < |b| && b[i] == a[n];
    assert Without(a, n) == a[..n];
    WithoutCounts(a, n);
    WithoutCounts(b, i);
    assert multiset(a[..n]) == multiset(a) - multiset{a[n]};
  }

  lemma WithoutCounts(s: seq<ParcelLine>, i: nat)
    requires i < |s|
    ensures multiset(s) == multiset(Without(s, i)) + multiset{s[i]}
  {
    assert s == s[..i] + [s[i]] + s[i + 1..];
  }

  /** The order of the lines does not matter. */
  lemma ParcelOfPermutation(a: seq<ParcelLine>, b: seq<ParcelLine>)
    requires multiset(a) == multiset(b)
    ensures AllComplete(a) <==> AllComplete(b)
    ensures AllComplete(a) ==> ParcelOf(a) == ParcelOf(b)
  {
    if AllComplete(a) {
      CompleteByMultiset(a, b);
      TotalOfPermutation(a, b);
    } else if AllComplete(b) {
      CompleteByMultiset(b, a);
    }
  }

  lemma CompleteByMultiset(a: seq<ParcelLine>, b: seq<ParcelLine>)
    requires multiset(a) == multiset(b) && AllComplete(a)
    ensures AllComplete(b)
  {
    forall i | 0 <= i < |b| ensures IsComplete(b[i]) {
      assert b[i] in multiset(a);
    }
  }

  // The parcel holds its contents.

  /** The pieces of a line lie on the stack: as long and as wide as the carton allows, and no taller. */
  predicate Fits(l: ParcelLine, p: Parcel)
    requires IsComplete(l)
  {
    One(l).length <= p.length as real && One(l).width <= p.width as real && One(l).height <= p.height as real
  }

  function Sum(xs: seq<real>): real {
    if |xs| == 0 then 0.0 else Sum(xs[..|xs| - 1]) + xs[|xs| - 1]
  }

  /** Pieces times the product of the three sides as they were given. */
  function LineVolume(l: ParcelLine): real
    requires IsComplete(l)
  {
    Times(Pieces(l.qty) as real, Times(Times(l.length.value, l.width.value), l.height.value))
  }

  function LineWeight(l: ParcelLine): real
    requires IsComplete(l)
  {
    Times(Pieces(l.qty) as real, l.weight.value)
  }

  function Volume(lines: seq<ParcelLine>): real
    requires AllComplete(lines)
  {
    Sum(seq(|lines|, i requires 0 <= i < |lines| => LineVolume(lines[i])))
  }

  function Weight(lines: seq<ParcelLine>): real
    requires AllComplete(lines)
  {
    Sum(seq(|lines|, i requires 0 <= i < |lines| => LineWeight(lines[i])))
  }

  /** Sorting the sides does not change the volume of a piece. */
  lemma SortKeepsVolume(a: real, b: real, c: real)
    ensures var s := SortDescending(a, b, c); Times(Times(a, b), c) == Times(Times(s.long, s.mid), s.thin)
  {
  }

  lemma {:induction false} StackHoldsVolumes(volumes: seq<real>, parts: seq<Sums>, base: real)
    requires |volumes| == |parts| && forall i :: 0 <= i < |parts| ==> volumes[i] <= Times(base, parts[i].height)
    ensures Sum(volumes) <= Times(base, Total(parts).height)
  {
    if |parts| > 0 {
      var n := |parts| - 1;
      StackHoldsVolumes(volumes[..n], parts[..n], base);
      TimesAdds(base, Total(parts[..n]).height, parts[n].height);
    }
  }

  lemma {:induction false} WeightsAddUp(weights: seq<real>, parts: seq<Sums>)
    requires |weights| == |parts| && forall i :: 0 <= i < |parts| ==> weights[i] == parts[i].weight
    ensures Sum(weights) == Total(parts).weight
  {
    if |parts| > 0 {
      WeightsAddUp(weights[..|parts| - 1], parts[..|parts| - 1]);
    }
  }

  lemma TimesAdds(x: real, y: real, z: real)
    ensures Times(x, y + z) == Times(x, y) + Times(x, z)
  {
  }

  /** A line needs no more of a carton than its share of the stack. */
  lemma LineTakesItsShare(l: ParcelLine, length: real, width: real)
    requires IsComplete(l) && One(l).length <= length && One(l).width <= width
    ensures LineVolume(l) <= Times(Times(length, width), One(l).height)
  {
    var s, n := SidesOf(l), Pieces(l.qty) as real;
    SortKeepsVolume(l.length.value, l.width.value, l.height.value);
    assert s.thin > 0.0;
    TimesPositive(n, s.thin);
    BaseGrows(s.long, s.mid, length, width);
    Regroup(n, Times(s.long, s.mid), s.thin);
    TimesMonotone(Times(s.long, s.mid), Times(length, width), Times(n, s.thin));
  }

  lemma BaseGrows(a: real, b: real, c: real, d: real)
    requires 0.0 <= a <= c && 0.0 <= b <= d
    ensures 0.0 <= Times(a, b) <= Times(c, d)
  {
    TimesMonotone(a, c, b);
    TimesMonotone(b, d, c);
    TimesMonotone(0.0, a, b);
  }

  lemma Regroup(n: real, base: real, thin: real)
    ensures Times(n, Times(base, thin)) == Times(base, Times(n, thin))
  {
  }

  lemma Round3Close(x: real)
    ensures Abs(Round3(x) - x) <= 0.0005
  {
    var n := (x * 1000.0 + 0.5).Floor;
    assert Round3(x) * 1000.0 == n as real;
  }

  lemma Round3IsWhole(x: real)
    ensures (Round3(x) * 1000.0).Floor as real == Round3(x) * 1000.0
  {
    assert Round3(x) * 1000.0 == (x * 1000.0 + 0.5).Floor as real;
  }

  lemma CartonIsRoomy(t: Sums, p: Parcel)
    requires NonNegative(t) && p == Boxed(t)
    ensures Times(Times(t.length, t.width), t.height) <= Times(Times(p.length as real, p.width as real), p.height as real)
  {
    BaseGrows(t.length, t.width, p.length as real, p.width as real);
    BaseGrows(Times(t.length, t.width), t.height, Times(p.length as real, p.width as real), p.height as real);
  }

  lemma VolumeFits(lines: seq<ParcelLine>)
    requires AllComplete(lines)
    ensures var t := Total(Parts(lines)); Volume(lines) <= Times(Times(t.length, t.width), t.height)
  {
    var t := Total(Parts(lines));
    var volumes := seq(|lines|, i requires 0 <= i < |lines| => LineVolume(lines[i]));
    forall i | 0 <= i < |lines| ensures volumes[i] <= Times(Times(t.length, t.width), Parts(lines)[i].height) {
      LineAdds(lines, i);
      LineTakesItsShare(lines[i], t.length, t.width);
    }
    StackHoldsVolumes(volumes, Parts(lines), Times(t.length, t.width));
  }

  /** Every piece fits the carton, the carton has room for all of them, and the weight is right to half a gram. */
  lemma ParcelHoldsItsContents(lines: seq<ParcelLine>)
    requires AllComplete(lines)
    ensures var p := ParcelOf(lines);
            && (forall i :: 0 <= i < |lines| ==> Fits(lines[i], p))
            && Volume(lines) <= Times(Times(p.length as real, p.width as real), p.height as real)
            && Abs(p.weight - Weight(lines)) <= 0.0005
  {
    var t := Total(Parts(lines));
    forall i | 0 <= i < |lines| ensures Fits(lines[i], ParcelOf(lines)) {
      LineAdds(lines, i);
    }
    PartsAreNonNegative(lines);
    TotalNonNegative(Parts(lines));
    VolumeFits(lines);
    CartonIsRoomy(t, Boxed(t));
    WeightsAddUp(seq(|lines|, i requires 0 <= i < |lines| => LineWeight(lines[i])), Parts(lines));
    Round3Close(t.weight);
  }

  // How large the carton is, exactly.

  /** The middle one of three lengths: no longer than the longer of any two, no shorter than the shorter. */
  predicate IsMiddle(m: real, a: real, b: real, c: real) {
    && m in {a, b, c}
    && (a <= m || b <= m) && (a <= m || c <= m) && (b <= m || c <= m)
    && (m <= a || m <= b) && (m <= a || m <= c) && (m <= b || m <= c)
  }

  predicate IsLongest(m: real, a: real, b: real, c: real) {
    m in {a, b, c} && a <= m && b <= m && c <= m
  }

  predicate IsThinnest(m: real, a: real, b: real, c: real) {
    m in {a, b, c} && m <= a && m <= b && m <= c
  }

  lemma SidesAre(l: ParcelLine)
    requires IsComplete(l)
    ensures var s, a, b, c := SidesOf(l), l.length.value, l.width.value, l.height.value;
            IsLongest(s.long, a, b, c) && IsMiddle(s.mid, a, b, c) && IsThinnest(s.thin, a, b, c)
  {
  }

  /** Pieces times their thinnest side, one line on top of the other. */
  function Stack(lines: seq<ParcelLine>): real
    requires AllComplete(lines)
  {
    Sum(seq(|lines|, i requires 0 <= i < |lines| => Times(Pieces(lines[i].qty) as real, SidesOf(lines[i]).thin)))
  }

  /** The sums are those of some line each: its longest side, its middle side, and the stack of all. */
  lemma {:induction false} TotalIsReached(parts: seq<Sums>)
    requires |parts| > 0 && AllNonNegative(parts)
    ensures exists i, j :: 0 <= i < |parts| && 0 <= j < |parts|
              && Total(parts).length == parts[i].length && Total(parts).width == parts[j].width
  {
    var n := |parts| - 1;
    if n > 0 {
      TotalIsReached(parts[..n]);
      var i, j :| 0 <= i < n && 0 <= j < n
        && Total(parts[..n]).length == parts[..n][i].length && Total(parts[..n]).width == parts[..n][j].width;
      var i' := if Total(parts).length == parts[n].length then n else i;
      var j' := if Total(parts).width == parts[n].width then n else j;
      assert Total(parts).length == parts[i'].length && Total(parts).width == parts[j'].width;
    } else {
      assert Total(parts).length == parts[0].length && Total(parts).width == parts[0].width;
    }
  }

  lemma {:induction false} StackAddsUp(heights: seq<real>, parts: seq<Sums>)
    requires |heights| == |parts| && forall i :: 0 <= i < |parts| ==> heights[i] == parts[i].height
    ensures Sum(heights) == Total(parts).height
  {
    if |parts| > 0 {
      StackAddsUp(heights[..|parts| - 1], parts[..|parts| - 1]);
    }
  }

  /**
   In whole centimetres, rounded up: as long as the longest piece, as wide as the widest, as tall as the stack; and
   the weight in whole grams.
   */
  lemma CartonIsNoLarger(lines: seq<ParcelLine>)
    requires lines != [] && AllComplete(lines)
    ensures var p := ParcelOf(lines);
            && (exists i :: 0 <= i < |lines| && SidesOf(lines[i]).long <= p.length as real < SidesOf(lines[i]).long + 1.0)
            && (exists j :: 0 <= j < |lines| && SidesOf(lines[j]).mid <= p.width as real < SidesOf(lines[j]).mid + 1.0)
            && Stack(lines) <= p.height as real < Stack(lines) + 1.0
            && (p.weight * 1000.0).Floor as real == p.weight * 1000.0
  {
    Round3IsWhole(Total(Parts(lines)).weight);
    var parts := Parts(lines);
    PartsAreNonNegative(lines);
    TotalIsReached(parts);
    StackAddsUp(seq(|lines|, i requires 0 <= i < |lines| => Times(Pieces(lines[i].qty) as real, SidesOf(lines[i]).thin)), parts);
    var i, j :| 0 <= i < |parts| && 0 <= j < |parts|
      && Total(parts).length == parts[i].length && Total(parts).width == parts[j].width;
    assert parts[i] == One(lines[i]) && parts[j] == One(lines[j]);
  }

  // More never ships as less.

  predicate NoLarger(a: Parcel, b: Parcel) {
    a.weight <= b.weight && a.length <= b.length && a.width <= b.width && a.height <= b.height
  }

  predicate Below(a: Sums, b: Sums) {
    a.weight <= b.weight && a.length <= b.length && a.width <= b.width && a.height <= b.height
  }

  lemma BoxedIsMonotone(a: Sums, b: Sums)
    requires Below(a, b)
    ensures NoLarger(Boxed(a), Boxed(b))
  {
    assert (a.weight * 1000.0 + 0.5).Floor <= (b.weight * 1000.0 + 0.5).Floor;
  }

  /** A line more, wherever it is put, shrinks nothing. */
  lemma AddingALine(lines: seq<ParcelLine>, i: nat)
    requires AllComplete(lines) && i < |lines|
    ensures AllComplete(Without(lines, i))
    ensures NoLarger(ParcelOf(Without(lines, i)), ParcelOf(lines))
  {
    LineAdds(lines, i);
    OneIsPositive(lines[i]);
    BoxedIsMonotone(Total(Parts(Without(lines, i))), Total(Parts(lines)));
  }

  lemma PiecesGrow(q: real, r: real)
    requires q <= r
    ensures Pieces(q) <= Pieces(r)
  {
  }

  lemma OneGrows(l: ParcelLine, qty: real)
    requires IsComplete(l) && l.qty <= qty
    ensures Below(One(l), One(l.(qty := qty)))
  {
    assert SidesOf(l).thin > 0.0;
    PiecesGrow(l.qty, qty);
    TimesMonotone(Pieces(l.qty) as real, Pieces(qty) as real, l.weight.value);
    TimesMonotone(Pieces(l.qty) as real, Pieces(qty) as real, SidesOf(l).thin);
  }

  /** A higher quantity of one line shrinks nothing. */
  lemma RaisingAQuantity(lines: seq<ParcelLine>, i: nat, qty: real)
    requires AllComplete(lines) && i < |lines| && lines[i].qty <= qty
    ensures var more := lines[i := lines[i].(qty := qty)];
            AllComplete(more) && NoLarger(ParcelOf(lines), ParcelOf(more))
  {
    var more := lines[i := lines[i].(qty := qty)];
    assert Without(more, i) == Without(lines, i);
    LineAdds(lines, i);
    LineAdds(more, i);
    OneGrows(lines[i], qty);
    BoxedIsMonotone(Total(Parts(lines)), Total(Parts(more)));
  }

  /** Pieces of two parts of a line: never fewer than of the whole, and as many when one part is whole. */
  lemma SplitPieces(q: real, r: real)
    requires q > 0.0 && r > 0.0
    ensures Pieces(q + r) <= Pieces(q) + Pieces(r)
    ensures q == Ceil(q) as real ==> Pieces(q + r) == Pieces(q) + Pieces(r)
  {
  }

  lemma SplitOne(l: ParcelLine, q: real, r: real)
    requires IsComplete(l) && q > 0.0 && r > 0.0 && l.qty == q + r
    ensures var both := Join(One(l.(qty := r)), One(l.(qty := q)));
            Below(One(l), both) && (q == Ceil(q) as real ==> One(l) == both)
  {
    SplitPieces(q, r);
    assert SidesOf(l).thin > 0.0;
    var m, n := Pieces(q) as real, Pieces(r) as real;
    TimesDistributes(n, m, l.weight.value);
    TimesDistributes(n, m, SidesOf(l).thin);
    TimesMonotone(Pieces(q + r) as real, n + m, l.weight.value);
    TimesMonotone(Pieces(q + r) as real, n + m, SidesOf(l).thin);
  }

  /** The lines with line `i` written as two of the same product. */
  function Split(lines: seq<ParcelLine>, i: nat, q: real, r: real): seq<ParcelLine>
    requires i < |lines|
  {
    lines[..i] + [lines[i].(qty := q), lines[i].(qty := r)] + lines[i + 1..]
  }

  /** Taking the two halves out again, first one and then the other. */
  lemma SplitShape(lines: seq<ParcelLine>, i: nat, q: real, r: real)
    requires i < |lines|
    ensures var two := Split(lines, i, q, r);
            && |two| == |lines| + 1 && two[i] == lines[i].(qty := q)
            && Without(two, i)[i] == lines[i].(qty := r)
            && Without(Without(two, i), i) == Without(lines, i)
  {
  }

  lemma SplitIsComplete(lines: seq<ParcelLine>, i: nat, q: real, r: real)
    requires AllComplete(lines) && i < |lines|
    ensures AllComplete(Split(lines, i, q, r))
  {
    var two := Split(lines, i, q, r);
    forall k | 0 <= k < |two| ensures IsComplete(two[k]) {
      assert IsComplete(lines[if k <= i then k else k - 1]);
    }
  }

  lemma SplitTotal(lines: seq<ParcelLine>, i: nat, q: real, r: real)
    requires AllComplete(lines) && i < |lines|
    ensures AllComplete(Split(lines, i, q, r)) && AllComplete(Without(lines, i))
    ensures Total(Parts(Split(lines, i, q, r)))
            == Join(Join(Total(Parts(Without(lines, i))), One(lines[i].(qty := r))), One(lines[i].(qty := q)))
  {
    SplitIsComplete(lines, i, q, r);
    SplitShape(lines, i, q, r);
    LineAdds(Split(lines, i, q, r), i);
    LineAdds(Without(Split(lines, i, q, r), i), i);
  }

  /**
   One line written as two with the same product: the parcel never shrinks, and it stays the same when one
   of the two quantities is whole.
   */
  lemma SplittingALine(lines: seq<ParcelLine>, i: nat, q: real, r: real)
    requires AllComplete(lines) && i < |lines| && q > 0.0 && r > 0.0 && lines[i].qty == q + r
    ensures AllComplete(Split(lines, i, q, r)) && NoLarger(ParcelOf(lines), ParcelOf(Split(lines, i, q, r)))
    ensures q == Ceil(q) as real ==> ParcelOf(Split(lines, i, q, r)) == ParcelOf(lines)
  {
    SplitTotal(lines, i, q, r);
    LineAdds(lines, i);
    SplitOne(lines[i], q, r);
    JoinTwice(Total(Parts(Without(lines, i))), One(lines[i]), One(lines[i].(qty := r)), One(lines[i].(qty := q)));
    BoxedIsMonotone(Total(Parts(lines)), Total(Parts(Split(lines, i, q, r))));
  }

  lemma JoinTwice(rest: Sums, whole: Sums, x: Sums, y: Sums)
    requires Below(whole, Join(x, y))
    ensures Below(Join(rest, whole), Join(Join(rest, x), y))
    ensures whole == Join(x, y) ==> Join(rest, whole) == Join(Join(rest, x), y)
  {
  }
}
