/**
 * `read_spec`: the keyframe file reader. The file is given as the sequence
 * of its lines, each with its line terminator, as iterating over an open
 * file yields them. Blank lines and `#` comment lines are dropped; of the
 * remaining data lines the first is the spline-group count (which must be
 * 1), the next the number of keyframes, the next the animation time, and
 * then each keyframe takes a position line and a rotation line, both
 * `"a, b, c"`. The result is a Catmull-Rom spline and a uniform B-spline
 * over the same points, and the list of keyframe rotations.
 *
 * `Quaternion.from_euler_angles` is not defined by the quaternion class;
 * the reader takes the conversion as a parameter, which may fail.
 */
module SpecReader {
  import opened Outcomes
  import opened Text
  import V = Vectors
  import Q = Quaternions
  import opened Splines

  /** The value `read_spec` returns: `(splines, rotations)`. */
  datatype Spec = Spec(splines: seq<Spline>, rotations: seq<Q.Quat>)

  /** `Quaternion.from_euler_angles(x_rot, y_rot, z_rot)`. */
  type EulerConversion = (real, real, real) -> Result<Q.Quat>

  // ---------------------------------------------------------------------
  // Selecting the data lines

  /** `filter_lines(line)`: the stripped line is not empty and does not start with `#`. */
  predicate Keep(line: String) {
    var t := Strip(line);
    |t| > 0 && t[0] != '#'
  }

  /** A line is kept exactly when its first non-whitespace character exists and is not `#`. */
  lemma KeepIff(line: String)
    ensures Keep(line) <==> exists i :: FirstNonSpace(line, i) && line[i] != '#'
  {
    StripStart(line);
    if i :| FirstNonSpace(line, i) && line[i] != '#' {
      assert !IsSpace(line[i]);
      var k :| 0 <= k < |line| && FirstNonSpace(line, k) && Strip(line)[0] == line[k];
      FirstNonSpaceUnique(line, i, k);
    }
  }

  lemma FirstNonSpaceUnique(s: String, i: int, k: int)
    requires FirstNonSpace(s, i) && FirstNonSpace(s, k)
    ensures i == k
  {
  }

  /** `filter(keep, lines)`: the lines `keep` accepts, in their order. */
  function Filter(keep: String -> bool, lines: seq<String>): (kept: seq<String>)
    ensures |kept| <= |lines|
    ensures forall k :: 0 <= k < |kept| ==> keep(kept[k])
  {
    if |lines| == 0 then []
    else
      var last := lines[|lines| - 1];
      Filter(keep, lines[..|lines| - 1]) + (if keep(last) then [last] else [])
  }

  /** Filtering distributes over concatenation: lines keep their relative order. */
  lemma {:induction false} FilterAppend(keep: String -> bool, a: seq<String>, b: seq<String>)
    ensures Filter(keep, a + b) == Filter(keep, a) + Filter(keep, b)
  {
    if |b| > 0 {
      var b' := b[..|b| - 1];
      assert (a + b)[..|a + b| - 1] == a + b';
      FilterAppend(keep, a, b');
    } else {
      assert a + b == a;
    }
  }

  /** Lines that are all accepted pass through unchanged. */
  lemma {:induction false} FilterAllKept(keep: String -> bool, lines: seq<String>)
    requires forall k :: 0 <= k < |lines| ==> keep(lines[k])
    ensures Filter(keep, lines) == lines
  {
    if |lines| > 0 {
      FilterAllKept(keep, lines[..|lines| - 1]);
    }
  }

  /** Filtering twice drops nothing more. */
  lemma FilterIdempotent(keep: String -> bool, lines: seq<String>)
    ensures Filter(keep, Filter(keep, lines)) == Filter(keep, lines)
  {
    FilterAllKept(keep, Filter(keep, lines));
  }

  /** `filter(filter_lines, f)`: the data lines of the file. */
  function DataLines(lines: seq<String>): seq<String> {
    Filter(Keep, lines)
  }

  // ---------------------------------------------------------------------
  // Reading the data lines

  /**
   * `x, y, z = map(float, line.split(', '))`: exactly three fields, each a
   * number. `None` stands for the ValueError of a bad field or a wrong count.
   */
  function Triple(line: String): Option<V.Vec3> {
    var fields := Split(line);
    if |fields| != 3 then None
    else
      match (ParseReal(fields[0]), ParseReal(fields[1]), ParseReal(fields[2]))
      case (Some(x), Some(y), Some(z)) => Some(V.Vec3(x, y, z))
      case _ => None
  }

  /** A conversion of one data line into three numbers, `None` when it raises ValueError. */
  type LineReader = String -> Option<V.Vec3>

  /** `for _ in range(n)` runs `n` times, and not at all for a negative `n`. */
  function KeyframeCount(n: int): nat {
    if n < 0 then 0 else n
  }

  /** Data line index of the position line of keyframe `i`; its rotation line follows it. */
  function PositionLine(i: nat): nat {
    3 + 2 * i
  }

  /**
   * The keyframe `i`: its position line, then its rotation line, in that
   * order of reading. `triple` converts one line into three numbers; the
   * reader uses `Triple`.
   */
  function ReadPair(data: seq<String>, i: nat, triple: LineReader, fromEuler: EulerConversion): Result<(V.Vec3, Q.Quat)> {
    var at := PositionLine(i);
    if at >= |data| then Err(StopIteration)
    else match triple(data[at])
      case None => Err(ValueError)
      case Some(pt) =>
        if at + 1 >= |data| then Err(StopIteration)
        else match triple(data[at + 1])
          case None => Err(ValueError)
          case Some(angles) =>
            match fromEuler(angles.x, angles.y, angles.z)
            case Err(e) => Err(e)
            case Ok(rot) => Ok((pt, rot))
  }

  /** The first `k` keyframes, as the parallel lists `ctrl_pts` and `rotations`. */
  function ReadPairs(data: seq<String>, k: nat, triple: LineReader, fromEuler: EulerConversion): Result<(seq<V.Vec3>, seq<Q.Quat>)> {
    if k == 0 then Ok(([], []))
    else match ReadPairs(data, k - 1, triple, fromEuler)
      case Err(e) => Err(e)
      case Ok((pts, rots)) =>
        match ReadPair(data, k - 1, triple, fromEuler)
        case Err(e) => Err(e)
        case Ok((pt, rot)) => Ok((pts + [pt], rots + [rot]))
  }

  /**
   * The conversions `read_spec` applies to single data lines: `int(...)`,
   * `float(...)`, and a line's three comma-separated numbers.
   */
  datatype Conversions = Conversions(toInt: String -> Option<int>, toReal: String -> Option<real>, toTriple: LineReader)

  /** The conversions of the Python code. */
  const Python: Conversions := Conversions(ParseInt, ParseReal, Triple)

  /**
   * The reading of the data lines, for any conversions of single lines:
   * group count, keyframe count, animation time, then the keyframes.
   */
  function ReadData(data: seq<String>, conv: Conversions, fromEuler: EulerConversion): Result<Spec> {
    if |data| < 1 then Err(StopIteration)
    else match conv.toInt(data[0])
      case None => Err(ValueError)
      case Some(groups) =>
        if groups != 1 then Err(AssertionError)
        else if |data| < 2 then Err(StopIteration)
        else match conv.toInt(data[1])
          case None => Err(ValueError)
          case Some(count) =>
            if |data| < 3 then Err(StopIteration)
            else match conv.toReal(data[2])
              case None => Err(ValueError)
              case Some(aniTime) =>
                match ReadPairs(data, KeyframeCount(count), conv.toTriple, fromEuler)
                case Err(e) => Err(e)
                case Ok((pts, rots)) =>
                  Ok(Spec([Spline(CatmullRom, aniTime, pts), Spline(UniformB, aniTime, pts)], rots))
  }

  /** `read_spec` on a file with the given lines. */
  function Parse(lines: seq<String>, fromEuler: EulerConversion): Result<Spec> {
    ReadData(DataLines(lines), Python, fromEuler)
  }

  // ---------------------------------------------------------------------
  // `read_spec` as the loops it is written with

  /** `filter(keep, lines)`, drawn eagerly. */
  method FilterLines(keep: String -> bool, lines: seq<String>) returns (data: seq<String>)
    ensures data == Filter(keep, lines)
  {
    data := [];
    for i := 0 to |lines|
      invariant data == Filter(keep, lines[..i])
    {
      assert lines[..i + 1][..i] == lines[..i];
      if keep(lines[i]) {
        data := data + [lines[i]];
      }
    }
    assert lines[..|lines|] == lines;
  }

  /**
   * The keyframe loop: `for _ in range(n)`, each round drawing a position
   * line and a rotation line from `data`, `next` being the index of the
   * line `next(data_lines)` returns.
   */
  method ReadKeyframes(data: seq<String>, n: nat, triple: LineReader, fromEuler: EulerConversion)
    returns (r: Result<(seq<V.Vec3>, seq<Q.Quat>)>)
    ensures r == ReadPairs(data, n, triple, fromEuler)
  {
    var next := PositionLine(0);
    var ctrlPts: seq<V.Vec3> := [];
    var rotations: seq<Q.Quat> := [];
    for k := 0 to n
      invariant next == PositionLine(k)
      invariant ReadPairs(data, k, triple, fromEuler) == Ok((ctrlPts, rotations))
    {
      if next >= |data| {
        ErrorPersists(data, k + 1, n, triple, fromEuler);
        return Err(StopIteration);
      }
      var pt := triple(data[next]);
      next := next + 1;
      if pt.None? {
        ErrorPersists(data, k + 1, n, triple, fromEuler);
        return Err(ValueError);
      }
      if next >= |data| {
        ErrorPersists(data, k + 1, n, triple, fromEuler);
        return Err(StopIteration);
      }
      var angles := triple(data[next]);
      next := next + 1;
      if angles.None? {
        ErrorPersists(data, k + 1, n, triple, fromEuler);
        return Err(ValueError);
      }
      var rot := fromEuler(angles.value.x, angles.value.y, angles.value.z);
      if rot.Err? {
        ErrorPersists(data, k + 1, n, triple, fromEuler);
        return Err(rot.error);
      }
      ctrlPts := ctrlPts + [pt.value];
      rotations := rotations + [rot.value];
    }
    return Ok((ctrlPts, rotations));
  }

  /** `for spline_type in (CatmullRomSpline, UniformBSpline)`: one spline of each kind over the same data. */
  method BuildSplines(aniTime: real, ctrlPts: seq<V.Vec3>) returns (splines: seq<Spline>)
    ensures splines == [Spline(CatmullRom, aniTime, ctrlPts), Spline(UniformB, aniTime, ctrlPts)]
  {
    var kinds := [CatmullRom, UniformB];
    splines := [];
    for j := 0 to |kinds|
      invariant splines == seq(j, m requires 0 <= m < j => Spline(kinds[m], aniTime, ctrlPts))
    {
      splines := splines + [Spline(kinds[j], aniTime, ctrlPts)];
    }
  }

  /** `read_spec(path)` on a file with the given lines. */
  method ReadSpec(lines: seq<String>, fromEuler: EulerConversion) returns (r: Result<Spec>)
    ensures r == Parse(lines, fromEuler)
  {
    var data := FilterLines(Keep, lines);
    if |data| < 1 {
      return Err(StopIteration);
    }
    var groups := ParseInt(data[0]);
    if groups.None? {
      return Err(ValueError);
    }
    if groups.value != 1 {
      return Err(AssertionError);
    }
    if |data| < 2 {
      return Err(StopIteration);
    }
    var count := ParseInt(data[1]);
    if count.None? {
      return Err(ValueError);
    }
    if |data| < 3 {
      return Err(StopIteration);
    }
    var aniTime := ParseReal(data[2]);
    if aniTime.None? {
      return Err(ValueError);
    }
    var keyframes := ReadKeyframes(data, KeyframeCount(count.value), Python.toTriple, fromEuler);
    if keyframes.Err? {
      return Err(keyframes.error);
    }
    var (ctrlPts, rotations) := keyframes.value;
    var splines := BuildSplines(aniTime.value, ctrlPts);
    return Ok(Spec(splines, rotations));
  }

  /** Once a keyframe fails, every longer run of keyframes fails with the same exception. */
  lemma {:induction false} ErrorPersists(data: seq<String>, k: nat, n: nat, triple: LineReader, fromEuler: EulerConversion)
    requires k <= n && ReadPairs(data, k, triple, fromEuler).Err?
    ensures ReadPairs(data, n, triple, fromEuler) == ReadPairs(data, k, triple, fromEuler)
    decreases n - k
  {
    if k < n {
      ErrorPersists(data, k, n - 1, triple, fromEuler);
    }
  }

  // ---------------------------------------------------------------------
  // What a successful read consists of

  /** Keyframe `i` has both lines, each with three numbers, and its angles convert. */
  predicate PairWellFormed(data: seq<String>, i: nat, triple: LineReader, fromEuler: EulerConversion) {
    var at := PositionLine(i);
    at + 1 < |data| && triple(data[at]).Some? && triple(data[at + 1]).Some? &&
    var angles := triple(data[at + 1]).value;
    fromEuler(angles.x, angles.y, angles.z).Ok?
  }

  /** The data lines make a whole specification. */
  predicate WellFormed(data: seq<String>, conv: Conversions, fromEuler: EulerConversion) {
    |data| >= 3 && conv.toInt(data[0]) == Some(1) && conv.toInt(data[1]).Some? && conv.toReal(data[2]).Some? &&
    forall i :: 0 <= i < KeyframeCount(conv.toInt(data[1]).value) ==> PairWellFormed(data, i, conv.toTriple, fromEuler)
  }

  lemma ReadPairOkIff(data: seq<String>, i: nat, triple: LineReader, fromEuler: EulerConversion)
    ensures ReadPair(data, i, triple, fromEuler).Ok? <==> PairWellFormed(data, i, triple, fromEuler)
    ensures ReadPair(data, i, triple, fromEuler).Ok? ==>
              var at := PositionLine(i);
              var angles := triple(data[at + 1]).value;
              ReadPair(data, i, triple, fromEuler).value ==
                (triple(data[at]).value, fromEuler(angles.x, angles.y, angles.z).value)
  {
  }

  /** The first `k` keyframes read exactly when each of them is well formed. */
  lemma {:induction false} ReadPairsOkIff(data: seq<String>, k: nat, triple: LineReader, fromEuler: EulerConversion)
    ensures ReadPairs(data, k, triple, fromEuler).Ok? <==>
              forall i :: 0 <= i < k ==> PairWellFormed(data, i, triple, fromEuler)
  {
    if k > 0 {
      ReadPairsOkIff(data, k - 1, triple, fromEuler);
      ReadPairOkIff(data, k - 1, triple, fromEuler);
    }
  }

  /**
   * A successful read of `k` keyframes gives `k` points and `k` rotations,
   * entry `i` of each from the `i`-th pair of lines.
   */
  lemma {:induction false} ReadPairsContents(data: seq<String>, k: nat, triple: LineReader, fromEuler: EulerConversion)
    requires ReadPairs(data, k, triple, fromEuler).Ok?
    ensures var (pts, rots) := ReadPairs(data, k, triple, fromEuler).value;
            |pts| == k && |rots| == k &&
            forall i :: 0 <= i < k ==> ReadPair(data, i, triple, fromEuler) == Ok((pts[i], rots[i]))
  {
    if k > 0 {
      ReadPairsContents(data, k - 1, triple, fromEuler);
    }
  }

  /**
   * Reading `k` keyframes looks at no data line past the last of them,
   * whether the read succeeds or raises: once the lines of the `k`
   * keyframes are all present, appending lines changes neither the value
   * nor the exception.
   */
  lemma {:induction false} ReadPairsPrefix(data: seq<String>, more: seq<String>, k: nat, triple: LineReader,
                                           fromEuler: EulerConversion)
    requires k == 0 || PositionLine(k) <= |data|
    ensures ReadPairs(data + more, k, triple, fromEuler) == ReadPairs(data, k, triple, fromEuler)
  {
    if k > 0 {
      ReadPairsPrefix(data, more, k - 1, triple, fromEuler);
      var at := PositionLine(k - 1);
      assert (data + more)[at] == data[at] && (data + more)[at + 1] == data[at + 1];
    }
  }

  /** The reading succeeds exactly when the data lines are well formed. */
  lemma ReadDataOkIff(data: seq<String>, conv: Conversions, fromEuler: EulerConversion)
    ensures ReadData(data, conv, fromEuler).Ok? <==> WellFormed(data, conv, fromEuler)
  {
    if |data| >= 3 && conv.toInt(data[1]).Some? {
      ReadPairsOkIff(data, KeyframeCount(conv.toInt(data[1]).value), conv.toTriple, fromEuler);
    }
  }

  /**
   * On success: a Catmull-Rom spline, then a uniform B-spline, both with the
   * animation time of the third data line and the same control points; one
   * point and one rotation per keyframe, and none for a negative count;
   * point `i` from data line `3 + 2i`, rotation `i` from the angles on data
   * line `4 + 2i`.
   */
  lemma ReadDataShape(data: seq<String>, conv: Conversions, fromEuler: EulerConversion)
    requires ReadData(data, conv, fromEuler).Ok?
    ensures var spec := ReadData(data, conv, fromEuler).value;
            var n := KeyframeCount(conv.toInt(data[1]).value);
            |spec.splines| == 2 &&
            spec.splines[0].kind == CatmullRom && spec.splines[1].kind == UniformB &&
            spec.splines[0].aniTime == conv.toReal(data[2]).value &&
            spec.splines[1].aniTime == conv.toReal(data[2]).value &&
            spec.splines[0].ctrlPts == spec.splines[1].ctrlPts &&
            |spec.splines[0].ctrlPts| == n && |spec.rotations| == n &&
            forall i :: 0 <= i < n ==>
              PairWellFormed(data, i, conv.toTriple, fromEuler) &&
              conv.toTriple(data[PositionLine(i)]) == Some(spec.splines[0].ctrlPts[i]) &&
              var angles := conv.toTriple(data[PositionLine(i) + 1]).value;
              fromEuler(angles.x, angles.y, angles.z) == Ok(spec.rotations[i])
  {
    var n := KeyframeCount(conv.toInt(data[1]).value);
    ReadPairsContents(data, n, conv.toTriple, fromEuler);
    forall i | 0 <= i < n {
      ReadPairOkIff(data, i, conv.toTriple, fromEuler);
    }
  }

  /**
   * The data lines hold every line the reading could ask for: the three
   * header lines and, once the keyframe count is a number, the position and
   * rotation lines of every keyframe.
   */
  predicate HoldsAllLines(data: seq<String>, conv: Conversions) {
    |data| >= 3 &&
    (conv.toInt(data[1]).Some? ==>
       var n := KeyframeCount(conv.toInt(data[1]).value);
       n == 0 || PositionLine(n) <= |data|)
  }

  /** A successful reading found every line it asked for. */
  lemma SuccessHoldsAllLines(data: seq<String>, conv: Conversions, fromEuler: EulerConversion)
    requires ReadData(data, conv, fromEuler).Ok?
    ensures HoldsAllLines(data, conv)
  {
    var n := KeyframeCount(conv.toInt(data[1]).value);
    if n > 0 {
      ReadPairsOkIff(data, n, conv.toTriple, fromEuler);
      assert PairWellFormed(data, n - 1, conv.toTriple, fromEuler);
    }
  }

  /**
   * Data lines after all the lines the reading could ask for are never
   * read, whether the read succeeds or raises.
   */
  lemma ReadDataPrefix(data: seq<String>, more: seq<String>, conv: Conversions, fromEuler: EulerConversion)
    requires HoldsAllLines(data, conv)
    ensures ReadData(data + more, conv, fromEuler) == ReadData(data, conv, fromEuler)
  {
    assert (data + more)[0] == data[0] && (data + more)[1] == data[1] && (data + more)[2] == data[2];
    if conv.toInt(data[1]).Some? {
      ReadPairsPrefix(data, more, KeyframeCount(conv.toInt(data[1]).value), conv.toTriple, fromEuler);
    }
  }

  /** `read_spec` returns normally exactly when the file's data lines are well formed. */
  lemma ParseOkIff(lines: seq<String>, fromEuler: EulerConversion)
    ensures Parse(lines, fromEuler).Ok? <==> WellFormed(DataLines(lines), Python, fromEuler)
  {
    ReadDataOkIff(DataLines(lines), Python, fromEuler);
  }

  /** A first data line that is a number other than 1 fails the group-count assertion. */
  lemma GroupCountMustBeOne(lines: seq<String>, fromEuler: EulerConversion)
    requires |DataLines(lines)| >= 1
    requires ParseInt(DataLines(lines)[0]).Some? && ParseInt(DataLines(lines)[0]).value != 1
    ensures Parse(lines, fromEuler) == Err(AssertionError)
  {
  }

  /**
   * Lines appended after all the data lines `read_spec` could ask for are
   * never read, whether the read succeeds or raises. A successful read
   * always has them (`SuccessHoldsAllLines`).
   */
  lemma TrailingLinesIgnored(lines: seq<String>, more: seq<String>, fromEuler: EulerConversion)
    requires HoldsAllLines(DataLines(lines), Python)
    ensures Parse(lines + more, fromEuler) == Parse(lines, fromEuler)
  {
    FilterAppend(Keep, lines, more);
    ReadDataPrefix(DataLines(lines), DataLines(more), Python, fromEuler);
  }

  /** Blank and comment lines can be inserted anywhere without changing the result. */
  lemma SkippedLinesIgnored(before: seq<String>, skipped: seq<String>, after: seq<String>, fromEuler: EulerConversion)
    requires forall k :: 0 <= k < |skipped| ==> !Keep(skipped[k])
    ensures Parse(before + skipped + after, fromEuler) == Parse(before + after, fromEuler)
  {
    FilterAppend(Keep, before + skipped, after);
    FilterAppend(Keep, before, skipped);
    FilterAppend(Keep, before, after);
    FilterNoneKept(Keep, skipped);
    assert Filter(Keep, before) + [] == Filter(Keep, before);
  }

  lemma {:induction false} FilterNoneKept(keep: String -> bool, lines: seq<String>)
    requires forall k :: 0 <= k < |lines| ==> !keep(lines[k])
    ensures Filter(keep, lines) == []
  {
    if |lines| > 0 {
      FilterNoneKept(keep, lines[..|lines| - 1]);
    }
  }

  /**
   * With the quaternion class as it stands, `from_euler_angles` is missing
   * and every conversion raises AttributeError: a read that succeeds has no
   * keyframes.
   */
  lemma MissingConversionReadsNoKeyframes(lines: seq<String>, fromEuler: EulerConversion)
    requires forall x: real, y: real, z: real :: fromEuler(x, y, z) == Err(AttributeError)
    requires Parse(lines, fromEuler).Ok?
    ensures Parse(lines, fromEuler).value.rotations == []
    ensures Parse(lines, fromEuler).value.splines[0].ctrlPts == []
  {
    var data := DataLines(lines);
    ReadDataShape(data, Python, fromEuler);
    ReadDataOkIff(data, Python, fromEuler);
    assert !PairWellFormed(data, 0, Python.toTriple, fromEuler);
  }

  /** A line that splits into three numeric fields reads as those three numbers. */
  lemma TripleOfFields(line: String, a: String, b: String, c: String)
    requires Split(line) == [a, b, c]
    requires ParseReal(a).Some? && ParseReal(b).Some? && ParseReal(c).Some?
    ensures Triple(line) == Some(V.Vec3(ParseReal(a).value, ParseReal(b).value, ParseReal(c).value))
  {
  }

  /** A line written as `"x, y, z"` from three integers reads back as those numbers. */
  lemma TripleOfShownInts(x: int, y: int, z: int)
    ensures Triple(ShowInt(x) + ", " + ShowInt(y) + ", " + ShowInt(z)) == Some(V.Vec3(x as real, y as real, z as real))
  {
    var a, b, c := ShowInt(x), ShowInt(y), ShowInt(z);
    var parts := [a, b, c];
    JoinSeveral(parts);
    JoinSeveral(parts[1..]);
    assert parts[1..][1..] == [c];
    assert Join(parts) == a + ", " + b + ", " + c;
    ShowIntHasNoSeparator(x);
    ShowIntHasNoSeparator(y);
    ShowIntHasNoSeparator(z);
    SplitJoin(parts);
    ParseRealShowInt(x);
    ParseRealShowInt(y);
    ParseRealShowInt(z);
    TripleOfFields(a + ", " + b + ", " + c, a, b, c);
  }
}
