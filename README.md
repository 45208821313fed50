# cs4732-proj1 core: quaternions and the keyframe reader, in Dafny

This project models two parts of a small rigid-body animation program:

- **The `Quaternion` class** (`proj1/quaternion.py`). Its constructor has two accepted forms, checked by asserts. It has `x`/`y`/`z` properties whose setters write through to the stored QVector3D. Its operators are addition, subtraction, multiplication by a number and by a quaternion, conjugate, squared norm, reciprocal and division.
- **The keyframe file reader `read_spec` and the spline containers** (`proj1/spline.py`).

## Layout

- `outcomes.dfy` (`Outcomes`): `Option`, and `Result`, which is either a value or the Python exception raised (`PyError`).
- `vectors.dfy` (`Vectors`): QVector3D as a value `Vec3` with the operations the quaternion code uses.
- `quaternion.dfy` (`Quaternions`): the quaternion as a value `Quat(s, v)`, and every operator as a function.
  - Lemmas state the algebra the code relies on: unit, associativity, conjugate laws, the norm identities, inverse and division.
  - The constructor's acceptance rule is `Construct`. Python arguments are classified as a number, a vector, `None` or another object.
- `real_arith.dfy` (`RealArith`): polynomial identities over plain reals. The quaternion lemmas hand their arithmetic to these.
- `quaternion_objects.dfy` (`QuaternionObjects`): the mutable side, as classes.
  - `Vector3` is a QVector3D object with in-place setters.
  - `Quaternion` holds a reference to one. `FromVector` stores the vector it is given, not a copy.
  - The `x`/`y`/`z` setters change exactly one coordinate of that shared vector.
- `text.dfy` (`Text`): the string operations `read_spec` needs.
  - `str.strip()`, with Python's whitespace set.
  - `str.split(', ')`, with its uniqueness and its round trip with `', '.join`.
  - `int(...)` and `float(...)` over a decimal grammar, with the round trip `int(str(n)) == n`. They skip a narrower whitespace set than `strip()`: the ASCII separators U+001C to U+001F are whitespace to `strip()` but are rejected by `int` and `float`, so a data line made of such a separator and a number raises ValueError.
- `splines.dfy` (`Splines`): `Spline` stores its kind, its animation time and its control points unchanged. This is `Spline.__init__`, in which the subclass becomes the `kind` field. `PosAt` is the `pos_at` stub.
- `spec_reader.dfy` (`SpecReader`): `read_spec`.
  - `Parse` is the specification function over the lines of the file. `ReadSpec` is the method with the filter loop and the keyframe loop, and it is proved equal to `Parse`.
  - The lemmas say when a read succeeds, what it returns and which lines it never looks at.
  - The reading is written once, over a record of single-line conversions (`Conversions`). `Python` holds the conversions of the code: `int`, `float`, and the three-field split. The lemmas over `ReadData` hold for any conversions, and therefore for `Python`.

Exceptions are values:

| Python | Model |
|---|---|
| a failed `assert` | `Err(AssertionError)` |
| division of a number by zero | `Err(ZeroDivisionError)` |
| a malformed `int`/`float` token, or a wrong field count when unpacking | `Err(ValueError)` |
| `next` on an exhausted iterator | `Err(StopIteration)` |

`Quaternion.from_euler_angles` is called by `read_spec` but is not defined by the quaternion class. The reader therefore takes the conversion as a parameter that may raise. As the class stands, every call raises AttributeError. `MissingConversionReadsNoKeyframes` states what that means: a read can only succeed when the file has no keyframes.

Three behaviours of the code are easy to miss:

- Both `pos_at` methods return the origin. No curve is evaluated, so Catmull-Rom interpolation through the control points is not a property of the code.
- Quaternions are not immutable: the `x`/`y`/`z` setters update the stored vector in place, and that vector may be shared.
- Exactly one spline group is accepted. Any other count fails the assertion at `proj1/spline.py:21`.

## Model

| member | source | states |
|---|---|---|
| Quaternions.Construct | proj1/quaternion.py:10-20 | Construction succeeds exactly when `s` is a number and either `x` is a vector with `y` and `z` omitted, or `x`, `y`, `z` are all numbers. Every other combination raises AssertionError. On success it stores `s`, and either the given vector or `(x, y, z)`. |
| Quaternions.DefaultConstructionFails | proj1/quaternion.py:10-20 | `Quaternion()` with its own defaults raises AssertionError, because `x = 0` is not a vector. `Quaternion(1, 0, 0, 0)` is the identity. |
| Quaternions.OperatorsPassConstructor | proj1/quaternion.py:46-62 | Each operator's result is what the constructor builds from a number and a vector, so no operator can fail the constructor's asserts. |
| Quaternions.Add | proj1/quaternion.py:46-47 | Definition of `q + r`, componentwise. Its properties: `AddSubRoundTrip`, `OperatorsPassConstructor`. |
| Quaternions.Sub | proj1/quaternion.py:49-50 | Definition of `q - r`, componentwise. Its properties: `AddSubRoundTrip`, `OperatorsPassConstructor`. |
| Quaternions.Scale | proj1/quaternion.py:52-54 | Definition of `q * k` for a number `k`. Its properties: `ScaleDivRoundTrip`, `DivScalar`, `OperatorsPassConstructor`. |
| Quaternions.Mul | proj1/quaternion.py:55-58 | Definition of the Hamilton product `q * r`. Its properties: `IdentityIsUnit`, `MulAssociative`, `MulConjugate`, `ConjugateOfProduct`, `NormSqMultiplicative`, `ReciprocalIsInverse`. |
| Quaternions.Conjugate | proj1/quaternion.py:60-62 | Definition of `q.conjugate`. Its properties: `ConjugateInvolution`, `ConjugateOfProduct`, `ConjugateKeepsNormSq`, `MulConjugate`. |
| Quaternions.NormSq | proj1/quaternion.py:64-66 | Definition of `q.normsq`. Its properties: `NormSqSign`, `ConjugateKeepsNormSq`, `NormSqMultiplicative`, `MulConjugate`. |
| Quaternions.AddSubRoundTrip | proj1/quaternion.py:46-50 | `(q + r) - r == q` and `(q - r) + r == q`. |
| Quaternions.ScaleDivRoundTrip | proj1/quaternion.py:52-54 | For a non-zero number `k`, `(q * k) / k == q`. |
| Quaternions.DivScalar | proj1/quaternion.py:76-78 | `q / k` raises ZeroDivisionError exactly when `k == 0`. Otherwise its result times `k` is `q`. |
| Quaternions.IdentityIsUnit | proj1/quaternion.py:55-58 | `(1, 0, 0, 0)` is a two-sided unit of the Hamilton product. |
| Quaternions.MulAssociative | proj1/quaternion.py:55-58 | The Hamilton product is associative. |
| Quaternions.MulConjugate | proj1/quaternion.py:52-66 | `q * q.conjugate` and `q.conjugate * q` are both the real quaternion `(q.normsq, 0, 0, 0)`. |
| Quaternions.ConjugateInvolution | proj1/quaternion.py:60-62 | `q.conjugate.conjugate == q`. |
| Quaternions.ConjugateOfProduct | proj1/quaternion.py:52-62 | `(q * r).conjugate == r.conjugate * q.conjugate`. |
| Quaternions.NormSqSign | proj1/quaternion.py:64-66 | `normsq` is never negative, and it is positive exactly for the non-zero quaternions. |
| Quaternions.ConjugateKeepsNormSq | proj1/quaternion.py:60-66 | `q.conjugate.normsq == q.normsq`. |
| Quaternions.NormSqMultiplicative | proj1/quaternion.py:52-66 | `(q * r).normsq == q.normsq * r.normsq` (the four-square identity). |
| Quaternions.Reciprocal | proj1/quaternion.py:72-74 | `q.reciprocal` raises ZeroDivisionError exactly for the zero quaternion. |
| Quaternions.ReciprocalIsInverse | proj1/quaternion.py:72-74 | For a non-zero `q`, `q * q.reciprocal` and `q.reciprocal * q` are both the identity. |
| Quaternions.Div | proj1/quaternion.py:76-80 | `q / r` for a quaternion `r` raises ZeroDivisionError exactly when `r` is zero. Otherwise it is `q * r.reciprocal`. |
| Quaternions.DivUndoesMul | proj1/quaternion.py:76-80 | For a non-zero `r`, `(q * r) / r == q` and `(q / r) * r == q`. |
| QuaternionObjects.Quaternion.FromVector | proj1/quaternion.py:13-15 | The vector object passed in becomes the vector part itself, not a copy. The value agrees with `Construct`. |
| QuaternionObjects.Quaternion.FromComponents | proj1/quaternion.py:16-20 | A new vector object is made from the three numbers. The value agrees with `Construct`. |
| QuaternionObjects.Quaternion.X | proj1/quaternion.py:22-24 | The `x` property is the first coordinate of the stored vector. |
| QuaternionObjects.Quaternion.Y | proj1/quaternion.py:30-32 | The `y` property is the second coordinate of the stored vector. |
| QuaternionObjects.Quaternion.Z | proj1/quaternion.py:38-40 | The `z` property is the third coordinate of the stored vector. |
| QuaternionObjects.Quaternion.SetX | proj1/quaternion.py:26-28 | Only the stored vector changes, and only its first coordinate. `s` and the other two coordinates keep their values. |
| QuaternionObjects.Quaternion.SetY | proj1/quaternion.py:34-36 | Only the stored vector changes, and only its second coordinate. |
| QuaternionObjects.Quaternion.SetZ | proj1/quaternion.py:42-44 | Only the stored vector changes, and only its third coordinate. |
| QuaternionObjects.SharedVector | proj1/quaternion.py:13-28 | Two quaternions built on one vector share it. Setting `x` through one is seen by the other, and each keeps its own `s`. |
| Splines.PosAt | proj1/spline.py:50-58 | Both `pos_at` stubs return the origin for every spline and every `t`. |
| Text.StripLeft | proj1/spline.py:11 | The leading part of stripping, for a given whitespace set: a suffix of the input with only whitespace removed before it, and no whitespace at its start. |
| Text.StripRight | proj1/spline.py:11 | The trailing part of stripping, for a given whitespace set: a prefix of the input with only whitespace removed after it, and no whitespace at its end. |
| Text.StripStart | proj1/spline.py:11-13 | A stripped line is empty exactly when the line is all whitespace. Otherwise it starts with the line's first non-whitespace character. |
| Text.Split | proj1/spline.py:28 | `split(', ')` gives at least one piece. The pieces join back into the input with `', '`, and no piece holds the separator. |
| Text.SplitUnique | proj1/spline.py:28 | Any separator-free pieces that join into `s` are exactly `s.split(', ')`. |
| Text.SplitJoin | proj1/spline.py:28 | Splitting a join of separator-free pieces gives the pieces back. |
| Text.Strip | proj1/spline.py:11 | Definition of `line.strip()` as `rstrip` after `lstrip` over Python's whitespace set. Its properties: `StripLeft`, `StripRight`, `StripStart`. |
| Text.StripNumber | proj1/spline.py:20-24 | Definition of the whitespace `int(token)` and `float(token)` skip around a token: Python's whitespace set without U+001C to U+001F. Its properties: `StripLeft`, `StripRight`, `SeparatorIsNotNumberSpace`. |
| Text.ParseInt | proj1/spline.py:20-23 | Definition of `int(token)` over a decimal grammar after `StripNumber`, `None` for ValueError. Its properties: `IntTokenIsRealToken`, `ParseShowInt`. |
| Text.ParseReal | proj1/spline.py:24 | Definition of `float(token)` over a decimal grammar after `StripNumber`, `None` for ValueError; also applied to each field at lines 28 and 32. Its properties: `IntTokenIsRealToken`, `ParseRealShowInt`, `TripleOfFields`. |
| Text.SeparatorIsNotNumberSpace | proj1/spline.py:11-24 | `"\x1c1".strip()` is `"1"`, so the line is a data line, yet `int` and `float` both raise ValueError on it. |
| Text.NumberRejected | proj1/spline.py:20-24 | A token with no skippable whitespace at its ends that starts with anything other than a sign, a digit or `.` raises ValueError in both `int` and `float`. |
| Text.IntTokenIsRealToken | proj1/spline.py:23-24 | Every token `int()` accepts is accepted by `float()` with the same value. |
| Text.ParseShowInt | proj1/spline.py:20 | `int(str(n)) == n` for every integer (see the digit limit under Left out). |
| Text.ParseRealShowInt | proj1/spline.py:24 | `float(str(n)) == n` for every integer. |
| SpecReader.Keep | proj1/spline.py:10-16 | Definition of `filter_lines`. Its property: `KeepIff`. |
| SpecReader.Filter | proj1/spline.py:17 | `filter(keep, lines)` keeps at most the given lines, and every line it keeps is accepted by `keep`. Further properties: `FilterAppend`, `FilterAllKept`, `FilterIdempotent`, `FilterNoneKept`. |
| SpecReader.DataLines | proj1/spline.py:17 | Definition of `data_lines` as `Filter(Keep, lines)`. Its properties: `SkippedLinesIgnored`, `FilterLines`. |
| SpecReader.Triple | proj1/spline.py:28 | Definition of `map(float, line.split(', '))` unpacked into three names, `None` for ValueError; also used at line 32. Its properties: `TripleOfFields`, `TripleOfShownInts`. |
| SpecReader.ReadPair | proj1/spline.py:28-34 | Definition of one keyframe read: position line, rotation line, Euler conversion, with the first exception in that order. Its properties: `ReadPairOkIff`, `ReadPairsContents`. |
| SpecReader.ReadPairs | proj1/spline.py:27-34 | Definition of the keyframe loop as a recursion over the first `k` keyframes. Its properties: `ReadPairsOkIff`, `ReadPairsContents`, `ReadPairsPrefix`, `ErrorPersists`, `ReadKeyframes`. |
| SpecReader.ReadData | proj1/spline.py:20-40 | Definition of the reading of the data lines, for any single-line conversions. Its properties: `ReadDataOkIff`, `ReadDataShape`, `ReadDataPrefix`, `GroupCountMustBeOne`. |
| SpecReader.Parse | proj1/spline.py:8-40 | Definition of `read_spec` on a file's lines, with the conversions of the Python code. Its properties: `ReadSpec`, `ParseOkIff`, `TrailingLinesIgnored`, `SkippedLinesIgnored`, `MissingConversionReadsNoKeyframes`. |
| SpecReader.KeepIff | proj1/spline.py:10-16 | A line is kept exactly when its first non-whitespace character exists and is not `#`. |
| SpecReader.FilterAppend | proj1/spline.py:17 | Filtering a concatenation filters each part: kept lines keep their file order. |
| SpecReader.FilterAllKept | proj1/spline.py:17 | Lines that are all accepted pass through unchanged. |
| SpecReader.FilterIdempotent | proj1/spline.py:17 | Filtering the data lines again drops nothing. |
| SpecReader.FilterLines | proj1/spline.py:17 | The loop collects exactly the filtered lines, in order. |
| SpecReader.ReadKeyframes | proj1/spline.py:25-34 | The keyframe loop returns what `ReadPairs` specifies, including the first exception raised. |
| SpecReader.ErrorPersists | proj1/spline.py:27-34 | Once a keyframe raises, every longer read raises the same exception. |
| SpecReader.BuildSplines | proj1/spline.py:36-38 | The spline loop gives a Catmull-Rom spline, then a uniform B-spline, over the same time and points. |
| SpecReader.ReadSpec | proj1/spline.py:8-40 | The method returns exactly `Parse(lines)`: the value or the exception of `read_spec`. |
| SpecReader.ReadPairOkIff | proj1/spline.py:28-34 | A keyframe reads exactly when both its lines exist, each holds three numbers, and its angles convert. It yields the position and the converted rotation. |
| SpecReader.ReadPairsOkIff | proj1/spline.py:27-34 | The first `k` keyframes read exactly when each of them is well formed. |
| SpecReader.ReadPairsContents | proj1/spline.py:25-34 | `k` keyframes give `k` points and `k` rotations. Entry `i` of each comes from the `i`-th pair of lines. |
| SpecReader.ReadPairsPrefix | proj1/spline.py:27-34 | Once the lines of the first `k` keyframes are present, reading `k` keyframes looks at no data line after them: appending lines changes neither the value nor the exception raised. |
| SpecReader.ReadDataOkIff | proj1/spline.py:20-34 | Reading succeeds exactly when the group count is 1, the keyframe count and the time are numbers, and every keyframe is well formed. |
| SpecReader.ReadDataShape | proj1/spline.py:20-40 | On success the result has two splines, Catmull-Rom then uniform B, with the parsed time and the same points. There is one point and one rotation per keyframe, and none for a negative count. Point `i` comes from data line `3+2i`, rotation `i` from data line `4+2i`. |
| SpecReader.ReadDataPrefix | proj1/spline.py:20-40 | Once the data lines hold the three header lines and, when the keyframe count is a number, the lines of every keyframe, appending data lines changes neither the value nor the exception raised. |
| SpecReader.SuccessHoldsAllLines | proj1/spline.py:20-34 | A successful read found the three header lines and both lines of every keyframe. |
| SpecReader.ParseOkIff | proj1/spline.py:8-40 | `read_spec` returns normally exactly when the file's data lines are well formed. |
| SpecReader.GroupCountMustBeOne | proj1/spline.py:20-21 | A first data line holding a number other than 1 raises AssertionError. |
| SpecReader.TrailingLinesIgnored | proj1/spline.py:17-40 | Lines appended after all the data lines `read_spec` could ask for do not change the result, whether the read succeeds or raises (for example the AttributeError at line 33). |
| SpecReader.SkippedLinesIgnored | proj1/spline.py:10-17 | Blank and comment lines inserted anywhere do not change the result. |
| SpecReader.FilterNoneKept | proj1/spline.py:17 | Lines none of which are accepted filter to nothing. |
| SpecReader.MissingConversionReadsNoKeyframes | proj1/spline.py:32-33 | When every Euler conversion raises AttributeError, a successful read has no points and no rotations. |
| SpecReader.TripleOfFields | proj1/spline.py:28 | A line that splits into three numeric fields reads as those three numbers. |
| SpecReader.TripleOfShownInts | proj1/spline.py:28 | A line `"x, y, z"` written from three integers reads back as those integers. |

## Left out

- `Quaternion.norm` (`proj1/quaternion.py:68-70`) takes a floating-point square root. It is not modelled; `normsq` is.
- Floating point. QVector3D stores single-precision floats and Python uses doubles. All arithmetic here is exact over `real`, so no rounding behaviour is claimed.
- Quaternions.Construct: the `numbers.Number` test is abstracted to a classification of each argument as a real number, a vector, `None` or another object. Complex numbers, booleans and other numeric types are not distinguished.
- Operators applied to operands other than numbers and quaternions are not modelled. The AttributeError they raise is not modelled either.
- `Quaternion.from_euler_angles` is not defined in the quaternion class. It is a parameter of the reader, with no properties on its result.
- The `open()` call and the file object. The reader works on the sequence of lines the file iterator would yield.
- Text.ParseInt and Text.ParseReal accept a decimal grammar. They cover surrounding whitespace, a sign, ASCII digits and at most one `.` (for `float`). Underscores, exponents, `inf`/`nan` and non-ASCII digits, which Python also accepts, are not modelled.
- Text.ParseShowInt and Text.ParseRealShowInt: Python 3.11 and later refuse `int()`/`str()` conversions of more than 4300 digits by default. The model has no such limit, so "for every integer" holds for the decimal grammar, not for those Python versions beyond that size.
- `filter` is lazy in Python and eager in the model. `filter_lines` cannot raise, so both give the same lines in the same order.
- The outer `for _ in range(num_splines)` is not a loop in the model. The count is asserted to be 1 and the body returns, so it runs exactly once.
- `Spline.__repr__` is display formatting only.
- `proj1/animation.py` and `proj1/__main__.py` are not part of this model. They are the Qt window, scene and timer set-up, and the application start-up.
- QVector3D itself is modelled only by the operations the core uses. The objects side (`QuaternionObjects.Vector3`) has just the coordinate setters.
