/**
 * ScaleDetector: `isScaled` of src/components/draggable-floating-icon.tsx.
 *
 * It reads the element's computed transform, finds the first
 * `matrix(...)` in it with the pattern `matrix\(([\d.,\s-]+)\)`, splits the
 * captured arguments on ',' and compares the first and fourth numbers, read
 * with `parseFloat`, with 1. Each of those three JavaScript steps (the regular
 * expression search, `String.prototype.split` and `parseFloat`) is modelled
 * here and tied to an independent description of what it computes.
 */
module CssTransform {
  import opened Wrappers

  /** The characters `\s` matches in a JavaScript regular expression; `parseFloat` skips the same set. */
  predicate IsJsSpace(c: char) {
    c == ' ' || c == '\t' || c == '\n' || c == '\r' || c == '\U{B}' || c == '\U{C}'
    || c == '\U{A0}' || c == '\U{1680}' || ('\U{2000}' <= c <= '\U{200A}')
    || c == '\U{2028}' || c == '\U{2029}' || c == '\U{202F}' || c == '\U{205F}'
    || c == '\U{3000}' || c == '\U{FEFF}'
  }

  predicate IsDigit(c: char) {
    '0' <= c <= '9'
  }

  /** The character class `[\d.,\s-]` of the matrix pattern. */
  predicate IsMatrixChar(c: char) {
    IsDigit(c) || c == '.' || c == ',' || c == '-' || IsJsSpace(c)
  }

  /** Length of the longest prefix of `s` whose characters all satisfy `member`. */
  function Span(s: string, member: char -> bool): (n: nat)
    ensures n <= |s|
    ensures forall k :: 0 <= k < n ==> member(s[k])
    ensures n < |s| ==> !member(s[n])
  {
    if s == [] || !member(s[0]) then 0 else 1 + Span(s[1..], member)
  }

  // ---------------------------------------------------------------------
  // The regular expression search `transform.match(/matrix\(([\d.,\s-]+)\)/)`
  // ---------------------------------------------------------------------

  const MatrixOpen: string := "matrix("

  /**
   * What the pattern means: at position `p` of `s` stands `matrix(`, then
   * the non-empty group `g` of class characters, then `)`.
   */
  ghost predicate MatchesAt(s: string, p: nat, g: string) {
    p + |MatrixOpen| + |g| < |s|
    && s[p..p + |MatrixOpen|] == MatrixOpen
    && s[p + |MatrixOpen|..p + |MatrixOpen| + |g|] == g
    && |g| > 0
    && (forall k :: 0 <= k < |g| ==> IsMatrixChar(g[k]))
    && s[p + |MatrixOpen| + |g|] == ')'
  }

  /** A non-global `match` reports the match that starts leftmost. */
  ghost predicate LeftmostMatch(s: string, p: nat, g: string) {
    MatchesAt(s, p, g) && forall q: nat, h :: q < p ==> !MatchesAt(s, q, h)
  }

  /** The match attempt at position `p`: the greedy group runs over every class character. */
  function MatchAt(s: string, p: nat): Option<string>
    requires p <= |s|
  {
    var j := p + |MatrixOpen|;
    if j <= |s| && s[p..j] == MatrixOpen then
      var n := Span(s[j..], IsMatrixChar);
      if n > 0 && j + n < |s| && s[j + n] == ')' then Some(s[j..j + n]) else None
    else None
  }

  /** The first position at or after `i` where a match attempt succeeds. */
  function FirstMatchFrom(s: string, i: nat): (p: Option<nat>)
    requires i <= |s|
    ensures p.Some? ==> i <= p.value <= |s| && MatchAt(s, p.value).Some?
    ensures forall q :: i <= q <= |s| && (p.None? || q < p.value) ==> MatchAt(s, q).None?
    decreases |s| - i
  {
    if MatchAt(s, i).Some? then Some(i)
    else if i == |s| then None
    else FirstMatchFrom(s, i + 1)
  }

  /** `match[1]` of `transform.match(scaleRegex)`, or None when `match` is null. */
  function MatrixArguments(s: string): (r: Option<string>)
    ensures r.Some? ==> |r.value| > 0 && forall k :: 0 <= k < |r.value| ==> IsMatrixChar(r.value[k])
  {
    match FirstMatchFrom(s, 0)
    case Some(p) =>
      var j := p + |MatrixOpen|;
      assert MatchAt(s, p).Some? ==> forall k :: 0 <= k < Span(s[j..], IsMatrixChar) ==> s[j..][k] == s[j..j + Span(s[j..], IsMatrixChar)][k];
      MatchAt(s, p)
    case None => None
  }

  /** A match attempt succeeds exactly when the pattern matches there, and then yields the only possible group. */
  lemma MatchAtIsPattern(s: string, p: nat, g: string)
    requires p <= |s|
    ensures MatchAt(s, p) == Some(g) <==> MatchesAt(s, p, g)
  {
    var j := p + |MatrixOpen|;
    if MatchesAt(s, p, g) {
      var n := Span(s[j..], IsMatrixChar);
      assert forall k :: 0 <= k < |g| ==> s[j..][k] == g[k];
      assert s[j..][|g|] == ')';
      assert n == |g|;
    }
    if MatchAt(s, p) == Some(g) {
      var n := Span(s[j..], IsMatrixChar);
      assert |g| == n;
      forall k | 0 <= k < |g| ensures IsMatrixChar(g[k]) {
        assert g[k] == s[j..][k];
      }
    }
  }

  /** The regular expression search returns the group of the leftmost match, and nothing when no position matches. */
  lemma MatrixArgumentsIsLeftmostMatch(s: string)
    ensures MatrixArguments(s).Some? ==> exists p :: LeftmostMatch(s, p, MatrixArguments(s).value)
    ensures MatrixArguments(s).None? ==> forall p: nat, g :: !MatchesAt(s, p, g)
    ensures forall p: nat, g :: LeftmostMatch(s, p, g) ==> MatrixArguments(s) == Some(g)
  {
    var first := FirstMatchFrom(s, 0);
    forall q: nat, h | MatchesAt(s, q, h) && (first.None? || q < first.value)
      ensures false
    {
      MatchAtIsPattern(s, q, h);
    }
    if first.Some? {
      var p := first.value;
      var g := MatchAt(s, p).value;
      MatchAtIsPattern(s, p, g);
      assert LeftmostMatch(s, p, g);
      forall q: nat, h | LeftmostMatch(s, q, h) ensures MatrixArguments(s) == Some(h) {
        MatchAtIsPattern(s, q, h);
      }
    }
  }

  /** A transform that is exactly one `matrix(...)` call yields its arguments. */
  lemma MatrixArgumentsOfCall(args: string)
    requires |args| > 0
    requires forall k :: 0 <= k < |args| ==> IsMatrixChar(args[k])
    ensures MatrixArguments(MatrixOpen + args + ")") == Some(args)
  {
    var s := MatrixOpen + args + ")";
    assert s[..|MatrixOpen|] == MatrixOpen;
    assert s[|MatrixOpen|..|MatrixOpen| + |args|] == args;
    assert MatchesAt(s, 0, args);
    assert LeftmostMatch(s, 0, args);
    MatrixArgumentsIsLeftmostMatch(s);
  }

  // ---------------------------------------------------------------------
  // `match[1].split(',')`
  // ---------------------------------------------------------------------

  /** `s.split(sep)` for a one-character separator. */
  function Split(s: string, sep: char): (pieces: seq<string>)
    ensures |pieces| >= 1
    ensures forall k :: 0 <= k < |pieces| ==> sep !in pieces[k]
    decreases |s|
  {
    if s == [] then [""]
    else
      var rest := Split(s[1..], sep);
      if s[0] == sep then [""] + rest
      else [[s[0]] + rest[0]] + rest[1..]
  }

  /** `pieces.join(sep)`, the inverse of `Split`. */
  function Join(pieces: seq<string>, sep: char): string
    requires |pieces| >= 1
    decreases |pieces|
  {
    if |pieces| == 1 then pieces[0] else pieces[0] + [sep] + Join(pieces[1..], sep)
  }

  lemma {:induction false} JoinSplit(s: string, sep: char)
    ensures Join(Split(s, sep), sep) == s
    decreases |s|
  {
    if s != [] {
      var rest := Split(s[1..], sep);
      JoinSplit(s[1..], sep);
      if s[0] != sep && |rest| > 1 {
        assert Join(Split(s, sep), sep) == [s[0]] + rest[0] + [sep] + Join(rest[1..], sep);
      }
      assert s == [s[0]] + s[1..];
    }
  }

  lemma {:induction false} SplitWithoutSeparator(p: string, sep: char)
    requires sep !in p
    ensures Split(p, sep) == [p]
    decreases |p|
  {
    if p != [] {
      SplitWithoutSeparator(p[1..], sep);
      assert p == [p[0]] + p[1..];
    }
  }

  lemma {:induction false} SplitAfterPiece(p: string, sep: char, rest: string)
    requires sep !in p
    ensures Split(p + [sep] + rest, sep) == [p] + Split(rest, sep)
    decreases |p|
  {
    var s := p + [sep] + rest;
    if p == [] {
      assert s[1..] == rest;
    } else {
      assert s[1..] == p[1..] + [sep] + rest;
      SplitAfterPiece(p[1..], sep, rest);
      assert p == [p[0]] + p[1..];
    }
  }

  /** Splitting a join of separator-free pieces gives the pieces back. */
  lemma {:induction false} SplitJoin(pieces: seq<string>, sep: char)
    requires |pieces| >= 1
    requires forall k :: 0 <= k < |pieces| ==> sep !in pieces[k]
    ensures Split(Join(pieces, sep), sep) == pieces
    decreases |pieces|
  {
    if |pieces| == 1 {
      SplitWithoutSeparator(pieces[0], sep);
    } else {
      SplitJoin(pieces[1..], sep);
      SplitAfterPiece(pieces[0], sep, Join(pieces[1..], sep));
    }
  }

  // ---------------------------------------------------------------------
  // `parseFloat`, on the strings the matrix group can contain
  // ---------------------------------------------------------------------

  function Pow10(n: nat): (r: nat)
    ensures r >= 1
  {
    if n == 0 then 1 else 10 * Pow10(n - 1)
  }

  /** The value of a decimal digit string. */
  function DigitsValue(d: string): nat
    requires forall k :: 0 <= k < |d| ==> IsDigit(d[k])
  {
    if d == [] then 0
    else
      var last := d[|d| - 1];
      assert IsDigit(last);
      10 * DigitsValue(d[..|d| - 1]) + (last as int - '0' as int)
  }

  /** The number written `whole.fraction`. */
  function DecimalValue(whole: string, fraction: string): (v: real)
    requires forall k :: 0 <= k < |whole| ==> IsDigit(whole[k])
    requires forall k :: 0 <= k < |fraction| ==> IsDigit(fraction[k])
    ensures DigitsValue(whole) as real <= v
  {
    DigitsValue(whole) as real + DigitsValue(fraction) as real / Pow10(|fraction|) as real
  }

  /** `u` opens with an unsigned decimal: a digit, or '.' and a digit. */
  predicate UnsignedStart(u: string) {
    |u| > 0 && (IsDigit(u[0]) || (u[0] == '.' && |u| > 1 && IsDigit(u[1])))
  }

  /** `t` opens with a decimal literal: an optional sign, then an unsigned decimal. */
  predicate LiteralStart(t: string) {
    if |t| > 0 && (t[0] == '-' || t[0] == '+') then UnsignedStart(t[1..]) else UnsignedStart(t)
  }

  /**
   * The longest prefix of `s` of the form `digits [. digits]` or `. digits`
   * read as a non-negative number; None (NaN) when there is none.
   */
  function ParseUnsigned(s: string): (r: Option<real>)
    ensures r.Some? ==> 0.0 <= r.value
    ensures r.Some? ==> exists k :: 0 <= k < |s| && IsDigit(s[k])
    ensures r.Some? <==> UnsignedStart(s)
  {
    var n := Span(s, IsDigit);
    assert |s| > 1 ==> s[1..][0] == s[1];
    var whole := DigitsValue(s[..n]) as real;
    if n < |s| && s[n] == '.' then
      var m := Span(s[n + 1..], IsDigit);
      var fraction := s[n + 1..n + 1 + m];
      if n + m == 0 then None
      else Some(DecimalValue(s[..n], fraction))
    else if n == 0 then None
    else Some(whole)
  }

  /** `parseFloat(s)`: leading white space skipped, then an optional sign and an unsigned decimal. */
  function ParseFloat(s: string): (r: Option<real>)
    ensures r.Some? ==> exists k :: 0 <= k < |s| && IsDigit(s[k])
    ensures r.Some? <==> LiteralStart(s[Span(s, IsJsSpace)..])
  {
    var n := Span(s, IsJsSpace);
    var t := s[n..];
    assert forall k :: 0 <= k < |t| ==> t[k] == s[n + k];
    ParseSigned(t)
  }

  /** An optional sign, then an unsigned decimal. */
  function ParseSigned(t: string): (r: Option<real>)
    ensures r.Some? ==> exists k :: 0 <= k < |t| && IsDigit(t[k])
    ensures r.Some? <==> LiteralStart(t)
  {
    if |t| > 0 && (t[0] == '-' || t[0] == '+') then
      assert forall k :: 0 <= k < |t[1..]| ==> t[1..][k] == t[k + 1];
      match ParseUnsigned(t[1..])
      case Some(v) => Some(if t[0] == '-' then -v else v)
      case None => None
    else ParseUnsigned(t)
  }

  /** The digit span of a digit run followed by a non-digit is the run. */
  lemma SpanOfDigits(d: string, tail: string)
    requires forall k :: 0 <= k < |d| ==> IsDigit(d[k])
    requires tail == [] || !IsDigit(tail[0])
    ensures Span(d + tail, IsDigit) == |d|
    ensures (d + tail)[..|d|] == d
  {
    var s := d + tail;
    assert forall k :: 0 <= k < |d| ==> s[k] == d[k];
    assert tail != [] ==> s[|d|] == tail[0];
  }

  /** A run of digits, possibly followed by other text, reads as its decimal value. */
  lemma ParseFloatOfDigits(d: string, tail: string)
    requires |d| > 0 && forall k :: 0 <= k < |d| ==> IsDigit(d[k])
    requires tail == [] || (!IsDigit(tail[0]) && tail[0] != '.')
    ensures ParseFloat(d + tail) == Some(DigitsValue(d) as real)
  {
    var s := d + tail;
    assert s[0] == d[0] && !IsJsSpace(s[0]) && s[0] != '-' && s[0] != '+';
    assert Span(s, IsJsSpace) == 0 && s[0..] == s;
    SpanOfDigits(d, tail);
    assert ParseUnsigned(s) == Some(DigitsValue(d) as real);
  }

  /** `d.f` followed by a non-digit reads as the whole part plus the fraction's digits over a power of ten. */
  lemma ParseFloatOfFraction(d: string, f: string, tail: string)
    requires forall k :: 0 <= k < |d| ==> IsDigit(d[k])
    requires forall k :: 0 <= k < |f| ==> IsDigit(f[k])
    requires |d| + |f| > 0
    requires tail == [] || !IsDigit(tail[0])
    ensures ParseFloat(d + ['.'] + f + tail)
         == Some(DecimalValue(d, f))
  {
    var s := d + ['.'] + f + tail;
    assert !IsJsSpace(s[0]) && s[0] != '-' && s[0] != '+' by {
      if |d| > 0 { assert s[0] == d[0]; } else { assert s[0] == '.'; }
    }
    assert Span(s, IsJsSpace) == 0;
    assert s[0..] == s;
    ParseUnsignedOfFraction(d, f, tail);
  }

  lemma ParseUnsignedOfFraction(d: string, f: string, tail: string)
    requires forall k :: 0 <= k < |d| ==> IsDigit(d[k])
    requires forall k :: 0 <= k < |f| ==> IsDigit(f[k])
    requires |d| + |f| > 0
    requires tail == [] || !IsDigit(tail[0])
    ensures ParseUnsigned(d + ['.'] + f + tail)
         == Some(DecimalValue(d, f))
  {
    var ft := f + tail;
    var rest := ['.'] + ft;
    var s := d + rest;
    assert d + ['.'] + f + tail == s;
    SpanOfDigits(d, rest);
    var n := Span(s, IsDigit);
    assert n == |d| && s[..n] == d;
    assert s[n..] == rest;
    assert n < |s| && s[n] == '.';
    assert s[n + 1..] == ft by {
      assert s[n + 1..] == s[n..][1..];
      assert rest[1..] == ft;
    }
    SpanOfDigits(f, tail);
    var m := Span(s[n + 1..], IsDigit);
    assert m == |f|;
    assert s[n + 1..n + 1 + m] == f by {
      assert s[n + 1..n + 1 + m] == ft[..|f|];
    }
    assert n + m != 0;
  }

  /** A leading '-' negates what the rest reads as, when the rest starts with no space or sign of its own. */
  lemma ParseFloatOfNegative(s: string)
    requires s == [] || (!IsJsSpace(s[0]) && s[0] != '-' && s[0] != '+')
    ensures ParseFloat(['-'] + s) == (if ParseFloat(s).Some? then Some(-ParseFloat(s).value) else None)
  {
    var t := ['-'] + s;
    assert t[1..] == s;
    assert !IsJsSpace(t[0]);
    assert Span(t, IsJsSpace) == 0 && t[0..] == t;
    assert Span(s, IsJsSpace) == 0 && s[0..] == s;
  }

  /** `parseFloat("0.5")` is one half. */
  lemma ParseFloatHalf(half: string)
    requires half == "0.5"
    ensures ParseFloat(half) == Some(0.5)
  {
    var zero: string :| zero == "0";
    var five: string :| five == "5";
    ParseFloatOfFraction(zero, five, "");
    assert half == zero + ['.'] + five + "";
    assert DigitsValue(five) == 5;
  }

  /** `parseFloat("-1")` is minus one. */
  lemma ParseFloatMinusOne(minusOne: string)
    requires minusOne == "-1"
    ensures ParseFloat(minusOne) == Some(-1.0)
  {
    var one: string :| one == "1";
    ParseFloatOfDigits(one, "");
    ParseFloatOfNegative(one);
    assert minusOne == ['-'] + one;
  }

  /** Leading white space does not change what `parseFloat` reads. */
  lemma ParseFloatSkipsSpace(c: char, s: string)
    requires IsJsSpace(c)
    ensures ParseFloat([c] + s) == ParseFloat(s)
  {
    var t := [c] + s;
    assert t[1..] == s;
    var n := Span(s, IsJsSpace);
    assert Span(t, IsJsSpace) == 1 + n;
    assert t[1 + n..] == s[n..];
  }

  // ---------------------------------------------------------------------
  // isScaled
  // ---------------------------------------------------------------------

  /** `style.transform || style.mozTransform`. */
  function TransformOf(transform: string, mozTransform: string): string {
    if transform != "" then transform else mozTransform
  }

  /**
   * `isScaled`: `transform` and `mozTransform` are the computed style's two
   * properties, "" standing for an empty or undefined one. A fourth matrix
   * field that does not exist is `undefined`, which `parseFloat` reads as NaN.
   */
  function IsScaled(transform: string, mozTransform: string): (scaled: bool)
    ensures TransformOf(transform, mozTransform) == "none" ==> !scaled
    ensures transform == "" && mozTransform == "" ==> !scaled
  {
    var t := TransformOf(transform, mozTransform);
    if t != "" && t != "none" then
      match MatrixArguments(t)
      case Some(args) =>
        var values := Split(args, ',');
        var scaleX := ParseFloat(values[0]);
        var scaleY := if |values| > 3 then ParseFloat(values[3]) else None;
        scaleX != Some(1.0) || scaleY != Some(1.0)
      case None => false
    else false
  }

  /**
   * A transform with no `matrix(...)` in it is never reported as scaled; the
   * transform looked at is `mozTransform` when `transform` is empty.
   */
  lemma NoMatrixNotScaled(transform: string, mozTransform: string)
    requires forall p: nat, g :: !MatchesAt(TransformOf(transform, mozTransform), p, g)
    ensures !IsScaled(transform, mozTransform)
  {
    MatrixArgumentsIsLeftmostMatch(TransformOf(transform, mozTransform));
  }

  /**
   * Only the transform looked at matters: `mozTransform` decides exactly as
   * it would in `transform` when `transform` is empty, and is ignored otherwise.
   */
  lemma IsScaledLooksAtFallback(transform: string, mozTransform: string)
    ensures IsScaled(transform, mozTransform) == IsScaled(TransformOf(transform, mozTransform), "")
  {
  }

  /** Text that opens with no number reads as NaN, though a digit may follow: `--1`, `- 1`, `.-1`. */
  lemma ParseFloatNeedsLeadingNumber(a: string, b: string, c: string)
    requires a == "--1" && b == "- 1" && c == ".-1"
    ensures ParseFloat(a) == None && ParseFloat(b) == None && ParseFloat(c) == None
  {
    assert Span(a, IsJsSpace) == 0 && a[0..] == a && !UnsignedStart(a[1..]);
    assert Span(b, IsJsSpace) == 0 && b[0..] == b && !UnsignedStart(b[1..]);
    assert Span(c, IsJsSpace) == 0 && c[0..] == c && !UnsignedStart(c);
  }

  /** A field of the matrix group: class characters other than the separator. */
  predicate IsMatrixField(f: string) {
    forall i :: 0 <= i < |f| ==> IsMatrixChar(f[i]) && f[i] != ','
  }

  lemma {:induction false} JoinOfFields(fields: seq<string>)
    requires |fields| >= 1
    requires forall k :: 0 <= k < |fields| ==> IsMatrixField(fields[k])
    ensures forall i :: 0 <= i < |Join(fields, ',')| ==> IsMatrixChar(Join(fields, ',')[i])
    ensures |Join(fields, ',')| >= |fields[0]| + |fields| - 1
    ensures forall k :: 0 <= k < |fields| ==> ',' !in fields[k]
    decreases |fields|
  {
    if |fields| > 1 {
      JoinOfFields(fields[1..]);
      var rest := Join(fields[1..], ',');
      assert Join(fields, ',') == fields[0] + [','] + rest;
      forall i | 0 <= i < |Join(fields, ',')| ensures IsMatrixChar(Join(fields, ',')[i]) {
        if i > |fields[0]| {
          assert Join(fields, ',')[i] == rest[i - |fields[0]| - 1];
        }
      }
    }
    forall k | 0 <= k < |fields| ensures ',' !in fields[k] {
      assert IsMatrixField(fields[k]);
    }
  }

  /**
   * On a single `matrix(f0, f1, ...)` call, `isScaled` holds exactly when there
   * are fewer than four fields or field 0 or field 3 does not read as 1.
   */
  lemma {:induction false} IsScaledMatrix(fields: seq<string>)
    requires |fields| >= 1
    requires forall k :: 0 <= k < |fields| ==> IsMatrixField(fields[k])
    requires |fields| > 1 || |fields[0]| > 0
    ensures IsScaled(MatrixOpen + Join(fields, ',') + ")", "")
        <==> |fields| < 4 || ParseFloat(fields[0]) != Some(1.0) || ParseFloat(fields[3]) != Some(1.0)
  {
    var args := Join(fields, ',');
    JoinOfFields(fields);
    MatrixArgumentsOfCall(args);
    SplitJoin(fields, ',');
  }

  /** The identity matrix is not scaled. */
  lemma IdentityNotScaled(transform: string)
    requires transform == "matrix(1, 0, 0, 1, 0, 0)"
    ensures !IsScaled(transform, "")
  {
    // bound by such-that, so that the verifier does not evaluate the literal call eagerly
    var fields: seq<string> :| fields == ["1", " 0", " 0", " 1", " 0", " 0"];
    IdentityFields(fields);
    IdentityJoin(fields);
    IdentityCall(transform, Join(fields, ','));
    ParseFloatOne(fields[0]);
    ParseFloatOne(fields[3]);
    IsScaledMatrix(fields);
  }

  lemma IdentityCall(transform: string, args: string)
    requires transform == "matrix(1, 0, 0, 1, 0, 0)"
    requires args == "1, 0, 0, 1, 0, 0"
    ensures transform == MatrixOpen + args + ")"
  {
  }

  lemma IdentityFields(fields: seq<string>)
    requires fields == ["1", " 0", " 0", " 1", " 0", " 0"]
    ensures forall k :: 0 <= k < |fields| ==> IsMatrixField(fields[k])
  {
    forall k | 0 <= k < |fields| ensures IsMatrixField(fields[k]) {
      NumberFieldIsMatrixField(fields[k]);
    }
  }

  lemma NumberFieldIsMatrixField(f: string)
    requires f == "1" || f == " 0" || f == " 1"
    ensures IsMatrixField(f)
  {
    assert forall i :: 0 <= i < |f| ==> f[i] == ' ' || f[i] == '0' || f[i] == '1';
  }

  lemma IdentityJoin(fields: seq<string>)
    requires fields == ["1", " 0", " 0", " 1", " 0", " 0"]
    ensures Join(fields, ',') == "1, 0, 0, 1, 0, 0"
  {
    assert Join(fields[5..], ',') == " 0";
    assert Join(fields[4..], ',') == " 0, 0" by { assert fields[4..][1..] == fields[5..]; }
    assert Join(fields[3..], ',') == " 1, 0, 0" by { assert fields[3..][1..] == fields[4..]; }
    assert Join(fields[2..], ',') == " 0, 1, 0, 0" by { assert fields[2..][1..] == fields[3..]; }
    assert Join(fields[1..], ',') == " 0, 0, 1, 0, 0" by { assert fields[1..][1..] == fields[2..]; }
  }

  lemma ParseFloatOne(s: string)
    requires s == "1" || s == " 1"
    ensures ParseFloat(s) == Some(1.0)
  {
    ParseFloatOfDigits("1", "");
    assert "1" + "" == "1";
    if s == " 1" {
      ParseFloatSkipsSpace(' ', "1");
      assert s == [' '] + "1";
    }
  }

  /** A matrix with fewer than four fields counts as scaled: the missing field reads as NaN. */
  lemma ShortMatrixIsScaled(transform: string)
    requires transform == "matrix(1, 0)"
    ensures IsScaled(transform, "")
  {
    var fields: seq<string> :| fields == ["1", " 0"];
    assert fields[1..] == [" 0"];
    assert Join(fields, ',') == "1" + [','] + " 0";
    assert "1" + [','] + " 0" == "1, 0";
    assert IsMatrixField(fields[0]) && IsMatrixField(fields[1]);
    assert transform == MatrixOpen + Join(fields, ',') + ")";
    IsScaledMatrix(fields);
  }
}
