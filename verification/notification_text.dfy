/** Bounding and cleaning of notification text: UTF-16 in, UTF-16 out, measured in UTF-8 bytes. */
module NotificationText {
  import opened Basics

  type Unit = u: nat | u < 0x1_0000

  const TAB := 0x09
  const LF := 0x0A
  const CR := 0x0D
  const REPLACEMENT := 0xFFFD
  const MAX_MARKUP_UNITS := 65_536

  predicate IsHigh(u: nat) {
    0xD800 <= u < 0xDC00
  }

  predicate IsLow(u: nat) {
    0xDC00 <= u < 0xE000
  }

  /** A Unicode scalar value (section 3 of RFC 3629 excludes the surrogates). */
  predicate IsScalar(p: nat) {
    p < 0xD800 || 0xE000 <= p < 0x11_0000
  }

  predicate IsControl(p: nat) {
    p <= 0x1F || 0x7F <= p <= 0x9F
  }

  // ---------------------------------------------------------------- encodings

  /** Section 2.1 of RFC 2781. */
  function Utf16(p: nat): (units: seq<Unit>)
    requires IsScalar(p)
    ensures 1 <= |units| <= 2
  {
    if p < 0x1_0000 then [p]
    else [0xD800 + (p - 0x1_0000) / 0x400, 0xDC00 + (p - 0x1_0000) % 0x400]
  }

  function Encode(points: seq<nat>): seq<Unit>
    requires forall p :: p in points ==> IsScalar(p)
  {
    if points == [] then [] else Utf16(points[0]) + Encode(points[1..])
  }

  function Combine(high: nat, low: nat): nat
    requires IsHigh(high) && IsLow(low)
  {
    0x1_0000 + (high - 0xD800) * 0x400 + (low - 0xDC00)
  }

  /** Section 2.2 of RFC 2781; None when the text is not well-formed. */
  function Decode(units: seq<Unit>): (points: Option<seq<nat>>)
    ensures points.Some? ==> forall p :: p in points.value ==> IsScalar(p)
  {
    if units == [] then Some([])
    else if IsHigh(units[0]) then
      if |units| >= 2 && IsLow(units[1]) then
        (match Decode(units[2..])
         case None => None
         case Some(rest) => Some([Combine(units[0], units[1])] + rest))
      else None
    else if IsLow(units[0]) then None
    else
      match Decode(units[1..])
      case None => None
      case Some(rest) => Some([units[0]] + rest)
  }

  /** Section 3 of RFC 3629. */
  function Utf8(p: nat): seq<nat>
    requires IsScalar(p)
  {
    if p < 0x80 then [p]
    else if p < 0x800 then [0xC0 + p / 0x40, 0x80 + p % 0x40]
    else if p < 0x1_0000 then [0xE0 + p / 0x1000, 0x80 + p / 0x40 % 0x40, 0x80 + p % 0x40]
    else [0xF0 + p / 0x4_0000, 0x80 + p / 0x1000 % 0x40, 0x80 + p / 0x40 % 0x40, 0x80 + p % 0x40]
  }

  function Utf8All(points: seq<nat>): seq<nat>
    requires forall p :: p in points ==> IsScalar(p)
  {
    if points == [] then [] else Utf8(points[0]) + Utf8All(points[1..])
  }

  function Utf8Length(p: nat): nat {
    if p <= 0x7F then 1 else if p <= 0x7FF then 2 else if p <= 0xFFFF then 3 else 4
  }

  // ---------------------------------------------------------------- the unbounded normalisation

  /** The code point that starts at `index` and how many units it takes, lone surrogates replaced. */
  function Read(value: seq<Unit>, index: nat): (r: (nat, nat))
    requires index < |value|
    ensures IsScalar(r.0) && 1 <= r.1 <= 2 && index + r.1 <= |value|
  {
    if IsHigh(value[index]) && index + 1 < |value| && IsLow(value[index + 1])
    then (Combine(value[index], value[index + 1]), 2)
    else if IsHigh(value[index]) || IsLow(value[index]) then (REPLACEMENT, 1)
    else (value[index], 1)
  }

  /** The cleaned code point at `index` and how many units it stands for. */
  function Clean(value: seq<Unit>, index: nat, body: bool): (r: (nat, nat))
    requires index < |value|
    ensures IsScalar(r.0) && 1 <= r.1 && index + r.1 <= |value|
  {
    var (p, n) := Read(value, index);
    if p == CR then (LF, if index + n < |value| && value[index + n] == LF then n + 1 else n)
    else if IsControl(p) && !(body && (p == TAB || p == LF)) then (REPLACEMENT, n)
    else (p, n)
  }

  function Points(value: seq<Unit>, index: nat, body: bool): (points: seq<nat>)
    requires index <= |value|
    ensures forall p :: p in points ==> IsScalar(p)
    decreases |value| - index
  {
    if index == |value| then []
    else
      var (p, n) := Clean(value, index, body);
      [p] + Points(value, index + n, body)
  }

  /** Takes code points as long as they fit into `max` bytes. */
  function Fit(points: seq<nat>, max: int): seq<nat> {
    if points == [] || Utf8Length(points[0]) > max then []
    else [points[0]] + Fit(points[1..], max - Utf8Length(points[0]))
  }

  function Normalized(value: seq<Unit>, max: int, body: bool): seq<Unit> {
    FitPrefix(Points(value, 0, body), max);
    Encode(Fit(Points(value, 0, body), max))
  }

  // ---------------------------------------------------------------- the loop of the source

  method CleanAt(value: seq<Unit>, index: nat, preserveBodyWhitespace: bool) returns (codePoint: nat, consumed: nat)
    requires index < |value|
    ensures (codePoint, consumed) == Clean(value, index, preserveBodyWhitespace)
  {
    codePoint := value[index];
    consumed := 1;
    if IsHigh(codePoint) && index + 1 < |value| && IsLow(value[index + 1]) {
      codePoint := Combine(value[index], value[index + 1]);
      consumed := 2;
    } else if IsHigh(codePoint) || IsLow(codePoint) {
      codePoint := REPLACEMENT;
    }
    if codePoint == CR {
      codePoint := LF;
      if index + consumed < |value| && value[index + consumed] == LF {
        consumed := consumed + 1;
      }
    } else if IsControl(codePoint) && !(preserveBodyWhitespace && (codePoint == TAB || codePoint == LF)) {
      codePoint := REPLACEMENT;
    }
  }

  method BoundedNormalized(value: seq<Unit>, maxUtf8Bytes: int, preserveBodyWhitespace: bool)
    returns (output: seq<Unit>)
    ensures output == Normalized(value, maxUtf8Bytes, preserveBodyWhitespace)
  {
    hide Fit, Points, Clean, Utf16, Utf8Length;
    output := [];
    var bytes := 0;
    var index := 0;
    ghost var all := Points(value, 0, preserveBodyWhitespace);
    ghost var taken: seq<nat> := [];
    FitPrefix(all, maxUtf8Bytes);
    while index < |value|
      invariant 0 <= index <= |value|
      invariant forall p :: p in taken ==> IsScalar(p)
      invariant output == Encode(taken)
      invariant Fit(all, maxUtf8Bytes)
        == taken + Fit(Points(value, index, preserveBodyWhitespace), maxUtf8Bytes - bytes)
    {
      var codePoint, consumed := CleanAt(value, index, preserveBodyWhitespace);
      FitStep(value, index, preserveBodyWhitespace, maxUtf8Bytes - bytes);
      var encodedBytes := Utf8Length(codePoint);
      if bytes + encodedBytes > maxUtf8Bytes {
        assert Fit(all, maxUtf8Bytes) == taken;
        return;
      }
      EncodeAppend(taken, codePoint);
      output := output + Utf16(codePoint);
      taken := taken + [codePoint];
      bytes := bytes + encodedBytes;
      index := index + consumed;
    }
    FitNothing(value, preserveBodyWhitespace, maxUtf8Bytes - bytes);
    assert Fit(all, maxUtf8Bytes) == taken;
  }

  lemma FitNothing(value: seq<Unit>, body: bool, left: int)
    ensures Fit(Points(value, |value|, body), left) == []
  {}

  lemma FitStep(value: seq<Unit>, index: nat, body: bool, left: int)
    requires index < |value|
    ensures
      var (p, n) := Clean(value, index, body);
      Fit(Points(value, index, body), left)
        == if Utf8Length(p) > left then [] else [p] + Fit(Points(value, index + n, body), left - Utf8Length(p))
  {
    hide Clean;
    var (p, n) := Clean(value, index, body);
    assert Points(value, index, body)[1..] == Points(value, index + n, body);
  }

  lemma {:induction false} EncodeAppend(points: seq<nat>, p: nat)
    requires IsScalar(p) && forall q :: q in points ==> IsScalar(q)
    ensures Encode(points + [p]) == Encode(points) + Utf16(p)
  {
    if points == [] {
      assert Encode([p]) == Utf16(p) + Encode([]);
    } else {
      assert (points + [p])[1..] == points[1..] + [p];
      EncodeAppend(points[1..], p);
    }
  }

  // ---------------------------------------------------------------- longest prefix that fits

  lemma {:induction false} FitPrefix(points: seq<nat>, max: int)
    ensures Fit(points, max) <= points
    ensures (forall p :: p in points ==> IsScalar(p)) ==> forall p :: p in Fit(points, max) ==> IsScalar(p)
  {
    if points != [] && Utf8Length(points[0]) <= max {
      FitPrefix(points[1..], max - Utf8Length(points[0]));
    }
  }

  lemma Utf8LengthIsSize(p: nat)
    requires IsScalar(p)
    ensures |Utf8(p)| == Utf8Length(p)
  {}

  /** The kept points are the longest prefix of the cleaned text whose UTF-8 form fits. */
  lemma {:induction false} FitIsLongest(points: seq<nat>, max: nat, other: seq<nat>)
    requires forall p :: p in points ==> IsScalar(p)
    requires other <= points
    ensures
      var kept := Fit(points, max);
      && kept <= points && (forall p :: p in kept + other ==> IsScalar(p))
      && |Utf8All(kept)| <= max
      && (|Utf8All(other)| <= max ==> other <= kept)
  {
    FitPrefix(points, max);
    assert forall p :: p in other ==> p in points;
    if points != [] {
      Utf8LengthIsSize(points[0]);
      if Utf8Length(points[0]) <= max {
        FitIsLongest(points[1..], max - Utf8Length(points[0]), if other == [] then [] else other[1..]);
      }
    }
  }

  lemma {:induction false} FitMonotone(points: seq<nat>, small: int, large: int)
    requires small <= large
    ensures Fit(points, small) <= Fit(points, large)
  {
    if points != [] && Utf8Length(points[0]) <= small {
      FitMonotone(points[1..], small - Utf8Length(points[0]), large - Utf8Length(points[0]));
    }
  }

  lemma {:induction false} FitAgain(points: seq<nat>, max: int)
    ensures Fit(Fit(points, max), max) == Fit(points, max)
  {
    if points != [] && Utf8Length(points[0]) <= max {
      FitAgain(points[1..], max - Utf8Length(points[0]));
    }
  }

  lemma {:induction false} EncodePrefix(a: seq<nat>, b: seq<nat>)
    requires a <= b && forall p :: p in b ==> IsScalar(p)
    ensures (forall p :: p in a ==> IsScalar(p)) && Encode(a) <= Encode(b)
  {
    assert forall p :: p in a ==> p in b;
    if a != [] {
      EncodePrefix(a[1..], b[1..]);
    }
  }

  /** A smaller bound cuts the same text earlier. */
  lemma SmallerBoundIsPrefix(value: seq<Unit>, small: int, large: int, body: bool)
    requires small <= large
    ensures Normalized(value, small, body) <= Normalized(value, large, body)
  {
    var points := Points(value, 0, body);
    FitMonotone(points, small, large);
    FitPrefix(points, large);
    EncodePrefix(Fit(points, small), Fit(points, large));
  }

  // ---------------------------------------------------------------- well-formed output

  lemma CombineUtf16(p: nat)
    requires 0x1_0000 <= p < 0x11_0000
    ensures IsHigh(Utf16(p)[0]) && IsLow(Utf16(p)[1]) && Combine(Utf16(p)[0], Utf16(p)[1]) == p
  {}

  lemma {:induction false} DecodeEncode(points: seq<nat>)
    requires forall p :: p in points ==> IsScalar(p)
    ensures Decode(Encode(points)) == Some(points)
  {
    if points != [] {
      var p, units := points[0], Encode(points);
      assert p in points;
      DecodeEncode(points[1..]);
      if p < 0x1_0000 {
        assert units[1..] == Encode(points[1..]);
      } else {
        CombineUtf16(p);
        assert units[2..] == Encode(points[1..]);
      }
      assert points == [p] + points[1..];
    }
  }

  /** Controls that may remain: line feeds, and tabs in a body. */
  predicate Allowed(p: nat, body: bool) {
    IsScalar(p) && (IsControl(p) ==> p == LF || (body && p == TAB))
  }

  lemma {:induction false} PointsAllowed(value: seq<Unit>, index: nat, body: bool)
    requires index <= |value|
    ensures forall p :: p in Points(value, index, body) ==> Allowed(p, body)
    decreases |value| - index
  {
    if index < |value| {
      PointsAllowed(value, index + Clean(value, index, body).1, body);
    }
  }

  /** The result is well-formed UTF-16, fits the byte bound and holds no other control characters. */
  lemma NormalizedIsClean(value: seq<Unit>, max: nat, body: bool)
    ensures
      var points := Decode(Normalized(value, max, body));
      && points.Some?
      && points.value <= Points(value, 0, body)
      && |Utf8All(points.value)| <= max
      && forall p :: p in points.value ==> Allowed(p, body)
  {
    var points := Points(value, 0, body);
    FitPrefix(points, max);
    FitIsLongest(points, max, []);
    DecodeEncode(Fit(points, max));
    PointsAllowed(value, 0, body);
  }

  // ---------------------------------------------------------------- doing it twice

  predicate Stable(p: nat, body: bool) {
    IsScalar(p) && p != CR && (IsControl(p) ==> body && (p == TAB || p == LF))
  }

  lemma {:induction false} EncodeAt(points: seq<nat>, before: seq<Unit>, body: bool)
    requires forall p :: p in points ==> Stable(p, body)
    ensures forall p :: p in points ==> IsScalar(p)
    ensures Points(before + Encode(points), |before|, body) == points
    decreases |points|
  {
    hide Clean, Utf16;
    if points == [] {
      assert before + Encode(points) == before;
    } else {
      var p, rest := points[0], points[1..];
      assert p in points && forall q :: q in rest ==> q in points;
      EncodeHead(points, before);
      EncodeAt(rest, before + Utf16(p), body);
      PointsFirst(p, before, Encode(rest), body);
      hide Points, Encode, Stable;
      assert points == [p] + rest;
    }
  }

  lemma EncodeHead(points: seq<nat>, before: seq<Unit>)
    requires points != [] && forall p :: p in points ==> IsScalar(p)
    ensures forall p :: p in points[1..] ==> IsScalar(p)
    ensures before + Encode(points) == before + Utf16(points[0]) + Encode(points[1..])
  {
    assert forall p :: p in points[1..] ==> p in points;
  }

  lemma PointsFirst(p: nat, before: seq<Unit>, after: seq<Unit>, body: bool)
    requires Stable(p, body)
    ensures var value := before + Utf16(p) + after;
            Points(value, |before|, body) == [p] + Points(value, |before + Utf16(p)|, body)
  {
    CleanFirst(p, before, after, body);
    hide Clean, Utf16, Stable;
  }

  lemma CleanFirst(p: nat, before: seq<Unit>, after: seq<Unit>, body: bool)
    requires Stable(p, body)
    ensures Clean(before + Utf16(p) + after, |before|, body) == (p, |Utf16(p)|)
  {
    var value := before + Utf16(p) + after;
    if p >= 0x1_0000 {
      CombineUtf16(p);
      assert value[|before|] == Utf16(p)[0] && value[|before| + 1] == Utf16(p)[1];
    } else {
      assert value[|before|] == p;
    }
    assert Read(value, |before|) == (p, |Utf16(p)|);
  }

  lemma NormalizedStable(points: seq<nat>, max: int, body: bool)
    requires forall p :: p in points ==> Stable(p, body)
    requires Fit(points, max) == points
    ensures forall p :: p in points ==> IsScalar(p)
    ensures Normalized(Encode(points), max, body) == Encode(points)
  {
    EncodeAt(points, [], body);
    assert [] + Encode(points) == Encode(points);
  }

  /** Cleaning a body twice is cleaning it once. */
  lemma BodyIdempotent(value: seq<Unit>, max: int)
    ensures Normalized(Normalized(value, max, true), max, true) == Normalized(value, max, true)
  {
    var points := Points(value, 0, true);
    FitPrefix(points, max);
    FitAgain(points, max);
    PointsAllowed(value, 0, true);
    assert forall p :: p in Fit(points, max) ==> p in points;
    NormalizedStable(Fit(points, max), max, true);
  }

  lemma {:induction false} EncodeMembers(points: seq<nat>, p: nat)
    requires forall q :: q in points ==> IsScalar(q)
    requires p < 0xD800
    ensures p in Encode(points) <==> p in points
  {
    if points != [] {
      EncodeMembers(points[1..], p);
      assert points == [points[0]] + points[1..];
    }
  }

  lemma CleanLine(value: seq<Unit>, index: nat)
    requires index < |value|
    ensures
      var (p, n) := Clean(value, index, false);
      && (p == LF <==> value[index] == CR)
      && forall i :: index < i < index + n ==> value[i] != CR
  {}

  /** In plain mode a line feed can only stem from a carriage return. */
  lemma {:induction false} PlainLineFeeds(value: seq<Unit>, index: nat)
    requires index <= |value|
    ensures LF in Points(value, index, false) <==> CR in value[index..]
    decreases |value| - index
  {
    if index < |value| {
      CleanLine(value, index);
      hide Clean;
      var (p, n) := Clean(value, index, false);
      PlainLineFeeds(value, index + n);
      assert value[index..] == [value[index]] + value[index + 1..index + n] + value[index + n..];
      assert CR !in value[index + 1..index + n];
    }
  }

  /** Cleaning plain text twice is cleaning it once exactly when no line feed was produced. */
  lemma PlainIdempotentExactly(value: seq<Unit>, max: int)
    ensures Normalized(Normalized(value, max, false), max, false) == Normalized(value, max, false)
      <==> LF !in Normalized(value, max, false)
  {
    var points := Points(value, 0, false);
    var kept := Fit(points, max);
    var once := Normalized(value, max, false);
    FitPrefix(points, max);
    FitAgain(points, max);
    PointsAllowed(value, 0, false);
    assert forall p :: p in kept ==> p in points;
    EncodeMembers(kept, LF);
    if LF !in once {
      NormalizedStable(kept, max, false);
    } else {
      EncodeMembers(kept, CR);
      assert CR !in once;
      assert once[0..] == once;
      PlainLineFeeds(once, 0);
      FitPrefix(Points(once, 0, false), max);
      EncodeMembers(Fit(Points(once, 0, false), max), LF);
    }
  }

  /** No carriage return in the input is enough; when everything fits it is also necessary. */
  lemma PlainIdempotentOnInput(value: seq<Unit>, max: int)
    ensures CR !in value ==>
              Normalized(Normalized(value, max, false), max, false) == Normalized(value, max, false)
    ensures CR in value && Fit(Points(value, 0, false), max) == Points(value, 0, false) ==>
              Normalized(Normalized(value, max, false), max, false) != Normalized(value, max, false)
  {
    var points := Points(value, 0, false);
    PlainIdempotentExactly(value, max);
    FitPrefix(points, max);
    assert value[0..] == value;
    PlainLineFeeds(value, 0);
    EncodeMembers(Fit(points, max), LF);
  }

  /** Where the loop over plain text stops reading: at the end, or at what no longer fits. */
  function Consumed(value: seq<Unit>, index: nat, max: int): (end: nat)
    requires index <= |value|
    ensures index <= end <= |value|
    decreases |value| - index
  {
    if index == |value| then index
    else
      var (p, n) := Clean(value, index, false);
      if Utf8Length(p) > max then index else Consumed(value, index + n, max - Utf8Length(p))
  }

  lemma {:induction false} KeptLineFeeds(value: seq<Unit>, index: nat, max: int)
    requires index <= |value|
    ensures LF in Fit(Points(value, index, false), max) <==> CR in value[index..Consumed(value, index, max)]
    decreases |value| - index
  {
    hide Clean, Utf8Length;
    if index < |value| {
      CleanLine(value, index);
      hide Clean, Utf8Length, Points, Fit, Consumed;
      var (p, n) := Clean(value, index, false);
      if Utf8Length(p) <= max {
        var left := max - Utf8Length(p);
        KeptStep(value, index, max);
        KeptLineFeeds(value, index + n, left);
        OnlyFirst(value, index, index + n, Consumed(value, index + n, left));
        HeadOr(p, Fit(Points(value, index + n, false), left));
      } else {
        KeptNothing(value, index, max);
      }
    }
  }

  lemma HeadOr(p: nat, rest: seq<nat>)
    ensures LF in [p] + rest <==> p == LF || LF in rest
  {}

  lemma KeptNothing(value: seq<Unit>, index: nat, max: int)
    requires index < |value| && Utf8Length(Clean(value, index, false).0) > max
    ensures Fit(Points(value, index, false), max) == [] && Consumed(value, index, max) == index
  {
    hide Clean, Utf8Length;
  }

  lemma KeptStep(value: seq<Unit>, index: nat, max: int)
    requires index < |value| && Utf8Length(Clean(value, index, false).0) <= max
    ensures
      var (p, n) := Clean(value, index, false);
      var later := Points(value, index + n, false);
      && Fit(Points(value, index, false), max) == [p] + Fit(later, max - Utf8Length(p))
      && Consumed(value, index, max) == Consumed(value, index + n, max - Utf8Length(p))
  {
    hide Clean, Utf8Length;
    var (p, n) := Clean(value, index, false);
    assert Points(value, index, false) == [p] + Points(value, index + n, false);
    assert ([p] + Points(value, index + n, false))[1..] == Points(value, index + n, false);
  }

  lemma OnlyFirst(value: seq<Unit>, index: nat, next: nat, end: nat)
    requires index < next <= end <= |value| && forall i :: index < i < next ==> value[i] != CR
    ensures CR in value[index..end] <==> value[index] == CR || CR in value[next..end]
  {
    assert value[index..end] == [value[index]] + value[index + 1..next] + value[next..end];
  }

  /** Cleaning plain text twice is cleaning it once exactly when there is no carriage return
      in the part of the input that is read. */
  lemma PlainIdempotentExactlyOn(value: seq<Unit>, max: int)
    ensures Normalized(Normalized(value, max, false), max, false) == Normalized(value, max, false)
      <==> CR !in value[..Consumed(value, 0, max)]
  {
    var points := Points(value, 0, false);
    PlainIdempotentExactly(value, max);
    FitPrefix(points, max);
    KeptLineFeeds(value, 0, max);
    EncodeMembers(Fit(points, max), LF);
    assert value[0..Consumed(value, 0, max)] == value[..Consumed(value, 0, max)];
  }

  /** A lone carriage return becomes a line feed, which cleaning replaces the next time. */
  lemma PlainTwiceDiffers(max: int)
    requires max >= 1
    ensures Normalized(Normalized([CR], max, false), max, false) != Normalized([CR], max, false)
  {
    PlainIdempotentExactlyOn([CR], max);
    assert Consumed([CR], 0, max) == 1 && [CR][..1] == [CR];
  }

  // ---------------------------------------------------------------- markup that cannot be parsed

  const OPENING := 0x3C
  const CLOSING := 0x3E

  /** What is left when every span from an opening to the next closing bracket is dropped. */
  function Stripped(value: seq<Unit>, inTag: bool): seq<Unit> {
    if value == [] then []
    else if inTag then Stripped(value[1..], value[0] != CLOSING)
    else if value[0] == OPENING then Stripped(value[1..], true)
    else [value[0]] + Stripped(value[1..], false)
  }

  lemma StrippedStep(value: seq<Unit>, inTag: bool)
    requires value != []
    ensures Stripped(value, inTag)
            == if inTag then Stripped(value[1..], value[0] != CLOSING)
               else if value[0] == OPENING then Stripped(value[1..], true)
               else [value[0]] + Stripped(value[1..], false)
  {}

  method StripTagSpans(value: seq<Unit>) returns (output: seq<Unit>)
    ensures output == Stripped(value[..Min(|value|, MAX_MARKUP_UNITS)], false)
  {
    output := [];
    var inTag := false;
    var limit := Min(|value|, MAX_MARKUP_UNITS);
    var index := 0;
    ghost var source := value[..limit];
    while index < limit
      invariant 0 <= index <= limit
      invariant output + Stripped(source[index..], inTag) == Stripped(source, false)
    {
      var character := value[index];
      assert source[index..][0] == character && source[index..][1..] == source[index + 1..];
      StrippedStep(source[index..], inTag);
      hide Stripped;
      if !inTag && character == OPENING {
        inTag := true;
      } else if inTag {
        if character == CLOSING {
          inTag := false;
        }
      } else {
        output := output + [character];
      }
      index := index + 1;
    }
  }

  lemma {:induction false} StrippedHasNoOpening(value: seq<Unit>, inTag: bool)
    ensures OPENING !in Stripped(value, inTag)
  {
    if value != [] {
      StrippedHasNoOpening(value[1..], true);
      StrippedHasNoOpening(value[1..], false);
    }
  }

  /** Text outside brackets is kept as it is; a bracketed span vanishes as a whole. */
  lemma {:induction false} StrippedSpan(before: seq<Unit>, span: seq<Unit>, after: seq<Unit>)
    requires OPENING !in before && CLOSING !in span
    ensures Stripped(before + [OPENING] + span + [CLOSING] + after, false) == before + Stripped(after, false)
  {
    var value := before + [OPENING] + span + [CLOSING] + after;
    if before == [] {
      assert value[1..] == span + [CLOSING] + after;
      StrippedInside(span, after);
    } else {
      assert value[1..] == before[1..] + [OPENING] + span + [CLOSING] + after;
      StrippedSpan(before[1..], span, after);
    }
  }

  lemma {:induction false} StrippedInside(span: seq<Unit>, after: seq<Unit>)
    requires CLOSING !in span
    ensures Stripped(span + [CLOSING] + after, true) == Stripped(after, false)
  {
    var value := span + [CLOSING] + after;
    if span == [] {
      assert value[1..] == after;
    } else {
      assert value[1..] == span[1..] + [CLOSING] + after;
      StrippedInside(span[1..], after);
    }
  }

  /** Text without an opening bracket is kept whole; behind one that is never closed nothing is. */
  lemma {:induction false} StrippedRest(before: seq<Unit>, rest: seq<Unit>)
    requires OPENING !in before && CLOSING !in rest
    ensures Stripped(before, false) == before
    ensures Stripped(before + [OPENING] + rest, false) == before
  {
    var value := before + [OPENING] + rest;
    if before == [] {
      assert value[1..] == rest;
      StrippedUnclosed(rest);
    } else {
      assert value[1..] == before[1..] + [OPENING] + rest;
      StrippedRest(before[1..], rest);
    }
  }

  lemma {:induction false} StrippedUnclosed(rest: seq<Unit>)
    requires CLOSING !in rest
    ensures Stripped(rest, true) == []
  {
    if rest != [] {
      StrippedUnclosed(rest[1..]);
    }
  }

  // ---------------------------------------------------------------- what becomes of each unit

  /** The code point that one or two units stand for: a line feed for a carriage return, with or without a
      line feed behind it; the replacement character for half a pair and for a control that may not stay;
      and otherwise the code point that is encoded. */
  ghost predicate Becomes(value: seq<Unit>, index: nat, body: bool, p: nat, n: nat)
    requires index < |value|
  {
    var u: int := value[index];
    var next: int := if index + 1 < |value| then value[index + 1] else 0;
    if u == 13 && next == 10 then p == 10 && n == 2
    else if u == 13 then p == 10 && n == 1
    else if 0xD800 <= u <= 0xDBFF && 0xDC00 <= next <= 0xDFFF then
      n == 2 && p == 0x1_0000 + (u - 0xD800) * 1024 + (next - 0xDC00)
    else if 0xD800 <= u <= 0xDFFF then p == 0xFFFD && n == 1
    else if body && (u == 9 || u == 10) then p == u && n == 1
    else if u <= 31 || 127 <= u <= 159 then p == 0xFFFD && n == 1
    else p == u && n == 1
  }

  /** The cleaned text goes on from unit to unit like this, until nothing is left. */
  lemma PointsExactly(value: seq<Unit>, index: nat, body: bool, p: nat, n: nat)
    requires index < |value| && Becomes(value, index, body, p, n)
    ensures index + n <= |value| && Points(value, index, body) == [p] + Points(value, index + n, body)
    ensures Points(value, |value|, body) == []
  {
    BecomesClean(value, index, body, p, n);
    hide Clean;
  }

  lemma BecomesClean(value: seq<Unit>, index: nat, body: bool, p: nat, n: nat)
    requires index < |value|
    ensures Becomes(value, index, body, p, n) <==> Clean(value, index, body) == (p, n)
  {}
}
