/** String helpers shared by the clients: QString::arg for integers (decimal
    rendering), QStringList::join, QString::split on one character and
    QString::toInt in base 10. */
module Text {

  import opened Json

  predicate IsDigit(c: char)
  {
    '0' <= c <= '9'
  }

  function DigitChar(d: nat): (c: char)
    requires d < 10
    ensures IsDigit(c) && c as int - '0' as int == d
  {
    ('0' as int + d) as char
  }

  function DigitValue(c: char): nat
    requires IsDigit(c)
  {
    c as int - '0' as int
  }

  /** Decimal digits of n, most significant first, without leading zeros. */
  function NatToString(n: nat): (r: string)
    ensures |r| > 0
    ensures forall i :: 0 <= i < |r| ==> IsDigit(r[i])
  {
    if n < 10 then [DigitChar(n)] else NatToString(n / 10) + [DigitChar(n % 10)]
  }

  /** QString("%1").arg(n) */
  function IntToString(n: int): string
  {
    if n < 0 then "-" + NatToString(-n) else NatToString(n)
  }

  /** The number a non-empty run of decimal digits denotes. */
  function DigitsValue(s: string): nat
    requires forall i :: 0 <= i < |s| ==> IsDigit(s[i])
  {
    if |s| == 0 then 0 else DigitsValue(s[..|s| - 1]) * 10 + DigitValue(s[|s| - 1])
  }

  lemma {:induction false} DigitsOfNat(n: nat)
    ensures DigitsValue(NatToString(n)) == n
  {
    var r := NatToString(n);
    if n >= 10 {
      DigitsOfNat(n / 10);
      assert r[..|r| - 1] == NatToString(n / 10);
    }
  }

  /** QStringList::join(sep) */
  function Join(parts: seq<string>, sep: string): string
  {
    if |parts| == 0 then ""
    else if |parts| == 1 then parts[0]
    else parts[0] + sep + Join(parts[1..], sep)
  }

  /** Joining one more part onto a non-empty list. */
  lemma {:induction false} JoinSnoc(parts: seq<string>, x: string, sep: string)
    requires |parts| >= 1
    ensures Join(parts + [x], sep) == Join(parts, sep) + sep + x
    decreases |parts|
  {
    if |parts| == 1 {
      assert parts + [x] == [parts[0], x];
      assert ([parts[0], x])[1..] == [x];
    } else {
      assert (parts + [x])[1..] == parts[1..] + [x];
      JoinSnoc(parts[1..], x, sep);
    }
  }

  /** QString::split(sep): the pieces between separators, empty pieces kept.
      `cur` is the piece read so far. */
  function SplitFrom(s: string, sep: char, cur: string): (r: seq<string>)
    ensures |r| >= 1
    decreases |s|
  {
    if |s| == 0 then [cur]
    else if s[0] == sep then [cur] + SplitFrom(s[1..], sep, "")
    else SplitFrom(s[1..], sep, cur + [s[0]])
  }

  function Split(s: string, sep: char): seq<string>
  {
    SplitFrom(s, sep, "")
  }

  lemma {:induction false} SplitFromPiece(p: string, sep: char, cur: string)
    requires sep !in p
    ensures SplitFrom(p, sep, cur) == [cur + p]
    decreases |p|
  {
    if |p| == 0 {
      assert cur + p == cur;
    } else {
      assert p[0] in p;
      assert sep !in p[1..] by {
        forall i | 0 <= i < |p[1..]| ensures p[1..][i] != sep { assert p[1..][i] == p[i + 1]; }
      }
      SplitFromPiece(p[1..], sep, cur + [p[0]]);
      assert cur + [p[0]] + p[1..] == cur + p;
    }
  }

  lemma {:induction false} SplitFromPieceThenRest(p: string, sep: char, rest: string, cur: string)
    requires sep !in p
    ensures SplitFrom(p + [sep] + rest, sep, cur) == [cur + p] + SplitFrom(rest, sep, "")
    decreases |p|
  {
    var s := p + [sep] + rest;
    if |p| == 0 {
      assert s[0] == sep && s[1..] == rest;
      assert cur + p == cur;
    } else {
      assert p[0] in p;
      assert sep !in p[1..] by {
        forall i | 0 <= i < |p[1..]| ensures p[1..][i] != sep { assert p[1..][i] == p[i + 1]; }
      }
      assert s[0] == p[0] && s[1..] == p[1..] + [sep] + rest;
      SplitFromPieceThenRest(p[1..], sep, rest, cur + [p[0]]);
      assert cur + [p[0]] + p[1..] == cur + p;
    }
  }

  /** Splitting on a separator undoes joining with it, as long as no piece
      contains the separator. */
  lemma {:induction false} SplitJoin(parts: seq<string>, sep: char)
    requires |parts| >= 1
    requires forall i :: 0 <= i < |parts| ==> sep !in parts[i]
    ensures Split(Join(parts, [sep]), sep) == parts
    decreases |parts|
  {
    if |parts| == 1 {
      SplitFromPiece(parts[0], sep, "");
      assert "" + parts[0] == parts[0];
    } else {
      SplitFromPieceThenRest(parts[0], sep, Join(parts[1..], [sep]), "");
      assert "" + parts[0] == parts[0];
      SplitJoin(parts[1..], sep);
      assert parts == [parts[0]] + parts[1..];
    }
  }

  /** QChar::isSpace: tab, line feed, vertical tab, form feed, carriage
      return, U+0085 and the Unicode space, line and paragraph separators. */
  predicate IsSpace(c: char)
  {
    var u := c as int;
    || u == 0x20 || 0x09 <= u <= 0x0d
    || u == 0x85 || u == 0xa0 || u == 0x1680 || 0x2000 <= u <= 0x200a
    || u == 0x2028 || u == 0x2029 || u == 0x202f || u == 0x205f || u == 0x3000
  }

  /** r is s[i..j], and everything of s outside i..j is white space. */
  predicate TrimmedAt(s: string, r: string, i: nat, j: nat)
  {
    i <= j <= |s| && r == s[i..j] &&
    (forall k :: 0 <= k < i ==> IsSpace(s[k])) &&
    (forall k :: j <= k < |s| ==> IsSpace(s[k]))
  }

  /** QString::trimmed: s with its leading and trailing white space removed. */
  function Trim(s: string): (r: string)
    ensures |r| <= |s|
    ensures |r| > 0 ==> !IsSpace(r[0]) && !IsSpace(r[|r| - 1])
    ensures exists i: nat, j: nat :: TrimmedAt(s, r, i, j)
    decreases |s|
  {
    if |s| > 0 && IsSpace(s[0]) then
      var r := Trim(s[1..]);
      assert exists i: nat, j: nat :: TrimmedAt(s, r, i, j) by {
        var i: nat, j: nat :| TrimmedAt(s[1..], r, i, j);
        TrimmedAfterFirst(s, r, i, j);
      }
      r
    else if |s| > 0 && IsSpace(s[|s| - 1]) then
      var r := Trim(s[..|s| - 1]);
      assert exists i: nat, j: nat :: TrimmedAt(s, r, i, j) by {
        var i: nat, j: nat :| TrimmedAt(s[..|s| - 1], r, i, j);
        TrimmedBeforeLast(s, r, i, j);
      }
      r
    else
      assert TrimmedAt(s, s, 0, |s|);
      s
  }

  lemma TrimmedAfterFirst(s: string, r: string, i: nat, j: nat)
    requires |s| > 0 && IsSpace(s[0]) && TrimmedAt(s[1..], r, i, j)
    ensures TrimmedAt(s, r, i + 1, j + 1)
  {
    assert r == s[i + 1..j + 1];
    forall k | 0 <= k < i + 1 ensures IsSpace(s[k]) {
      if k > 0 { assert s[k] == s[1..][k - 1]; }
    }
    forall k | j + 1 <= k < |s| ensures IsSpace(s[k]) {
      assert s[k] == s[1..][k - 1];
    }
  }

  lemma TrimmedBeforeLast(s: string, r: string, i: nat, j: nat)
    requires |s| > 0 && IsSpace(s[|s| - 1]) && TrimmedAt(s[..|s| - 1], r, i, j)
    ensures TrimmedAt(s, r, i, j)
  {
    assert r == s[i..j];
    forall k | 0 <= k < i ensures IsSpace(s[k]) {
      assert s[k] == s[..|s| - 1][k];
    }
    forall k | j <= k < |s| ensures IsSpace(s[k]) {
      if k < |s| - 1 { assert s[k] == s[..|s| - 1][k]; }
    }
  }

  predicate AllSpace(w: string)
  {
    forall k :: 0 <= k < |w| ==> IsSpace(w[k])
  }

  /** White space in front is trimmed away. */
  lemma {:induction false} TrimSpacePrefix(w: string, x: string)
    requires AllSpace(w)
    ensures Trim(w + x) == Trim(x)
    decreases |w|
  {
    if |w| > 0 {
      assert (w + x)[0] == w[0] && (w + x)[1..] == w[1..] + x;
      TrimSpacePrefix(w[1..], x);
    } else {
      assert w + x == x;
    }
  }

  /** White space behind is trimmed away. */
  lemma {:induction false} TrimSpaceSuffix(x: string, w: string)
    requires AllSpace(w)
    ensures Trim(x + w) == Trim(x)
    decreases |x| + |w|
  {
    if |w| == 0 {
      assert x + w == x;
    } else if |x| > 0 && IsSpace(x[0]) {
      assert (x + w)[0] == x[0] && (x + w)[1..] == x[1..] + w;
      TrimSpaceSuffix(x[1..], w);
    } else if |x| == 0 {
      assert x + w == w;
      TrimSpacePrefix(w, "");
      assert w + "" == w;
    } else {
      var n := |w| - 1;
      assert (x + w)[0] == x[0] && (x + w)[|x + w| - 1] == w[n];
      assert (x + w)[..|x + w| - 1] == x + w[..n];
      TrimSpaceSuffix(x, w[..n]);
    }
  }

  predicate AllDigits(s: string)
  {
    forall i :: 0 <= i < |s| ==> IsDigit(s[i])
  }

  const Int32Min: int := -0x8000_0000
  const Int32Max: int := 0x7fff_ffff

  /** s is a non-empty run of decimal digits. */
  predicate Decimal(s: string)
  {
    |s| > 0 && AllDigits(s)
  }

  /** s is written as v: decimal digits, optionally after a '+' or a '-'. */
  predicate Denotes(s: string, v: int)
  {
    || (Decimal(s) && v == DigitsValue(s))
    || (|s| > 0 && s[0] == '+' && Decimal(s[1..]) && v == DigitsValue(s[1..]))
    || (|s| > 0 && s[0] == '-' && Decimal(s[1..]) && v == 0 - DigitsValue(s[1..]))
  }

  /** The conversion of text that is already trimmed. */
  function ParseTrimmed(s: string): (r: Option<int>)
    ensures r.Some? ==> Int32Min <= r.value <= Int32Max && Denotes(s, r.value)
    ensures forall v :: Int32Min <= v <= Int32Max && Denotes(s, v) ==> r == Some(v)
  {
    var neg := |s| > 0 && s[0] == '-';
    var body := if |s| > 0 && (s[0] == '-' || s[0] == '+') then s[1..] else s;
    if |body| == 0 || !AllDigits(body) then None
    else
      var d: int := DigitsValue(body);
      var v := if neg then 0 - d else d;
      if Int32Min <= v <= Int32Max then Some(v) else None
  }

  /** QString::toInt(&ok) in base 10: surrounding white space is ignored, an
      optional sign is followed by at least one digit and nothing else, and
      the value must fit in 32 bits; otherwise the conversion fails. */
  function ParseInt(t: string): (r: Option<int>)
    ensures r.Some? ==> Int32Min <= r.value <= Int32Max && Denotes(Trim(t), r.value)
    ensures forall v :: Int32Min <= v <= Int32Max && Denotes(Trim(t), v) ==> r == Some(v)
  {
    ParseTrimmed(Trim(t))
  }

  lemma TrimNoSpaceEnds(s: string)
    requires |s| > 0 && !IsSpace(s[0]) && !IsSpace(s[|s| - 1])
    ensures Trim(s) == s
  {
  }

  /** Every 32-bit integer printed in decimal converts back to itself. */
  lemma {:induction false} ParseIntToString(n: int)
    requires Int32Min <= n <= Int32Max
    ensures ParseInt(IntToString(n)) == Some(n)
  {
    var s := IntToString(n);
    if n < 0 {
      var d := NatToString(-n);
      assert s == "-" + d && s[0] == '-' && s[1..] == d;
      assert IsDigit(s[|s| - 1]) by { assert s[|s| - 1] == d[|d| - 1]; }
      TrimNoSpaceEnds(s);
      DigitsOfNat(-n);
    } else {
      assert IsDigit(s[0]) && IsDigit(s[|s| - 1]);
      TrimNoSpaceEnds(s);
      DigitsOfNat(n);
    }
  }

  /** White space around a number does not change what it converts to, for
      every QChar space, not only the ASCII ones. */
  lemma SpaceAroundIgnored(w: string, t: string, w2: string)
    requires AllSpace(w) && AllSpace(w2)
    ensures ParseInt(w + t + w2) == ParseInt(t)
  {
    TrimSpacePrefix(w, t + w2);
    TrimSpaceSuffix(t, w2);
    assert w + t + w2 == w + (t + w2);
  }

  /** A text after a no-break space converts as the text alone. */
  lemma NoBreakSpaceTrimmed(t: string)
    ensures ParseInt("\U{A0}" + t) == ParseInt(t)
  {
    assert AllSpace("\U{A0}");
    SpaceAroundIgnored("\U{A0}", t, "");
    assert "\U{A0}" + t + "" == "\U{A0}" + t;
  }
}
