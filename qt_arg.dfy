/** QString::arg(const QString &) as Qt 6 performs it: the text is scanned
    for place markers, '%' with an optional 'L' and then one or two ASCII
    digits (two when two follow); every occurrence of the lowest-numbered
    marker is replaced by the value, and a text without markers is returned
    unchanged.  The value itself is not scanned again by this call, but a
    second chained call scans everything the first one inserted. */
module QtArg {

  import opened Json
  import opened Text

  datatype Marker = Marker(number: nat, length: nat)

  /** The marker the text starts with, if it starts with one. */
  function MarkerHead(s: string): (m: Option<Marker>)
    ensures m.Some? ==> |s| >= 2 && s[0] == '%' && 2 <= m.value.length <= |s| && m.value.number < 100
  {
    if |s| < 2 || s[0] != '%' then None
    else
      var j := if s[1] == 'L' then 2 else 1;
      if j >= |s| || !IsDigit(s[j]) then None
      else if j + 1 < |s| && IsDigit(s[j + 1]) then Some(Marker(DigitValue(s[j]) * 10 + DigitValue(s[j + 1]), j + 2))
      else Some(Marker(DigitValue(s[j]), j + 1))
  }

  function MinOpt(a: Option<nat>, b: Option<nat>): (r: Option<nat>)
    ensures r.None? <==> a.None? && b.None?
    ensures r.Some? ==> (r == a || r == b) && (a.Some? ==> r.value <= a.value) && (b.Some? ==> r.value <= b.value)
  {
    if a.None? then b
    else if b.None? then a
    else if a.value <= b.value then a else b
  }

  /** The lowest marker number in the text.  A marker's 'L' and digits are
      never '%', so looking for a marker at every position finds exactly the
      markers Qt's scan finds. */
  function LowestMarker(s: string): Option<nat>
    decreases |s|
  {
    if |s| == 0 then None
    else
      var rest := LowestMarker(s[1..]);
      match MarkerHead(s)
      case None => rest
      case Some(m) => MinOpt(Some(m.number), rest)
  }

  /** Every marker numbered n replaced by v; all other text copied. */
  function ReplaceMarkers(s: string, n: nat, v: string): string
    decreases |s|
  {
    if |s| == 0 then ""
    else
      match MarkerHead(s)
      case Some(m) =>
        if m.number == n then v + ReplaceMarkers(s[m.length..], n, v) else [s[0]] + ReplaceMarkers(s[1..], n, v)
      case None => [s[0]] + ReplaceMarkers(s[1..], n, v)
  }

  /** s.arg(v) */
  function Substitute(s: string, v: string): string
  {
    match LowestMarker(s)
    case None => s
    case Some(n) => ReplaceMarkers(s, n, v)
  }

  predicate NoPercent(s: string)
  {
    forall i :: 0 <= i < |s| ==> s[i] != '%'
  }

  lemma NoPercentAppend(x: string, y: string)
    requires NoPercent(x) && NoPercent(y)
    ensures NoPercent(x + y)
  {
    forall i | 0 <= i < |x + y| ensures (x + y)[i] != '%' {
      if i >= |x| { assert (x + y)[i] == y[i - |x|]; }
    }
  }

  /** No digit right after a marker, so the marker is not read as a
      two-digit one. */
  predicate NoLeadingDigit(s: string)
  {
    |s| == 0 || !IsDigit(s[0])
  }

  /** A character other than '%' starts no marker: it is copied and the
      scan goes on after it. */
  lemma PlainHead(s: string, n: nat, v: string)
    requires |s| > 0 && s[0] != '%'
    ensures LowestMarker(s) == LowestMarker(s[1..])
    ensures ReplaceMarkers(s, n, v) == [s[0]] + ReplaceMarkers(s[1..], n, v)
  {
    assert MarkerHead(s).None?;
  }

  lemma ConsAppend(x: string, z: string)
    requires |x| > 0
    ensures x + z == [x[0]] + (x[1..] + z)
  {
  }

  lemma SplitFirst(x: string, y: string)
    requires |x| > 0
    ensures (x + y)[0] == x[0] && (x + y)[1..] == x[1..] + y
  {
  }

  /** Text without '%' holds no marker and is copied unchanged. */
  lemma {:induction false} PlainPrefix(x: string, y: string, n: nat, v: string)
    requires NoPercent(x)
    ensures LowestMarker(x + y) == LowestMarker(y)
    ensures ReplaceMarkers(x + y, n, v) == x + ReplaceMarkers(y, n, v)
    decreases |x|
  {
    if |x| > 0 {
      SplitFirst(x, y);
      PlainHead(x + y, n, v);
      PlainPrefix(x[1..], y, n, v);
      ConsAppend(x, ReplaceMarkers(y, n, v));
    } else {
      assert x + y == y;
    }
  }

  lemma PlainAll(x: string, n: nat, v: string)
    requires NoPercent(x)
    ensures LowestMarker(x).None?
    ensures ReplaceMarkers(x, n, v) == x
  {
    PlainPrefix(x, "", n, v);
    assert x + "" == x;
  }

  /** A one-digit marker d at the front: it counts for the lowest number,
      and is replaced when it is the one being replaced. */
  lemma MarkerPrefix(d: char, y: string, n: nat, v: string)
    requires IsDigit(d) && NoLeadingDigit(y)
    ensures LowestMarker(['%', d] + y) == MinOpt(Some(DigitValue(d)), LowestMarker(y))
    ensures ReplaceMarkers(['%', d] + y, n, v) == (if n == DigitValue(d) then v else ['%', d]) + ReplaceMarkers(y, n, v)
  {
    var s := ['%', d] + y;
    assert s[0] == '%' && s[1] == d && s[2..] == y;
    assert MarkerHead(s) == Some(Marker(DigitValue(d), 2));
    var t := s[1..];
    assert t == [d] + y && t[0] == d && t[1..] == y;
    assert MarkerHead(t).None?;
    if n != DigitValue(d) {
      assert ['%', d] + ReplaceMarkers(y, n, v) == [s[0]] + ([t[0]] + ReplaceMarkers(t[1..], n, v));
    }
  }

  /** A text whose only marker is one d: arg puts the value in its place. */
  lemma OneMarker(pre: string, d: char, post: string, v: string)
    requires NoPercent(pre) && NoPercent(post) && IsDigit(d) && NoLeadingDigit(post)
    ensures Substitute(pre + ['%', d] + post, v) == pre + v + post
  {
    var n := DigitValue(d);
    var s := pre + (['%', d] + post);
    assert pre + ['%', d] + post == s;
    PlainPrefix(pre, ['%', d] + post, n, v);
    MarkerPrefix(d, post, n, v);
    PlainAll(post, n, v);
    assert LowestMarker(s) == Some(n);
    assert pre + (v + post) == pre + v + post;
  }

  /** In a template with %1 and %2 the lowest marker is 1. */
  lemma LowestOfTwo(pre: string, mid: string, post: string)
    requires NoPercent(pre) && NoPercent(mid) && NoPercent(post) && NoLeadingDigit(mid) && NoLeadingDigit(post)
    ensures LowestMarker(pre + (['%', '1'] + (mid + (['%', '2'] + post)))) == Some(1)
  {
    var tail := ['%', '2'] + post;
    PlainPrefix(pre, ['%', '1'] + (mid + tail), 1, "");
    MarkerPrefix('1', mid + tail, 1, "");
    PlainPrefix(mid, tail, 1, "");
    MarkerPrefix('2', post, 1, "");
    PlainAll(post, 1, "");
  }

  /** Replacing marker 1 in such a template fills %1 and keeps %2. */
  lemma ReplaceFirstOfTwo(pre: string, mid: string, post: string, a: string)
    requires NoPercent(pre) && NoPercent(mid) && NoPercent(post) && NoLeadingDigit(mid) && NoLeadingDigit(post)
    ensures ReplaceMarkers(pre + (['%', '1'] + (mid + (['%', '2'] + post))), 1, a) == pre + (a + (mid + (['%', '2'] + post)))
  {
    var tail := ['%', '2'] + post;
    PlainPrefix(pre, ['%', '1'] + (mid + tail), 1, a);
    MarkerPrefix('1', mid + tail, 1, a);
    PlainPrefix(mid, tail, 1, a);
    MarkerPrefix('2', post, 1, a);
    PlainAll(post, 1, a);
  }

  /** The first of two chained calls on a template with %1 and %2 fills %1
      and keeps %2, whatever the value. */
  lemma FirstOfTwo(pre: string, mid: string, post: string, a: string)
    requires NoPercent(pre) && NoPercent(mid) && NoPercent(post) && NoLeadingDigit(mid) && NoLeadingDigit(post)
    ensures Substitute(pre + "%1" + mid + "%2" + post, a) == pre + a + mid + "%2" + post
  {
    var s := pre + (['%', '1'] + (mid + (['%', '2'] + post)));
    assert pre + "%1" + mid + "%2" + post == s;
    LowestOfTwo(pre, mid, post);
    ReplaceFirstOfTwo(pre, mid, post, a);
    assert pre + (a + (mid + (['%', '2'] + post))) == pre + a + mid + "%2" + post;
  }

  /** Two chained calls on a template with %1 and %2 give plain
      substitution when the first value contains no '%'. */
  lemma TwoArgs(pre: string, mid: string, post: string, a: string, b: string)
    requires NoPercent(pre) && NoPercent(mid) && NoPercent(post) && NoLeadingDigit(mid) && NoLeadingDigit(post)
    requires NoPercent(a)
    ensures Substitute(Substitute(pre + "%1" + mid + "%2" + post, a), b) == pre + a + mid + b + post
  {
    FirstOfTwo(pre, mid, post, a);
    var front := pre + a + mid;
    assert NoPercent(front) by {
      forall i | 0 <= i < |front| ensures front[i] != '%' {
        if i < |pre| { assert front[i] == pre[i]; }
        else if i < |pre| + |a| { assert front[i] == a[i - |pre|]; }
        else { assert front[i] == mid[i - |pre| - |a|]; }
      }
    }
    OneMarker(front, '2', post, b);
    assert front + ['%', '2'] + post == pre + a + mid + "%2" + post;
  }

  /** Two chained calls on a template with %1 and %2, when the first value
      itself carries %1: the second call fills the inserted %1 and leaves %2
      in place, instead of giving the first value verbatim followed by the
      second in place of %2. */
  lemma FirstValueMarker(pre: string, mid: string, post: string, p: string, b: string)
    requires NoPercent(pre) && NoPercent(mid) && NoPercent(post) && NoLeadingDigit(mid) && NoLeadingDigit(post)
    requires NoPercent(p) && NoPercent(b) && b != ""
    ensures Substitute(Substitute(pre + "%1" + mid + "%2" + post, p + "%1"), b) == pre + p + b + mid + "%2" + post
    ensures Substitute(Substitute(pre + "%1" + mid + "%2" + post, p + "%1"), b) != pre + p + "%1" + mid + b + post
  {
    FirstOfTwo(pre, mid, post, p + "%1");
    NoPercentAppend(pre, p);
    FirstOfTwo(pre + p, mid, post, b);
    assert pre + (p + "%1") + mid + "%2" + post == (pre + p) + "%1" + mid + "%2" + post;
    var k := |pre| + |p|;
    assert (pre + p + b + mid + "%2" + post)[k] == b[0];
    assert (pre + p + "%1" + mid + b + post)[k] == '%';
  }

  /** In a template with marker d twice, the lowest marker is d. */
  lemma LowestOfSame(pre: string, d: char, mid: string, post: string)
    requires NoPercent(pre) && NoPercent(mid) && NoPercent(post) && NoLeadingDigit(mid) && NoLeadingDigit(post)
    requires IsDigit(d)
    ensures LowestMarker(pre + (['%', d] + (mid + (['%', d] + post)))) == Some(DigitValue(d))
  {
    var tail := ['%', d] + post;
    PlainPrefix(pre, ['%', d] + (mid + tail), 0, "");
    MarkerPrefix(d, mid + tail, 0, "");
    PlainPrefix(mid, tail, 0, "");
    MarkerPrefix(d, post, 0, "");
    PlainAll(post, 0, "");
  }

  /** Replacing marker d in such a template fills both places. */
  lemma ReplaceSame(pre: string, d: char, mid: string, post: string, v: string)
    requires NoPercent(pre) && NoPercent(mid) && NoPercent(post) && NoLeadingDigit(mid) && NoLeadingDigit(post)
    requires IsDigit(d)
    ensures ReplaceMarkers(pre + (['%', d] + (mid + (['%', d] + post))), DigitValue(d), v) == pre + (v + (mid + (v + post)))
  {
    var n := DigitValue(d);
    var tail := ['%', d] + post;
    PlainPrefix(pre, ['%', d] + (mid + tail), n, v);
    MarkerPrefix(d, mid + tail, n, v);
    PlainPrefix(mid, tail, n, v);
    MarkerPrefix(d, post, n, v);
    PlainAll(post, n, v);
  }

  /** Every occurrence of the lowest marker is replaced: a marker repeated
      takes the value at both places. */
  lemma SameTwice(pre: string, d: char, mid: string, post: string, v: string)
    requires NoPercent(pre) && NoPercent(mid) && NoPercent(post) && NoLeadingDigit(mid) && NoLeadingDigit(post)
    requires IsDigit(d)
    ensures Substitute(pre + ['%', d] + mid + ['%', d] + post, v) == pre + v + mid + v + post
  {
    var s := pre + (['%', d] + (mid + (['%', d] + post)));
    assert pre + ['%', d] + mid + ['%', d] + post == s;
    LowestOfSame(pre, d, mid, post);
    ReplaceSame(pre, d, mid, post, v);
    assert pre + (v + (mid + (v + post))) == pre + v + mid + v + post;
  }
}
