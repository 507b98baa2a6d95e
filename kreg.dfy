/** The table and argument helpers of the schema-registry command-line tool
    (src/kreg.cpp): the fixed-width table row, a schema's row of cells, and
    the comma-separated list of reference schema ids. */
module Kreg {

  import opened Json
  import opened Text
  import opened Registry
  import QtArg
  import opened Seqs

  function Abs(x: int): nat
  {
    if x < 0 then -x else x
  }

  function Max(a: nat, b: nat): nat
  {
    if a < b then b else a
  }

  function Spaces(n: nat): (r: string)
    ensures |r| == n && forall i :: 0 <= i < n ==> r[i] == ' '
  {
    if n == 0 then "" else Spaces(n - 1) + " "
  }

  /** QString("%1").arg(s, fieldWidth): s padded with spaces to |fieldWidth|
      characters, never cut; a negative width aligns it left, a positive
      one right. */
  function Arg(s: string, fieldWidth: int): (r: string)
    ensures |r| == Max(|s|, Abs(fieldWidth))
  {
    var pad := if |s| >= Abs(fieldWidth) then 0 else Abs(fieldWidth) - |s|;
    if fieldWidth < 0 then s + Spaces(pad) else Spaces(pad) + s
  }

  /** Where `arg` puts the text: first when the width is negative (or
      zero), last when it is positive, with spaces everywhere else. */
  lemma ArgAlignment(s: string, fieldWidth: int)
    ensures var r := Arg(s, fieldWidth);
      (fieldWidth <= 0 ==> r[..|s|] == s && forall i :: |s| <= i < |r| ==> r[i] == ' ') &&
      (fieldWidth > 0 ==> r[|r| - |s|..] == s && forall i :: 0 <= i < |r| - |s| ==> r[i] == ' ')
  {
  }

  /** The strings joined end to end, with no separator. */
  function Concat(parts: seq<string>): string
  {
    if parts == [] then "" else Concat(parts[..|parts| - 1]) + parts[|parts| - 1]
  }

  lemma ConcatSnoc(parts: seq<string>, x: string)
    ensures Concat(parts + [x]) == Concat(parts) + x
  {
    TakeOfSnoc(parts, x);
  }

  /** A slice inside the left part of a concatenation. */
  lemma SliceInLeft(full: string, left: string, right: string, start: nat, n: nat, x: string)
    requires full == left + right && start + n <= |left| && left[start..start + n] == x
    ensures full[start..start + n] == x
  {
    assert full[start..start + n] == left[start..start + n];
  }

  /** The start of a slice is a slice. */
  lemma SliceOfSlice(full: string, start: nat, part: string, n: nat, x: string)
    requires start + |part| <= |full| && full[start..start + |part|] == part
    requires n <= |part| && part[..n] == x
    ensures full[start..start + n] == x
  {
    assert full[start..start + n] == full[start..start + |part|][..n];
  }

  /** Part k of a concatenation sits where the parts before it end. */
  lemma {:induction false} ConcatPart(parts: seq<string>, k: nat)
    requires k < |parts|
    ensures |Concat(parts[..k])| + |parts[k]| <= |Concat(parts)|
    ensures Concat(parts)[|Concat(parts[..k])|..|Concat(parts[..k])| + |parts[k]|] == parts[k]
    decreases |parts|
  {
    var n := |parts| - 1;
    var left := Concat(parts[..n]);
    var full := Concat(parts);
    LastSplit(parts);
    ConcatSnoc(parts[..n], parts[n]);
    if k == n {
      TakeAll(parts[n]);
      assert full[|left|..|left| + |parts[n]|] == parts[n];
    } else {
      TakeTake(parts, n, k);
      ConcatPart(parts[..n], k);
      SliceInLeft(full, left, parts[n], |Concat(parts[..k])|, |parts[k]|, parts[k]);
    }
  }

  /** printTableRow's cells: cell i left-aligned to width widths[i]. */
  function Cells(row: seq<string>, widths: seq<int>): (cells: seq<string>)
    requires |row| <= |widths|
    ensures |cells| == |row|
    ensures forall i :: 0 <= i < |row| ==> cells[i] == Arg(row[i], -widths[i])
    ensures forall i :: 0 <= i < |row| && widths[i] >= 0 ==>
      |cells[i]| == Max(|row[i]|, widths[i]) && cells[i][..|row[i]|] == row[i] &&
      forall j :: |row[i]| <= j < |cells[i]| ==> cells[i][j] == ' '
  {
    seq(|row|, i requires 0 <= i < |row| => Arg(row[i], -widths[i]))
  }

  lemma CellsPrefix(row: seq<string>, widths: seq<int>, k: nat)
    requires k <= |row| <= |widths|
    ensures Cells(row, widths)[..k] == Cells(row[..k], widths)
  {
  }

  /** printTableRow's line: the padded cells, one after the other. */
  function FormatRow(row: seq<string>, widths: seq<int>): string
    requires |row| <= |widths|
  {
    Concat(Cells(row, widths))
  }

  /** The row up to cell i + 1 extends the row up to cell i by that cell. */
  lemma FormatRowStep(row: seq<string>, widths: seq<int>, i: nat)
    requires i < |row| <= |widths|
    ensures FormatRow(row[..i + 1], widths) == FormatRow(row[..i], widths) + Arg(row[i], -widths[i])
  {
    var cells := Cells(row[..i + 1], widths);
    CellsPrefix(row[..i + 1], widths, i);
    TakeSnoc(row, i);
    LastSplit(cells);
    ConcatSnoc(cells[..i], cells[i]);
  }

  /** The width the cells take: each cell's length or its column's width,
      whichever is larger. */
  function RowWidth(row: seq<string>, widths: seq<int>): nat
    requires |row| <= |widths|
  {
    if row == [] then 0
    else RowWidth(row[..|row| - 1], widths) + Max(|row[|row| - 1]|, Abs(widths[|row| - 1]))
  }

  lemma {:induction false} RowLength(row: seq<string>, widths: seq<int>)
    requires |row| <= |widths|
    ensures |FormatRow(row, widths)| == RowWidth(row, widths)
    decreases |row|
  {
    if row != [] {
      var n := |row| - 1;
      RowLength(row[..n], widths);
      FormatRowStep(row, widths, n);
      TakeAll(row);
    }
  }

  /** Part k of a concatenation starting with x puts x where the parts
      before it end. */
  lemma PartStartsWith(parts: seq<string>, k: nat, x: string)
    requires k < |parts| && |x| <= |parts[k]| && parts[k][..|x|] == x
    ensures |Concat(parts[..k])| + |x| <= |Concat(parts)|
    ensures Concat(parts)[|Concat(parts[..k])|..|Concat(parts[..k])| + |x|] == x
  {
    ConcatPart(parts, k);
    SliceOfSlice(Concat(parts), |Concat(parts[..k])|, parts[k], |x|, x);
  }

  /** The cells before column k take RowWidth of those columns. */
  lemma CellOffset(row: seq<string>, widths: seq<int>, k: nat)
    requires k <= |row| <= |widths|
    ensures |Concat(Cells(row, widths)[..k])| == RowWidth(row[..k], widths)
  {
    CellsPrefix(row, widths, k);
    RowLength(row[..k], widths);
  }

  /** With non-negative widths, cell k starts where the columns before it
      end, so the cells appear in order, none cut and no separator added. */
  lemma CellPosition(row: seq<string>, widths: seq<int>, k: nat)
    requires |row| <= |widths| && k < |row| && widths[k] >= 0
    ensures RowWidth(row[..k], widths) + |row[k]| <= |FormatRow(row, widths)|
    ensures FormatRow(row, widths)[RowWidth(row[..k], widths)..RowWidth(row[..k], widths) + |row[k]|] == row[k]
  {
    var cells := Cells(row, widths);
    var x := row[k];
    CellOffset(row, widths, k);
    ArgAlignment(x, -widths[k]);
    assert |x| <= |cells[k]| && cells[k][..|x|] == x;
    PartStartsWith(cells, k, x);
    assert FormatRow(row, widths) == Concat(cells);
  }

  /** printTableRow's loop, proved to build FormatRow. */
  method PrintTableRow(row: seq<string>, widths: seq<int>) returns (formattedRow: string)
    requires |row| <= |widths|
    ensures formattedRow == FormatRow(row, widths)
    ensures |formattedRow| == RowWidth(row, widths)
  {
    formattedRow := "";
    var i := 0;
    while i < |row|
      invariant 0 <= i <= |row|
      invariant formattedRow == FormatRow(row[..i], widths)
    {
      FormatRowStep(row, widths, i);
      formattedRow := formattedRow + Arg(row[i], -widths[i]);
      i := i + 1;
    }
    TakeAll(row);
    RowLength(row, widths);
  }

  /** A reference's entry in the listing: its subject and version put in
      place of the two markers, as intended.  The listing uses this one. */
  function RefEntry(r: Reference): string
  {
    "(subject " + r.subject + ", version " + IntToString(r.version) + ")"
  }

  /** The entry as the source builds it, with two chained arg calls: the
      second call also scans the subject the first one put in. */
  function RefEntryAsWritten(r: Reference): string
  {
    QtArg.Substitute(QtArg.Substitute("(subject %1, version %2)", r.subject), IntToString(r.version))
  }

  /** A subject without '%' gives the intended entry. */
  lemma RefEntryAsWrittenAgrees(r: Reference)
    requires QtArg.NoPercent(r.subject)
    ensures RefEntryAsWritten(r) == RefEntry(r)
  {
    assert "(subject %1, version %2)" == "(subject " + "%1" + ", version " + "%2" + ")";
    QtArg.TwoArgs("(subject ", ", version ", ")", r.subject, IntToString(r.version));
  }

  /** The entry shows the reference: the subject verbatim after
      "(subject ", and after ", version " a number that converts back to the
      version. */
  lemma RefEntryReadBack(r: Reference)
    ensures |RefEntry(r)| == |r.subject| + |IntToString(r.version)| + 20
    ensures RefEntry(r)[9..9 + |r.subject|] == r.subject
    ensures ParseInt(RefEntry(r)[19 + |r.subject|..|RefEntry(r)| - 1]) == Some(r.version)
  {
    var e := RefEntry(r);
    assert |"(subject "| == 9 && |", version "| == 10;
    var k := 9 + |r.subject|;
    var ver := IntToString(r.version);
    assert e == "(subject " + r.subject + ", version " + ver + ")";
    assert e[9..k] == r.subject;
    assert e[k + 10..|e| - 1] == ver;
    ParseIntToString(r.version);
  }

  /** A subject ending in "%1" (such as "a%1") takes the version in that
      marker's place, and the entry keeps a literal "%2": the text differs
      from the intended entry. */
  lemma RefEntrySubjectMarker(name: string, p: string, version: int32)
    requires QtArg.NoPercent(p)
    ensures RefEntryAsWritten(Reference(name, p + "%1", version)) == "(subject " + p + IntToString(version) + ", version %2)"
    ensures RefEntryAsWritten(Reference(name, p + "%1", version)) != RefEntry(Reference(name, p + "%1", version))
  {
    var ver := IntToString(version);
    assert "(subject %1, version %2)" == "(subject " + "%1" + ", version " + "%2" + ")";
    QtArg.FirstOfTwo("(subject ", ", version ", ")", p + "%1");
    var front := "(subject " + p;
    QtArg.NoPercentAppend("(subject ", p);
    assert "(subject " + (p + "%1") + ", version " + "%2" + ")" == front + "%1" + ", version " + "%2" + ")";
    QtArg.FirstOfTwo(front, ", version ", ")", ver);
    var written := "(subject " + p + ver + ", version %2)";
    assert front + ver + ", version " + "%2" + ")" == written;
    VersionStart(version);
    WrittenAt(p, ver);
    EntryAt(p, ver);
  }

  lemma VersionStart(v: int)
    ensures |IntToString(v)| > 0 && IntToString(v)[0] != '%'
  {
    if v >= 0 { assert IsDigit(NatToString(v)[0]); }
  }

  /** Where the marker was, the written entry holds the version... */
  lemma WrittenAt(p: string, ver: string)
    requires |ver| > 0
    ensures ("(subject " + p + ver + ", version %2)")[9 + |p|] == ver[0]
  {
    assert |"(subject "| == 9;
  }

  /** ...and the intended entry holds the subject's '%'. */
  lemma EntryAt(p: string, ver: string)
    ensures ("(subject " + (p + "%1") + ", version " + ver + ")")[9 + |p|] == '%'
  {
    assert |"(subject "| == 9;
  }

  function RefEntries(refs: seq<Reference>): (r: seq<string>)
    ensures |r| == |refs|
    ensures forall i :: 0 <= i < |refs| ==> r[i] == RefEntry(refs[i])
  {
    if refs == [] then [] else RefEntries(refs[..|refs| - 1]) + [RefEntry(refs[|refs| - 1])]
  }

  /** A schema's cells in the listing: id, subject, version, and the
      references joined by "," only when there are any. */
  function SchemaRow(s: Schema): seq<string>
  {
    [IntToString(s.schemaId), s.subject, IntToString(s.version)]
      + (if s.references == [] then [] else [Join(RefEntries(s.references), ",")])
  }

  /** The row has three cells, or four when the schema has references, so
      it always fits the listing's four columns; the id and version cells
      read back as the schema's numbers. */
  lemma SchemaRowReadBack(s: Schema)
    ensures var row := SchemaRow(s);
            && |row| == (if s.references == [] then 3 else 4)
            && ParseInt(row[0]) == Some(s.schemaId as int)
            && row[1] == s.subject
            && ParseInt(row[2]) == Some(s.version as int)
  {
    var row := SchemaRow(s);
    assert row[0] == IntToString(s.schemaId) && row[2] == IntToString(s.version);
    ParseIntToString(s.schemaId);
    ParseIntToString(s.version);
  }

  /** toStringList's loop over the references, proved to build SchemaRow. */
  method ToStringList(schema: Schema) returns (result: seq<string>)
    ensures result == SchemaRow(schema)
  {
    result := [IntToString(schema.schemaId), schema.subject, IntToString(schema.version)];
    var reflist: seq<string> := [];
    var i := 0;
    while i < |schema.references|
      invariant 0 <= i <= |schema.references|
      invariant reflist == RefEntries(schema.references[..i])
    {
      TakeSnoc(schema.references, i);
      reflist := reflist + [RefEntry(schema.references[i])];
      i := i + 1;
    }
    TakeAll(schema.references);
    if reflist != [] {
      result := result + [Join(reflist, ",")];
    }
  }

  /** The tokens that convert to integers, in order. */
  function KeepInts(tokens: seq<string>): (ids: seq<int32>)
    ensures |ids| <= |tokens|
  {
    if tokens == [] then []
    else
      var rest := KeepInts(tokens[..|tokens| - 1]);
      var p := ParseInt(tokens[|tokens| - 1]);
      if p.Some? then rest + [p.value as int32] else rest
  }

  /** The reference ids given on the command line: the comma-separated
      tokens that are integers; nothing for an empty argument. */
  function ReferenceIds(s: string): seq<int32>
  {
    if s == "" then [] else KeepInts(Split(s, ','))
  }

  method ParseReferenceIds(referenceIds: string) returns (references: seq<int32>)
    ensures references == ReferenceIds(referenceIds)
  {
    references := [];
    if referenceIds != "" {
      var tokens := Split(referenceIds, ',');
      var i := 0;
      while i < |tokens|
        invariant 0 <= i <= |tokens|
        invariant references == KeepInts(tokens[..i])
      {
        TakeSnoc(tokens, i);
        var id := ParseInt(tokens[i]);
        if id.Some? {
          references := references + [id.value as int32];
        }
        i := i + 1;
      }
      TakeAll(tokens);
    }
  }

  function IdStrings(ids: seq<int32>): (r: seq<string>)
    ensures |r| == |ids|
    ensures forall i :: 0 <= i < |ids| ==> r[i] == IntToString(ids[i])
  {
    if ids == [] then [] else IdStrings(ids[..|ids| - 1]) + [IntToString(ids[|ids| - 1])]
  }

  lemma NoCommaInNumber(n: int)
    ensures ',' !in IntToString(n)
  {
    var s := IntToString(n);
    if n < 0 {
      assert forall i :: 1 <= i < |s| ==> s[i] == NatToString(-n)[i - 1];
    }
  }

  /** A last token that converts adds its value at the end. */
  lemma KeepIntsSnoc(init: seq<string>, token: string, v: int32)
    requires ParseInt(token) == Some(v as int)
    ensures KeepInts(init + [token]) == KeepInts(init) + [v]
  {
    TakeOfSnoc(init, token);
  }

  /** A last token that does not convert is dropped. */
  lemma KeepIntsDrop(init: seq<string>, token: string)
    requires ParseInt(token).None?
    ensures KeepInts(init + [token]) == KeepInts(init)
  {
    TakeOfSnoc(init, token);
  }

  /** The last token adds what it adds on its own. */
  lemma KeepIntsLast(init: seq<string>, token: string)
    ensures KeepInts(init + [token]) == KeepInts(init) + KeepInts([token])
  {
    TakeOfSnoc(init, token);
    TakeOfSnoc([], token);
    assert [] + [token] == [token];
  }

  /** The ids kept from two runs of tokens are those of each, in order. */
  lemma {:induction false} KeepIntsAppend(a: seq<string>, b: seq<string>)
    ensures KeepInts(a + b) == KeepInts(a) + KeepInts(b)
    decreases |b|
  {
    if b == [] {
      assert a + b == a;
    } else {
      var init, t := b[..|b| - 1], b[|b| - 1];
      KeepIntsAppend(a, init);
      LastSplit(b);
      AppendSnoc(a, init, t);
      KeepIntsLast(a + init, t);
      KeepIntsLast(init, t);
      AppendAssoc(KeepInts(a), KeepInts(init), KeepInts([t]));
    }
  }

  /** Tokens that all convert are all kept, in order. */
  lemma {:induction false} KeepIntsAllConvert(tokens: seq<string>, ids: seq<int32>)
    requires |tokens| == |ids|
    requires forall i :: 0 <= i < |tokens| ==> ParseInt(tokens[i]) == Some(ids[i] as int)
    ensures KeepInts(tokens) == ids
    decreases |tokens|
  {
    if tokens != [] {
      var n := |tokens| - 1;
      KeepIntsAllConvert(tokens[..n], ids[..n]);
      LastSplit(tokens);
      LastSplit(ids);
      KeepIntsSnoc(tokens[..n], tokens[n], ids[n]);
    }
  }

  lemma KeepIntsOfNumbers(ids: seq<int32>)
    ensures KeepInts(IdStrings(ids)) == ids
  {
    var tokens := IdStrings(ids);
    forall i | 0 <= i < |tokens|
      ensures ParseInt(tokens[i]) == Some(ids[i] as int)
    {
      ParseIntToString(ids[i]);
    }
    KeepIntsAllConvert(tokens, ids);
  }

  /** Ids written out as the tool expects them are read back unchanged. */
  lemma {:induction false} ReferenceIdsRoundTrip(ids: seq<int32>)
    ensures ReferenceIds(Join(IdStrings(ids), ",")) == ids
  {
    var parts := IdStrings(ids);
    if ids != [] {
      forall i | 0 <= i < |parts| ensures ',' !in parts[i] {
        NoCommaInNumber(ids[i]);
      }
      SplitJoin(parts, ',');
      JoinNonEmpty(parts);
      KeepIntsOfNumbers(ids);
    }
  }

  lemma {:induction false} JoinNonEmpty(parts: seq<string>)
    requires |parts| >= 1 && forall i :: 0 <= i < |parts| ==> |parts[i]| > 0
    ensures Join(parts, ",") != ""
  {
    if |parts| > 1 {
      assert |Join(parts, ",")| >= |parts[0]|;
    }
  }
}
