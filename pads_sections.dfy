/** The first half of `PADS.Parse`: the units named in the file header, the
    start offset of every control section, and the cut of the PARTDECAL
    section up to the next section start. */
module PadsSections {
  import opened Outcomes
  import opened Text
  import opened Units
  import opened PadsTables
  import opened Diagnostics

  /** A one-character pattern occurs exactly where that character stands. */
  lemma OccursAtChar(s: string, c: char, k: int)
    ensures OccursAt(s, [c], k) <==> 0 <= k < |s| && s[k] == c
  {
    if 0 <= k < |s| {
      assert s[k..k + 1] == [s[k]];
    }
  }

  // ---------------------------------------------------------------------
  // File header

  /** What the header yields: the units, where their name starts, and the
      position of the `!` that closes the header. */
  datatype FileHeader = FileHeader(units: PcbUnits, nameStart: nat, end: nat)

  /** The header `!PADS-...-NAME!`: the second `!` closes it and the unit
      name runs from just past the last `-` before it.  An empty file
      (`IndexOf` from 1 throws), a missing second `!` (`LastIndexOf` from -1
      throws) and an unknown name all throw. */
  function HeaderOf(contents: string): (r: Result<FileHeader, Fault>)
    ensures r.Success? ==>
      var h := r.value;
      1 <= h.end < |contents| && contents[h.end] == FileHeaderDesignator &&
      (forall k :: 1 <= k < h.end ==> contents[k] != FileHeaderDesignator) &&
      h.nameStart <= h.end && (h.nameStart == 0 || contents[h.nameStart - 1] == FileHeaderSeparator) &&
      (forall k :: h.nameStart <= k < h.end ==> contents[k] != FileHeaderSeparator) &&
      HeaderUnitsName(h.units) == Some(contents[h.nameStart..h.end])
    ensures (|contents| == 0 || forall k :: 1 <= k < |contents| ==> contents[k] != FileHeaderDesignator) ==>
      r == Failure(HeaderUnreadable)
  {
    if |contents| == 0 then Failure(HeaderUnreadable)
    else
      var i := IndexOf(contents, [FileHeaderDesignator], 1);
      if i < 0 then
        Failure(HeaderUnreadable)
      else
        OccursAtChar(contents, FileHeaderDesignator, i);
        IndexOfFirst(contents, [FileHeaderDesignator], 1);
        assert forall k :: 1 <= k < i ==> contents[k] != FileHeaderDesignator by {
          forall k | 1 <= k < i ensures contents[k] != FileHeaderDesignator {
            OccursAtChar(contents, FileHeaderDesignator, k);
          }
        }
        var j := LastIndexOfChar(contents, FileHeaderSeparator, i) + 1;
        match HeaderUnitsOf(contents[j..i])
        case None => Failure(HeaderUnreadable)
        case Some(u) =>
          HeaderUnitsInverse(u, contents[j..i]);
          Success(FileHeader(u, j, i))
  }

  /** A header written as `!`, any text without `!`, `-`, the name of
      `u` and `!` is read back as `u`. */
  lemma HeaderRoundTrip(u: PcbUnits, text: string, rest: string)
    requires HeaderUnitsName(u).Some?
    requires FileHeaderDesignator !in text
    ensures var name := HeaderUnitsName(u).value;
      var contents := [FileHeaderDesignator] + text + [FileHeaderSeparator] + name + [FileHeaderDesignator] + rest;
      HeaderOf(contents).Success? && HeaderOf(contents).value.units == u
  {
    var name := HeaderUnitsName(u).value;
    var contents := [FileHeaderDesignator] + text + [FileHeaderSeparator] + name + [FileHeaderDesignator] + rest;
    var e := |text| + 2 + |name|;
    HeaderLayout(text, name, rest);
    OccursAtChar(contents, FileHeaderDesignator, e);
    var i := IndexOf(contents, [FileHeaderDesignator], 1);
    IndexOfFirst(contents, [FileHeaderDesignator], 1);
    if i != e {
      OccursAtChar(contents, FileHeaderDesignator, i);
    }
    assert i == e;
    var j := LastIndexOfChar(contents, FileHeaderSeparator, i) + 1;
    assert j == |text| + 2;
    HeaderUnitsInverse(u, name);
  }

  /** Where the two `!` and the last `-` of such a header stand. */
  lemma HeaderLayout(text: string, name: string, rest: string)
    requires FileHeaderDesignator !in text && FileHeaderDesignator !in name && FileHeaderSeparator !in name
    ensures var contents := [FileHeaderDesignator] + text + [FileHeaderSeparator] + name + [FileHeaderDesignator] + rest;
      var e := |text| + 2 + |name|;
      e < |contents| && contents[e] == FileHeaderDesignator &&
      (forall k :: 1 <= k < e ==> contents[k] != FileHeaderDesignator) &&
      contents[|text| + 1] == FileHeaderSeparator &&
      (forall k :: |text| + 2 <= k <= e ==> contents[k] != FileHeaderSeparator) &&
      contents[|text| + 2..e] == name
  {
    var head := [FileHeaderDesignator] + text + [FileHeaderSeparator] + name;
    var contents := head + [FileHeaderDesignator] + rest;
    var e := |text| + 2 + |name|;
    assert forall k :: 0 <= k < e ==> contents[k] == head[k];
    forall k | 1 <= k < e
      ensures contents[k] != FileHeaderDesignator
      ensures |text| + 2 <= k ==> contents[k] != FileHeaderSeparator
    {
      if k <= |text| {
        assert head[k] == text[k - 1];
      } else if k > |text| + 1 {
        assert head[k] == name[k - |text| - 2];
      }
    }
    assert contents[|text| + 2..e] == head[|text| + 2..] == name;
  }

  // ---------------------------------------------------------------------
  // Section starts

  /** Where the section of `marker` starts: its first occurrence at or
      after `from`, then just past the next line feed (0 when there is
      none); one following line feed is skipped, and then a carriage return
      with the character after it.  Reading the character at the end of the
      text throws. */
  function SectionOffset(contents: string, from: nat, marker: string): (r: Result<Option<nat>, Fault>)
    requires from <= |contents|
    ensures (r == Success(None)) <==> IndexOf(contents, marker, from) < 0
    ensures r.Success? && r.value.Some? ==> r.value.value <= |contents| + 1
    ensures r.Success? && r.value.Some? && IndexOf(contents, [LineSeparator], IndexOf(contents, marker, from)) >= 0 ==>
      r.value.value > IndexOf(contents, marker, from)
  {
    var m := IndexOf(contents, marker, from);
    if m < 0 then Success(None)
    else
      var j := IndexOf(contents, [LineSeparator], m) + 1;
      if j < |contents| then
        var j' := if contents[j] == LineSeparator then j + 1 else j;
        if j' >= |contents| then Failure(SectionOffsetOutOfRange)
        else if contents[j'] == CaretReset then Success(Some(j' + 2))
        else Success(Some(j'))
      else Success(Some(j))
  }

  /** In the common layout, a marker line ended by a line feed and
      followed by ordinary text, the section starts on the next line. */
  lemma SectionOffsetNextLine(contents: string, from: nat, marker: string, m: nat, e: nat)
    requires from <= m && OccursAt(contents, marker, m)
    requires forall k :: from <= k < m ==> !OccursAt(contents, marker, k)
    requires m <= e < |contents| - 1 && contents[e] == LineSeparator && contents[e + 1] !in {LineSeparator, CaretReset}
    requires forall k :: m <= k < e ==> contents[k] != LineSeparator
    ensures SectionOffset(contents, from, marker) == Success(Some(e + 1))
  {
    var p := IndexOf(contents, marker, from);
    IndexOfFirst(contents, marker, from);
    assert p == m;
    OccursAtChar(contents, LineSeparator, e);
    var q := IndexOf(contents, [LineSeparator], m);
    IndexOfFirst(contents, [LineSeparator], m);
    if q != e {
      OccursAtChar(contents, LineSeparator, q);
    }
    assert q == e;
  }

  /** `sections`: the start of every control section found at or after
      `from`, indexed like `ControlStatements`; the loop stops at the first
      section whose start throws. */
  function SectionTable(contents: string, from: nat): (r: Result<seq<Option<nat>>, Fault>)
    requires from <= |contents|
    ensures r.Success? ==> (|r.value| == |ControlStatements| &&
      forall k :: 0 <= k < |ControlStatements| ==> SectionOffset(contents, from, ControlStatements[k]) == Success(r.value[k]))
    ensures r.Failure? ==> (r.error == SectionOffsetOutOfRange &&
      exists k :: 0 <= k < |ControlStatements| && SectionOffset(contents, from, ControlStatements[k]).Failure?)
  {
    if forall k :: 0 <= k < |ControlStatements| ==> SectionOffset(contents, from, ControlStatements[k]).Success? then
      Success(seq(|ControlStatements|, k requires 0 <= k < |ControlStatements| =>
        SectionOffset(contents, from, ControlStatements[k]).value))
    else Failure(SectionOffsetOutOfRange)
  }

  /** The `for` loop over `ControlStatements` filling `sections`. */
  method IndexSections(contents: string, from: nat) returns (r: Result<seq<Option<nat>>, Fault>)
    requires from <= |contents|
    ensures r == SectionTable(contents, from)
  {
    var table: seq<Option<nat>> := [];
    for k := 0 to |ControlStatements|
      invariant |table| == k
      invariant forall i :: 0 <= i < k ==> SectionOffset(contents, from, ControlStatements[i]) == Success(table[i])
    {
      var start := SectionStart(contents, from, ControlStatements[k]);
      if start.Failure? {
        return Failure(SectionOffsetOutOfRange);
      }
      table := table + [start.value];
    }
    assert table == seq(|ControlStatements|, k requires 0 <= k < |ControlStatements| =>
      SectionOffset(contents, from, ControlStatements[k]).value);
    r := Success(table);
  }

  /** One turn of that loop: where the section of `marker` starts. */
  method SectionStart(contents: string, from: nat, marker: string) returns (r: Result<Option<nat>, Fault>)
    requires from <= |contents|
    ensures r == SectionOffset(contents, from, marker)
  {
    var j := IndexOf(contents, marker, from);
    if j <= -1 {
      return Success(None);
    }
    var e := IndexOf(contents, [LineSeparator], j) + 1;
    if e < |contents| {
      if contents[e] == LineSeparator {
        e := e + 1;
      }
      if e >= |contents| {
        return Failure(SectionOffsetOutOfRange);
      }
      if contents[e] == CaretReset {
        e := e + 2;
      }
    }
    r := Success(Some(e));
  }


  // ---------------------------------------------------------------------
  // Section end

  /** `FindSectionEnd` over the first entries of the table: the least
      start beyond `start`, or `int.MaxValue` when it is smaller. */
  function SectionEnd(table: seq<Option<nat>>, start: int): (r: int)
    ensures r <= IntMax
    ensures forall k :: 0 <= k < |table| && table[k].Some? && table[k].value > start ==> r <= table[k].value
    ensures r == IntMax || (r > start && exists k :: 0 <= k < |table| && table[k] == Some(r))
  {
    if |table| == 0 then IntMax
    else
      var prev := SectionEnd(table[..|table| - 1], start);
      var last := table[|table| - 1];
      if last.Some? && last.value > start && last.value < prev then last.value else prev
  }

  /** `FindSectionEnd(sections, current)`: one pass over the dictionary,
      keeping the least start beyond `start`. */
  method FindSectionEnd(table: seq<Option<nat>>, start: int) returns (res: int)
    ensures res == SectionEnd(table, start)
  {
    res := IntMax;
    for k := 0 to |table|
      invariant res == SectionEnd(table[..k], start)
    {
      assert table[..k + 1][..k] == table[..k];
      if table[k].Some? {
        var v := table[k].value;
        if v > start && v < res {
          res := v;
        }
      }
    }
    assert table[..|table|] == table;
  }

  // ---------------------------------------------------------------------
  // The PARTDECAL cut

  /** What `Parse` hands on: the header units and the PARTDECAL text, or
      `None` where `Substring` threw (caught and reported). */
  datatype Cut = Cut(units: PcbUnits, section: Option<string>)

  /** Where the section search starts: just past the line feed after the
      header, or 0 when the header line has none. */
  function SectionsFrom(contents: string, h: FileHeader): (k: nat)
    requires h.end < |contents|
    ensures k <= |contents|
  {
    IndexOf(contents, [LineSeparator], h.end) + 1
  }

  function PartdecalCut(contents: string): (r: Result<Cut, Fault>)
    ensures r.Success? ==> HeaderOf(contents).Success? && r.value.units == HeaderOf(contents).value.units
  {
    match HeaderOf(contents)
    case Failure(f) => Failure(f)
    case Success(h) =>
      var from := SectionsFrom(contents, h);
      match SectionTable(contents, from)
      case Failure(f) => Failure(f)
      case Success(table) => SectionCut(contents, h.units, table)
  }

  /** The PARTDECAL section cut out of the text, given the section table:
      from its start to the next start beyond it, or nothing when that end
      lies past the text. */
  function SectionCut(contents: string, units: PcbUnits, table: seq<Option<nat>>): (r: Result<Cut, Fault>)
    requires PartdecalStatement < |table|
    ensures r.Success? ==> r.value.units == units
  {
    match table[PartdecalStatement]
    case None => Failure(PartdecalMissing)
    case Some(start) =>
      var end := SectionEnd(table, start);
      if start <= end <= |contents| then Success(Cut(units, Some(contents[start..end])))
      else Success(Cut(units, None))
  }

  /** Without a `*PARTDECAL*` marker after the header the source throws a
      `KeyNotFoundException` out of `Parse`. */
  lemma PartdecalMissingFails(contents: string)
    requires HeaderOf(contents).Success?
    requires var from := SectionsFrom(contents, HeaderOf(contents).value);
      SectionTable(contents, from).Success? &&
      IndexOf(contents, ControlStatements[PartdecalStatement], from) < 0
    ensures PartdecalCut(contents) == Failure(PartdecalMissing)
  {
    var from := SectionsFrom(contents, HeaderOf(contents).value);
    var table := SectionTable(contents, from).value;
    assert SectionOffset(contents, from, ControlStatements[PartdecalStatement]) == Success(table[PartdecalStatement]);
  }

  /** The cut holds the PARTDECAL section and no other: it starts where
      that section starts and no other section starts strictly inside it. */
  lemma CutHoldsOneSection(contents: string, units: PcbUnits, table: seq<Option<nat>>)
    requires PartdecalStatement < |table|
    requires SectionCut(contents, units, table).Success? && SectionCut(contents, units, table).value.section.Some?
    ensures table[PartdecalStatement].Some?
    ensures SectionCut(contents, units, table).value.section.value ==
      contents[table[PartdecalStatement].value..table[PartdecalStatement].value + |SectionCut(contents, units, table).value.section.value|]
    ensures forall k :: 0 <= k < |table| && table[k].Some? ==>
      !(table[PartdecalStatement].value < table[k].value <
        table[PartdecalStatement].value + |SectionCut(contents, units, table).value.section.value|)
  {
    var start := table[PartdecalStatement].value;
    var end := SectionEnd(table, start);
    assert SectionCut(contents, units, table).value.section.value == contents[start..end];
  }
}
