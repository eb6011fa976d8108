/** agent_build/package_builders.py, `parse_change_log` and `print_release_notes`: CHANGELOG.md is
    filtered of comments, reversed into a stack of lines, and read release by release; the notes of
    a release nest up to three levels, told apart by the prefix of each line. */
module ChangeLog {
  import opened Wrappers
  import opened Strings

  // ---------------------------------------------------------------------------------------------
  // The section delimiters

  /** `[^\s\*\-#]` matched at the start: a plain first-level line. */
  predicate PlainLine(line: string)
  {
    |line| > 0 && !IsSpace(line[0]) && line[0] != '*' && line[0] != '-' && line[0] != '#'
  }

  /** The pattern `\* ` matched at the start. */
  predicate Bullet(line: string)
  {
    |line| >= 2 && line[0] == '*' && line[1] == ' '
  }

  /** The pattern `    - ` matched at the start. */
  predicate SubBullet(line: string)
  {
    |line| >= 6 && line[0] == ' ' && line[1] == ' ' && line[2] == ' ' && line[3] == ' ' && line[4] == '-' && line[5] == ' '
  }

  /** The pattern `## ` matched at the start. */
  predicate HeaderMark(line: string)
  {
    |line| >= 3 && line[0] == '#' && line[1] == '#' && line[2] == ' '
  }

  /** Each literal pattern matches exactly the lines that start with it. */
  lemma PatternsArePrefixes(line: string)
    ensures Bullet(line) == StartsWith(line, "* ")
    ensures SubBullet(line) == StartsWith(line, "    - ")
    ensures HeaderMark(line) == StartsWith(line, "## ")
  {
    if |line| >= 2 && line[0] == '*' && line[1] == ' ' { assert line[..2] == "* "; }
    if SubBullet(line) { assert line[..6] == "    - "; }
    if HeaderMark(line) { assert line[..3] == "## "; }
  }

  /** The `same` pattern of each level. */
  predicate Same(level: nat, line: string)
  {
    if level == 0 then PlainLine(line)
    else if level == 1 then Bullet(line)
    else SubBullet(line)
  }

  /** The `up` pattern of each level. */
  predicate Up(level: nat, line: string)
  {
    if level == 0 then HeaderMark(line)
    else if level == 1 then PlainLine(line)
    else Bullet(line)
  }

  /** The `down` pattern of each level; the third level has none. */
  predicate Down(level: nat, line: string)
  {
    if level == 0 then Bullet(line)
    else if level == 1 then SubBullet(line)
    else false
  }

  /** The `up` pattern of any level from the first to `level`. */
  predicate UpTo(level: nat, line: string)
  {
    Up(0, line) || (level >= 1 && Up(1, line)) || (level >= 2 && Up(2, line))
  }

  /** The prefix each level strips from its lines. */
  function Prefix(level: nat): (p: string)
    ensures |p| <= 6
  {
    if level == 0 then "" else if level == 1 then "* " else "    - "
  }

  /** A line that matches a level's `same` pattern starts with that level's prefix and is not blank. */
  lemma SameHasPrefix(level: nat, line: string)
    requires Same(level, line)
    ensures StartsWith(line, Prefix(level)) && line != ""
  {
    PatternsArePrefixes(line);
  }

  /** Going down one level is matching the next level's `same` pattern. */
  lemma DownIsNextSame(level: nat, line: string)
    requires Down(level, line)
    ensures level < 2 && Same(level + 1, line)
  {
  }

  /** A release header ends the section at every level: it is no level's `same` line. */
  lemma HeaderEndsEveryLevel(level: nat, line: string)
    requires StartsWith(line, "## ")
    ensures !Same(level, line) && UpTo(level, line)
  {
    PatternsArePrefixes(line);
  }

  // ---------------------------------------------------------------------------------------------
  // read_section

  /** A note: a line of text, or the sublist that follows it. */
  datatype Note = Line(text: string) | Sub(notes: seq<Note>)

  /** What a section read leaves: its notes, and the lines still on the stack. */
  datatype Section = Section(notes: seq<Note>, rest: seq<string>)

  function Last(lines: seq<string>): string
    requires lines != []
  {
    lines[|lines| - 1]
  }

  function BadLine(level: nat, line: string): Error
  {
    BadChangeLogFormat("Release not line did not match expect format at level " + NatToString(level) + ": " + line)
  }

  /** The while loop of `read_section(lines, level)`, with what it has gathered so far in `acc`. The
      next line is the last one of `lines`. A line at this level is popped and kept without its
      prefix; a line that belongs to an outer level stays on the stack and ends the section; a line
      of the next level opens a sublist, read by a nested call; any other line is an error.
      The stack only ever loses lines from its end, and a section that starts with a line of its
      own level consumes that line. */
  function ReadLoop(lines: seq<string>, level: nat, acc: seq<Note>): (r: Result<Section>)
    requires level <= 2
    ensures r.Ok? ==> |r.value.rest| <= |lines|
    ensures r.Ok? && lines != [] && Same(level, Last(lines)) ==> |r.value.rest| < |lines|
    decreases |lines|, 2 - level
  {
    if lines == [] then Ok(Section(acc, []))
    else
      var line := Last(lines);
      var below := lines[..|lines| - 1];
      if Same(level, line) then ReadLoop(below, level, acc + [Line(line[|Prefix(level)|..])])
      else if UpTo(level, line) then Ok(Section(acc, lines))
      else if Down(level, line) then
        var sub := ReadLoop(lines, level + 1, []);
        if sub.Err? then sub
        else ReadLoop(sub.value.rest, level, acc + [Sub(sub.value.notes)])
      else Err(BadLine(level, line))
  }

  /** The stack only ever loses lines from its end: what a section leaves is the bottom of the
      stack it started with. */
  lemma {:induction false} ReadLeavesBottom(lines: seq<string>, level: nat, acc: seq<Note>)
    requires level <= 2 && ReadLoop(lines, level, acc).Ok?
    ensures var rest := ReadLoop(lines, level, acc).value.rest; rest == lines[..|rest|]
    decreases |lines|, 2 - level
  {
    if lines != [] {
      var line := Last(lines);
      var below := lines[..|lines| - 1];
      var rest := ReadLoop(lines, level, acc).value.rest;
      if Same(level, line) {
        ReadLeavesBottom(below, level, acc + [Line(line[|Prefix(level)|..])]);
        assert below[..|rest|] == lines[..|rest|];
      } else if UpTo(level, line) {
      } else {
        DownIsNextSame(level, line);
        var sub := ReadLoop(lines, level + 1, []).value;
        ReadLeavesBottom(lines, level + 1, []);
        ReadLeavesBottom(sub.rest, level, acc + [Sub(sub.notes)]);
        assert sub.rest[..|rest|] == lines[..|rest|];
      }
    }
  }

  /** `read_section(lines, level)`. */
  function ReadSectionSpec(lines: seq<string>, level: nat): Result<Section>
    requires level <= 2
  {
    ReadLoop(lines, level, [])
  }

  /** An empty stack reads as no notes. */
  lemma EmptyReadsNothing(level: nat)
    requires level <= 2
    ensures ReadSectionSpec([], level) == Ok(Section([], []))
  {
  }

  /** A line of this level is kept without its prefix, ahead of what the rest of the stack reads to. */
  lemma {:induction false} SameLineKept(lines: seq<string>, line: string, level: nat)
    requires level <= 2 && Same(level, line)
    ensures var r := ReadSectionSpec(lines + [line], level);
      var s := ReadSectionSpec(lines, level);
      r.Ok? == s.Ok? && (r.Ok? ==> r.value == Section([Line(line[|Prefix(level)|..])] + s.value.notes, s.value.rest))
  {
    assert Last(lines + [line]) == line && (lines + [line])[..|lines|] == lines;
    assert [] + [Line(line[|Prefix(level)|..])] == [Line(line[|Prefix(level)|..])];
    Accumulated(lines, level, [Line(line[|Prefix(level)|..])]);
  }

  /** A line of an outer level is left on the stack and the section ends with nothing read. */
  lemma OuterLineEndsSection(lines: seq<string>, line: string, level: nat)
    requires level <= 2 && !Same(level, line) && UpTo(level, line)
    ensures ReadSectionSpec(lines + [line], level) == Ok(Section([], lines + [line]))
  {
    assert Last(lines + [line]) == line;
  }

  /** A line that fits no pattern of the level is a `BadChangeLogFormat`; at the third level, that is
      any line that is not of the third, second or first level. */
  lemma StrayLineRejected(lines: seq<string>, line: string, level: nat)
    requires level <= 2 && !Same(level, line) && !UpTo(level, line) && !Down(level, line)
    ensures ReadSectionSpec(lines + [line], level) == Err(BadLine(level, line))
  {
    assert Last(lines + [line]) == line;
  }

  /** What was gathered before is kept in front, and does not change what is read after it. */
  lemma {:induction false} Accumulated(lines: seq<string>, level: nat, acc: seq<Note>)
    requires level <= 2
    ensures var r := ReadLoop(lines, level, acc);
      var s := ReadLoop(lines, level, []);
      r.Ok? == s.Ok? && (r.Ok? ==> r.value == Section(acc + s.value.notes, s.value.rest))
      && (r.Err? ==> r.error == s.error)
    decreases |lines|, 2 - level
  {
    if lines != [] {
      var line := Last(lines);
      var below := lines[..|lines| - 1];
      if Same(level, line) {
        var n := Line(line[|Prefix(level)|..]);
        Accumulated(below, level, acc + [n]);
        Accumulated(below, level, [n]);
        assert [] + [n] == [n];
        var t := ReadLoop(below, level, []);
        if t.Ok? {
          assert acc + [n] + t.value.notes == acc + ([n] + t.value.notes);
        }
      } else if !UpTo(level, line) && Down(level, line) {
        var sub := ReadLoop(lines, level + 1, []);
        if sub.Ok? {
          DownIsNextSame(level, line);
          var n := Sub(sub.value.notes);
          Accumulated(sub.value.rest, level, acc + [n]);
          Accumulated(sub.value.rest, level, [n]);
          assert [] + [n] == [n];
          var t := ReadLoop(sub.value.rest, level, []);
          if t.Ok? {
            assert acc + [n] + t.value.notes == acc + ([n] + t.value.notes);
          }
        }
      }
    }
  }

  // ---------------------------------------------------------------------------------------------
  // Nesting depth

  /** How deep the notes nest: a line has depth 0, a sublist one more than its notes. */
  function Depth(notes: seq<Note>): nat
    decreases notes
  {
    if notes == [] then 0 else Max(Depth(notes[..|notes| - 1]), NoteDepth(notes[|notes| - 1]))
  }

  function NoteDepth(n: Note): nat
    decreases n
  {
    match n
    case Line(_) => 0
    case Sub(ns) => 1 + Depth(ns)
  }

  function Max(a: nat, b: nat): nat { if a < b then b else a }

  lemma {:induction false} DepthAppend(a: seq<Note>, b: seq<Note>)
    ensures Depth(a + b) == Max(Depth(a), Depth(b))
    decreases |b|
  {
    if b == [] {
      assert a + b == a;
    } else {
      var c := b[..|b| - 1];
      assert (a + b)[..|a + b| - 1] == a + c && (a + b)[|a + b| - 1] == b[|b| - 1];
      DepthAppend(a, c);
    }
  }

  lemma DepthOne(n: Note)
    ensures Depth([n]) == NoteDepth(n)
  {
    assert [n][..0] == [];
  }

  lemma {:induction false} DepthPrefix(notes: seq<Note>, i: nat)
    requires i <= |notes|
    ensures Depth(notes[..i]) <= Depth(notes)
  {
    DepthAppend(notes[..i], notes[i..]);
    assert notes[..i] + notes[i..] == notes;
  }

  /** Notes read at `level` nest at most `2 - level` deep: three levels in all. */
  lemma {:induction false} ReadDepth(lines: seq<string>, level: nat, acc: seq<Note>)
    requires level <= 2 && Depth(acc) <= 2 - level && ReadLoop(lines, level, acc).Ok?
    ensures Depth(ReadLoop(lines, level, acc).value.notes) <= 2 - level
    decreases |lines|, 2 - level
  {
    if lines != [] {
      var line := Last(lines);
      var below := lines[..|lines| - 1];
      if Same(level, line) {
        var n := Line(line[|Prefix(level)|..]);
        assert ReadLoop(lines, level, acc) == ReadLoop(below, level, acc + [n]);
        DepthSnoc(acc, n);
        ReadDepth(below, level, acc + [n]);
      } else if !UpTo(level, line) {
        DownIsNextSame(level, line);
        var sub := ReadLoop(lines, level + 1, []);
        ReadDepth(lines, level + 1, []);
        var n := Sub(sub.value.notes);
        assert ReadLoop(lines, level, acc) == ReadLoop(sub.value.rest, level, acc + [n]);
        DepthSnoc(acc, n);
        ReadDepth(sub.value.rest, level, acc + [n]);
      }
    }
  }

  lemma DepthSnoc(acc: seq<Note>, n: Note)
    ensures Depth(acc + [n]) == Max(Depth(acc), NoteDepth(n))
  {
    assert (acc + [n])[..|acc|] == acc;
  }


  // ---------------------------------------------------------------------------------------------
  // print_release_notes

  /** The lines `print_release_notes(notes, prefixes, level)` writes: the notes one after the other,
      each as `PrintNote` writes it. */
  function PrintNotes(notes: seq<Note>, prefixes: seq<string>, level: nat): seq<string>
    requires level + Depth(notes) < |prefixes|
    decreases notes
  {
    if notes == [] then []
    else PrintNotes(notes[..|notes| - 1], prefixes, level) + PrintNote(notes[|notes| - 1], prefixes, level)
  }

  /** One note: a line behind the prefix of its level, a sublist at the next level followed by an
      empty line when it is a sublist of the first level. */
  function PrintNote(n: Note, prefixes: seq<string>, level: nat): seq<string>
    requires level + NoteDepth(n) < |prefixes|
    decreases n
  {
    match n
    case Line(t) => [prefixes[level] + t]
    case Sub(ns) => PrintNotes(ns, prefixes, level + 1) + (if level == 0 then [""] else [])
  }

  /** Printing a list is printing its parts one after the other. */
  lemma {:induction false} PrintAppend(a: seq<Note>, b: seq<Note>, prefixes: seq<string>, level: nat)
    requires level + Depth(a) < |prefixes| && level + Depth(b) < |prefixes|
    ensures level + Depth(a + b) < |prefixes|
      && PrintNotes(a + b, prefixes, level) == PrintNotes(a, prefixes, level) + PrintNotes(b, prefixes, level)
    decreases |b|
  {
    DepthAppend(a, b);
    if b == [] {
      assert a + b == a;
    } else {
      var c, x := b[..|b| - 1], b[|b| - 1];
      assert a + b == (a + c) + [x] && b == c + [x];
      DepthAppend(a, c);
      PrintAppend(a, c, prefixes, level);
      var pa, pc, px := PrintNotes(a, prefixes, level), PrintNotes(c, prefixes, level), PrintNote(x, prefixes, level);
      assert PrintNotes(a + b, prefixes, level) == PrintNotes(a + c, prefixes, level) + px by {
        assert (a + b)[..|a + b| - 1] == a + c;
      }
      assert PrintNotes(b, prefixes, level) == pc + px;
      AppendTwice(pa, pc, px);
    }
  }

  /** One more note printed. */
  lemma PrintStep(notes: seq<Note>, i: nat, prefixes: seq<string>, level: nat)
    requires i < |notes| && level + Depth(notes) < |prefixes|
    ensures level + NoteDepth(notes[i]) < |prefixes|
    ensures level + Depth(notes[..i]) < |prefixes| && level + Depth(notes[..i + 1]) < |prefixes|
    ensures PrintNotes(notes[..i + 1], prefixes, level) == PrintNotes(notes[..i], prefixes, level) + PrintNote(notes[i], prefixes, level)
  {
    DepthPrefix(notes, i + 1);
    assert notes[..i + 1][..i] == notes[..i];
  }

  lemma AppendTwice<T>(a: seq<T>, b: seq<T>, c: seq<T>)
    ensures a + b + c == a + (b + c)
  {
  }

  /** The file a release's notes are printed to. */
  class NotesFile {
    var lines: seq<string>

    constructor ()
      ensures lines == []
    {
      lines := [];
    }

    /** `print_release_notes(self, notes, prefixes, level)`: the loop over the notes, printing as
        it goes. */
    method PrintReleaseNotes(notes: seq<Note>, prefixes: seq<string>, level: nat)
      requires level + Depth(notes) < |prefixes|
      modifies this
      ensures lines == old(lines) + PrintNotes(notes, prefixes, level)
      decreases notes
    {
      var prefix := prefixes[level];
      for i := 0 to |notes|
        invariant level + Depth(notes[..i]) < |prefixes|
        invariant lines == old(lines) + PrintNotes(notes[..i], prefixes, level)
      {
        PrintStep(notes, i, prefixes, level);
        AppendTwice(old(lines), PrintNotes(notes[..i], prefixes, level), PrintNote(notes[i], prefixes, level));
        match notes[i] {
          case Sub(ns) =>
            PrintReleaseNotes(ns, prefixes, level + 1);
            if level == 0 {
              lines := lines + [""];
            }
          case Line(t) =>
            lines := lines + [prefix + t];
        }
      }
      assert notes[..|notes|] == notes;
    }
  }

  // ---------------------------------------------------------------------------------------------
  // Reading back what is printed

  /** The prefixes of the change log itself. */
  const SectionPrefixes: seq<string> := ["", "* ", "    - "]

  /** The printed lines that are not blank. */
  function NonBlank(xs: seq<string>): (r: seq<string>)
    ensures "" !in r
  {
    if xs == [] then [] else (if xs[0] == "" then [] else [xs[0]]) + NonBlank(xs[1..])
  }

  lemma {:induction false} NonBlankAppend(a: seq<string>, b: seq<string>)
    ensures NonBlank(a + b) == NonBlank(a) + NonBlank(b)
    decreases |a|
  {
    if a == [] {
      assert a + b == b;
    } else {
      assert (a + b)[0] == a[0] && (a + b)[1..] == a[1..] + b;
      NonBlankAppend(a[1..], b);
    }
  }

  /** The lines popped off the stack, in the order they were popped (file order). */
  function Reverse(xs: seq<string>): (r: seq<string>)
    ensures |r| == |xs|
  {
    if xs == [] then [] else [xs[|xs| - 1]] + Reverse(xs[..|xs| - 1])
  }

  lemma {:induction false} ReverseAppend(a: seq<string>, b: seq<string>)
    ensures Reverse(a + b) == Reverse(b) + Reverse(a)
    decreases |b|
  {
    if b == [] {
      assert a + b == a;
    } else {
      assert (a + b)[|a + b| - 1] == b[|b| - 1] && (a + b)[..|a + b| - 1] == a + b[..|b| - 1];
      ReverseAppend(a, b[..|b| - 1]);
    }
  }

  /** Lines popped down to `k` are those popped down to `|r|`, then those popped from `r` down to
      `k`. */
  lemma PoppedThrough(lines: seq<string>, r: seq<string>, k: nat)
    requires |r| <= |lines| && r == lines[..|r|] && k <= |r|
    ensures Reverse(lines[k..]) == Reverse(lines[|r|..]) + Reverse(r[k..])
  {
    assert lines[k..] == r[k..] + lines[|r|..];
    ReverseAppend(r[k..], lines[|r|..]);
  }

  lemma ReverseOne(line: string)
    ensures Reverse([line]) == [line]
  {
    assert [line][..0] == [];
  }

  /** Printing the notes of a section with the change log's own prefixes gives back, blank lines
      aside, exactly the lines the section consumed, in file order. */
  lemma {:induction false} ReadThenPrint(lines: seq<string>, level: nat, acc: seq<Note>)
    requires level <= 2 && Depth(acc) <= 2 - level && ReadLoop(lines, level, acc).Ok?
    ensures var s := ReadLoop(lines, level, acc).value;
      Depth(s.notes) <= 2 - level && NonBlank(PrintNotes(s.notes, SectionPrefixes, level))
        == NonBlank(PrintNotes(acc, SectionPrefixes, level)) + Reverse(lines[|s.rest|..])
    decreases |lines|, 2 - level, 1
  {
    ReadDepth(lines, level, acc);
    if lines == [] {
    } else if Same(level, Last(lines)) {
      SameThenPrint(lines, level, acc);
    } else if UpTo(level, Last(lines)) {
      assert lines[|lines|..] == [];
    } else {
      DownThenPrint(lines, level, acc);
    }
  }

  /** `ReadThenPrint` when the next line is of the level. */
  lemma {:induction false} SameThenPrint(lines: seq<string>, level: nat, acc: seq<Note>)
    requires level <= 2 && Depth(acc) <= 2 - level && ReadLoop(lines, level, acc).Ok?
    requires lines != [] && Same(level, Last(lines))
    ensures var s := ReadLoop(lines, level, acc).value;
      Depth(s.notes) <= 2 - level && NonBlank(PrintNotes(s.notes, SectionPrefixes, level))
        == NonBlank(PrintNotes(acc, SectionPrefixes, level)) + Reverse(lines[|s.rest|..])
    decreases |lines|, 2 - level, 0
  {
    var line := Last(lines);
    var below := lines[..|lines| - 1];
    var n := Line(line[|Prefix(level)|..]);
    assert ReadLoop(lines, level, acc) == ReadLoop(below, level, acc + [n]);
    DepthAppend(acc, [n]);
    DepthOne(n);
    ReadThenPrint(below, level, acc + [n]);
    var s := ReadLoop(below, level, acc + [n]).value;
    assert s.rest == lines[..|s.rest|] by { ReadLeavesBottom(lines, level, acc); }
    SameStep(lines, acc, level, s.notes, s.rest);
  }

  /** `ReadThenPrint` when the next line opens a sublist. */
  lemma {:induction false} DownThenPrint(lines: seq<string>, level: nat, acc: seq<Note>)
    requires level <= 2 && Depth(acc) <= 2 - level && ReadLoop(lines, level, acc).Ok?
    requires lines != [] && !Same(level, Last(lines)) && !UpTo(level, Last(lines))
    ensures var s := ReadLoop(lines, level, acc).value;
      Depth(s.notes) <= 2 - level && NonBlank(PrintNotes(s.notes, SectionPrefixes, level))
        == NonBlank(PrintNotes(acc, SectionPrefixes, level)) + Reverse(lines[|s.rest|..])
    decreases |lines|, 2 - level, 0
  {
    var line := Last(lines);
    assert Down(level, line);
    DownIsNextSame(level, line);
    ReadDepth(lines, level + 1, []);
    ReadThenPrint(lines, level + 1, []);
    var sub := ReadLoop(lines, level + 1, []).value;
    var n := Sub(sub.notes);
    assert ReadLoop(lines, level, acc) == ReadLoop(sub.rest, level, acc + [n]);
    DepthAppend(acc, [n]);
    DepthOne(n);
    ReadThenPrint(sub.rest, level, acc + [n]);
    var s := ReadLoop(sub.rest, level, acc + [n]).value;
    assert sub.rest == lines[..|sub.rest|] by { ReadLeavesBottom(lines, level + 1, []); }
    assert s.rest == sub.rest[..|s.rest|] by { ReadLeavesBottom(sub.rest, level, acc + [n]); }
    DownStep(lines, acc, level, sub, s.notes, s.rest);
  }

  /** The printing side of a line of the level, given what the rest of the stack printed back. */
  lemma SameStep(lines: seq<string>, acc: seq<Note>, level: nat, notes: seq<Note>, rest: seq<string>)
    requires level <= 2 && Depth(acc) <= 2 - level && Depth(notes) <= 2 - level
    requires lines != [] && Same(level, Last(lines))
    requires |rest| < |lines| && rest == lines[..|rest|]
    requires |Prefix(level)| <= |Last(lines)|
    requires level + Depth(acc + [Line(Last(lines)[|Prefix(level)|..])]) < |SectionPrefixes|
    requires NonBlank(PrintNotes(notes, SectionPrefixes, level))
      == NonBlank(PrintNotes(acc + [Line(Last(lines)[|Prefix(level)|..])], SectionPrefixes, level))
         + Reverse(lines[..|lines| - 1][|rest|..])
    ensures NonBlank(PrintNotes(notes, SectionPrefixes, level))
      == NonBlank(PrintNotes(acc, SectionPrefixes, level)) + Reverse(lines[|rest|..])
  {
    var line := Last(lines);
    var below := lines[..|lines| - 1];
    var before := NonBlank(PrintNotes(acc, SectionPrefixes, level));
    var after := Reverse(below[|rest|..]);
    assert NonBlank(PrintNotes(acc + [Line(line[|Prefix(level)|..])], SectionPrefixes, level)) == before + [line] by {
      PrintedLine(acc, line, level);
    }
    assert Reverse(lines[|rest|..]) == [line] + after by {
      PoppedThrough(lines, below, |rest|);
      assert lines[|below|..] == [line];
      ReverseOne(line);
    }
    Regroup(NonBlank(PrintNotes(notes, SectionPrefixes, level)), before, [line], after, Reverse(lines[|rest|..]));
  }

  /** `x == b + m + a` and `r == m + a` give `x == b + r`. */
  lemma Regroup<T>(x: seq<T>, b: seq<T>, m: seq<T>, a: seq<T>, r: seq<T>)
    requires x == b + m + a && r == m + a
    ensures x == b + r
  {
  }

  /** The printing side of a sublist, given what the sublist and the rest printed back. */
  lemma DownStep(lines: seq<string>, acc: seq<Note>, level: nat, sub: Section, notes: seq<Note>, rest: seq<string>)
    requires level < 2 && Depth(acc) <= 2 - level && Depth(notes) <= 2 - level && Depth(sub.notes) <= 1 - level
    requires |sub.rest| <= |lines| && sub.rest == lines[..|sub.rest|]
    requires |rest| <= |sub.rest| && rest == sub.rest[..|rest|]
    requires NonBlank(PrintNotes(sub.notes, SectionPrefixes, level + 1))
      == NonBlank(PrintNotes([], SectionPrefixes, level + 1)) + Reverse(lines[|sub.rest|..])
    requires level + Depth(acc + [Sub(sub.notes)]) < |SectionPrefixes|
    requires NonBlank(PrintNotes(notes, SectionPrefixes, level))
      == NonBlank(PrintNotes(acc + [Sub(sub.notes)], SectionPrefixes, level)) + Reverse(sub.rest[|rest|..])
    ensures NonBlank(PrintNotes(notes, SectionPrefixes, level))
      == NonBlank(PrintNotes(acc, SectionPrefixes, level)) + Reverse(lines[|rest|..])
  {
    var before := NonBlank(PrintNotes(acc, SectionPrefixes, level));
    var inner := Reverse(lines[|sub.rest|..]);
    var after := Reverse(sub.rest[|rest|..]);
    assert NonBlank(PrintNotes(acc + [Sub(sub.notes)], SectionPrefixes, level))
        == before + NonBlank(PrintNotes(sub.notes, SectionPrefixes, level + 1)) by {
      PrintedSub(acc, sub.notes, level);
    }
    assert Reverse(lines[|rest|..]) == inner + after by {
      PoppedThrough(lines, sub.rest, |rest|);
    }
    assert NonBlank(PrintNotes(sub.notes, SectionPrefixes, level + 1)) == inner by {
      assert NonBlank(PrintNotes([], SectionPrefixes, level + 1)) == [];
    }
    Regroup(NonBlank(PrintNotes(notes, SectionPrefixes, level)), before, inner, after, Reverse(lines[|rest|..]));
  }

  lemma PrintedLine(acc: seq<Note>, line: string, level: nat)
    requires level <= 2 && Depth(acc) <= 2 - level && Same(level, line)
    ensures |Prefix(level)| <= |line| && level + Depth(acc + [Line(line[|Prefix(level)|..])]) < |SectionPrefixes|
      && NonBlank(PrintNotes(acc + [Line(line[|Prefix(level)|..])], SectionPrefixes, level))
         == NonBlank(PrintNotes(acc, SectionPrefixes, level)) + [line]
  {
    SameHasPrefix(level, line);
    var n := Line(line[|Prefix(level)|..]);
    assert (acc + [n])[..|acc|] == acc;
    assert SectionPrefixes[level] + line[|Prefix(level)|..] == line;
    NonBlankAppend(PrintNotes(acc, SectionPrefixes, level), [line]);
    assert NonBlank([line]) == [line];
  }

  lemma PrintedSub(acc: seq<Note>, ns: seq<Note>, level: nat)
    requires level < 2 && Depth(acc) <= 2 - level && Depth(ns) <= 2 - (level + 1)
    ensures level + Depth(acc + [Sub(ns)]) < |SectionPrefixes| && NonBlank(PrintNotes(acc + [Sub(ns)], SectionPrefixes, level))
        == NonBlank(PrintNotes(acc, SectionPrefixes, level)) + NonBlank(PrintNotes(ns, SectionPrefixes, level + 1))
  {
    var n := Sub(ns);
    assert (acc + [n])[..|acc|] == acc;
    var printed := PrintNotes(acc, SectionPrefixes, level);
    var inner := PrintNotes(ns, SectionPrefixes, level + 1);
    var blank: seq<string> := if level == 0 then [""] else [];
    assert PrintNotes(acc + [n], SectionPrefixes, level) == printed + (inner + blank);
    assert NonBlank(printed + (inner + blank)) == NonBlank(printed) + NonBlank(inner) by {
      NonBlankAppend(printed, inner + blank);
      NonBlankAppend(inner, blank);
      assert NonBlank(blank) == [];
    }
  }

  /** The section read from the top of the stack, printed with the section prefixes, is the
      section's lines in file order. */
  lemma SectionRoundTrip(lines: seq<string>, level: nat)
    requires level <= 2 && ReadSectionSpec(lines, level).Ok?
    ensures var s := ReadSectionSpec(lines, level).value;
      Depth(s.notes) <= 2 - level && NonBlank(PrintNotes(s.notes, SectionPrefixes, level)) == Reverse(lines[|s.rest|..])
  {
    ReadDepth(lines, level, []);
    ReadThenPrint(lines, level, []);
    assert NonBlank(PrintNotes([], SectionPrefixes, level)) == [];
  }


  // ---------------------------------------------------------------------------------------------
  // Reading the section from a stack that is changed in place

  /** The `lines` list `read_section` pops from and pushes back onto. */
  /** A line of the level is popped and kept. */
  lemma SameLoop(lines: seq<string>, level: nat, acc: seq<Note>)
    requires level <= 2 && lines != [] && Same(level, Last(lines))
    ensures |Prefix(level)| <= |Last(lines)|
    ensures ReadLoop(lines, level, acc)
      == ReadLoop(lines[..|lines| - 1], level, acc + [Line(Last(lines)[|Prefix(level)|..])])
  {
  }

  /** A line of an outer level ends the section and stays on the stack. */
  lemma UpLoop(lines: seq<string>, level: nat, acc: seq<Note>)
    requires level <= 2 && lines != [] && !Same(level, Last(lines)) && UpTo(level, Last(lines))
    ensures ReadLoop(lines, level, acc) == Ok(Section(acc, lines))
  {
  }

  /** A line of the next level opens a sublist: its error is the section's, or the loop goes on
      below it. */
  lemma DownLoop(lines: seq<string>, level: nat, acc: seq<Note>, sub: Result<Section>)
    requires level < 2 && lines != [] && !Same(level, Last(lines)) && !UpTo(level, Last(lines))
    requires Down(level, Last(lines)) && sub == ReadLoop(lines, level + 1, [])
    ensures sub.Err? ==> ReadLoop(lines, level, acc) == Err(sub.error)
    ensures sub.Ok? ==> ReadLoop(lines, level, acc) == ReadLoop(sub.value.rest, level, acc + [Sub(sub.value.notes)])
  {
  }

  /** Any other line is an error. */
  lemma BadLoop(lines: seq<string>, level: nat, acc: seq<Note>)
    requires level <= 2 && lines != [] && !Same(level, Last(lines)) && !UpTo(level, Last(lines))
    requires !Down(level, Last(lines))
    ensures ReadLoop(lines, level, acc) == Err(BadLine(level, Last(lines)))
  {
  }

  /** Popping the last line and pushing it back leaves the stack as it was. */
  lemma PushedBack(lines: seq<string>)
    requires lines != []
    ensures lines[..|lines| - 1] + [lines[|lines| - 1]] == lines
  {
  }

  class LineStack {
    var lines: seq<string>

    constructor (lines: seq<string>)
      ensures this.lines == lines
    {
      this.lines := lines;
    }

    /** `read_section(lines, level)`: on success the notes, with the stack left as the section
        read leaves it; otherwise the error. */
    method ReadSection(level: nat) returns (r: Result<seq<Note>>)
      requires level <= 2
      modifies this
      ensures var s := ReadSectionSpec(old(lines), level);
        r.Ok? == s.Ok? && (s.Ok? ==> r.value == s.value.notes && lines == s.value.rest)
        && (s.Err? ==> r.error == s.error)
      decreases |lines|, 2 - level
    {
      var result: seq<Note> := [];
      ghost var size, goal := |lines|, ReadLoop(lines, level, []);
      if |lines| == 0 {
        return Ok(result);
      }
      while |lines| > 0
        invariant |lines| <= size
        invariant ReadLoop(lines, level, result) == goal
        decreases |lines|
      {
        ghost var here := lines;
        var myLine := lines[|lines| - 1];
        lines := lines[..|lines| - 1];
        if Same(level, myLine) {
          SameLoop(here, level, result);
          result := result + [Line(myLine[|Prefix(level)|..])];
          continue;
        }
        lines := lines + [myLine];
        PushedBack(here);
        if UpTo(level, myLine) {
          UpLoop(here, level, result);
          return Ok(result);
        }
        if Down(level, myLine) {
          DownIsNextSame(level, myLine);
          ghost var inner := ReadSectionSpec(lines, level + 1);
          var sub := ReadSection(level + 1);
          if sub.Err? {
            DownLoop(here, level, result, inner);
            return Err(sub.error);
          }
          DownLoop(here, level, result, inner);
          result := result + [Sub(sub.value)];
        } else {
          BadLoop(here, level, result);
          return Err(BadLine(level, myLine));
        }
      }
      return Ok(result);
    }

    /** The release loop of `parse_change_log`: while lines remain, a header line, a packager line
        and the notes below them make one release. */
    method ParseReleases(packaged: string -> Option<Packager>, parseDate: string -> DateResult)
        returns (r: Result<seq<Release>>)
      modifies this
      ensures r == ReleasesSpec(old(lines), packaged, parseDate)
    {
      var releases: seq<Release> := [];
      ghost var goal := ReleasesSpec(lines, packaged, parseDate);
      PrependNothing(goal);
      while |lines| > 0
        invariant goal == Prepend(releases, ReleasesSpec(lines, packaged, parseDate))
        decreases |lines|
      {
        ghost var here := lines;
        if |lines| < 2 {
          ReleaseFails(here, ShortRelease, packaged, parseDate);
          return Err(ShortRelease);
        }
        var currentLine := lines[|lines| - 1];
        lines := lines[..|lines| - 1];
        var header := ReleaseHeader(currentLine);
        if header.None? {
          ReleaseFails(here, BadHeader(currentLine), packaged, parseDate);
          return Err(BadHeader(currentLine));
        }
        currentLine := lines[|lines| - 1];
        lines := lines[..|lines| - 1];
        var packager := packaged(currentLine);
        if packager.None? {
          ReleaseFails(here, BadPackager(currentLine), packaged, parseDate);
          return Err(BadPackager(currentLine));
        }
        assert lines == here[..|here| - 2];
        ghost var section := ReadSectionSpec(lines, 0);
        var notes := ReadSection(0);
        if notes.Err? {
          ReleaseFails(here, notes.error, packaged, parseDate);
          return Err(notes.error);
        }
        var time := parseDate(packager.value.date);
        if time.DateError? {
          ReleaseFails(here, BadChangeLogFormat(time.message), packaged, parseDate);
          return Err(BadChangeLogFormat(time.message));
        }
        var release := Release(header.value.name, header.value.version, packager.value.name,
          packager.value.email, time.seconds, notes.value);
        ReleaseAccepted(here, header.value, packager.value, section.value, time.seconds, packaged, parseDate);
        PrependTwice(releases, [release], ReleasesSpec(lines, packaged, parseDate));
        releases := releases + [release];
      }
      assert releases + [] == releases;
      return Ok(releases);
    }
  }

  // ---------------------------------------------------------------------------------------------
  // The comment filter

  /** The two lines that open and close a comment. */
  predicate Marker(line: string) { line == "<!---" || line == "--->" }

  /** Whether the filter keeps a stripped line: a packager line always, any other line outside a
      comment, but never a blank line or a comment marker. */
  predicate Kept(line: string, inComment: bool, packaged: string -> Option<Packager>)
  {
    line != "" && !Marker(line) && (packaged(line).Some? || !inComment)
  }

  /** Whether the filter is inside a comment after a stripped line. */
  function NextState(line: string, inComment: bool): bool
  {
    if line == "<!---" then true else if line == "--->" then false else inComment
  }

  /** The filtering loop of `parse_change_log` over the lines after the two header lines, starting
      inside a comment or not: every line is stripped of trailing white space and kept or
      dropped by `Kept`. */
  function Uncommented(lines: seq<string>, inComment: bool, packaged: string -> Option<Packager>): (r: seq<string>)
    ensures |r| <= |lines|
    decreases |lines|
  {
    if lines == [] then []
    else
      var line := RStrip(lines[0]);
      (if Kept(line, inComment, packaged) then [line] else [])
        + Uncommented(lines[1..], NextState(line, inComment), packaged)
  }

  /** The filter leaves no blank line and no comment marker. */
  lemma {:induction false} UncommentedClean(lines: seq<string>, inComment: bool, packaged: string -> Option<Packager>)
    ensures forall i :: 0 <= i < |Uncommented(lines, inComment, packaged)| ==>
      Uncommented(lines, inComment, packaged)[i] != "" && !Marker(Uncommented(lines, inComment, packaged)[i])
    decreases |lines|
  {
    if lines != [] {
      UncommentedClean(lines[1..], NextState(RStrip(lines[0]), inComment), packaged);
    }
  }

  /** Whether the filter is inside a comment after the lines. */
  function InCommentAfter(lines: seq<string>, inComment: bool): bool
    decreases |lines|
  {
    if lines == [] then inComment else InCommentAfter(lines[1..], NextState(RStrip(lines[0]), inComment))
  }

  /** The loop itself, with its `in_comment` flag. */
  method FilterComments(lines: seq<string>, packaged: string -> Option<Packager>) returns (content: seq<string>)
    ensures content == Uncommented(lines, false, packaged)
  {
    content := [];
    var inComment := false;
    for i := 0 to |lines|
      invariant Uncommented(lines, false, packaged) == content + Uncommented(lines[i..], inComment, packaged)
    {
      var line := RStrip(lines[i]);
      ghost var before, kept := content, if Kept(line, inComment, packaged) then [line] else [];
      FilterOne(lines, i, inComment, packaged);
      if |line| == 0 {
        assert content == before + kept;
        continue;
      }
      if line == "<!---" {
        inComment := true;
      } else if line == "--->" {
        inComment := false;
      } else if packaged(line).Some? {
        content := content + [line];
      } else if !inComment {
        content := content + [line];
      }
      assert content == before + kept;
      Reassociate(Uncommented(lines, false, packaged), before, kept, Uncommented(lines[i + 1..], inComment, packaged), content);
    }
    assert lines[|lines|..] == [];
  }

  /** One line of the filter. */
  lemma FilterOne(lines: seq<string>, i: nat, inComment: bool, packaged: string -> Option<Packager>)
    requires i < |lines|
    ensures var line := RStrip(lines[i]);
      Uncommented(lines[i..], inComment, packaged)
        == (if Kept(line, inComment, packaged) then [line] else []) + Uncommented(lines[i + 1..], NextState(line, inComment), packaged)
  {
    assert lines[i..][0] == lines[i] && lines[i..][1..] == lines[i + 1..];
  }

  lemma Reassociate<T>(x: seq<T>, k: seq<T>, m: seq<T>, t: seq<T>, r: seq<T>)
    requires x == k + (m + t) && r == k + m
    ensures x == r + t
  {
  }

  /** The filter reads the lines one after the other: filtering two blocks is filtering the first
      and then the second from the state the first left. */
  lemma {:induction false} UncommentedAppend(a: seq<string>, b: seq<string>, inComment: bool, packaged: string -> Option<Packager>)
    ensures Uncommented(a + b, inComment, packaged)
      == Uncommented(a, inComment, packaged) + Uncommented(b, InCommentAfter(a, inComment), packaged)
    decreases |a|
  {
    if a == [] {
      assert a + b == b;
    } else {
      assert (a + b)[0] == a[0] && (a + b)[1..] == a[1..] + b;
      var line := RStrip(a[0]);
      UncommentedAppend(a[1..], b, NextState(line, inComment), packaged);
      var kept := if Kept(line, inComment, packaged) then [line] else [];
      Reassociate(Uncommented(a + b, inComment, packaged), kept, Uncommented(a[1..], NextState(line, inComment), packaged),
        Uncommented(b, InCommentAfter(a, inComment), packaged), Uncommented(a, inComment, packaged));
    }
  }

  /** A packager line is kept wherever it appears, comment or not, and leaves the state as it
      was. */
  lemma PackagerLineKept(a: seq<string>, line: string, b: seq<string>, inComment: bool, packaged: string -> Option<Packager>)
    requires RStrip(line) != "" && !Marker(RStrip(line)) && packaged(RStrip(line)).Some?
    ensures Uncommented(a + [line] + b, inComment, packaged)
      == Uncommented(a, inComment, packaged) + [RStrip(line)] + Uncommented(b, InCommentAfter(a, inComment), packaged)
  {
    var c := InCommentAfter(a, inComment);
    AppendTwice(a, [line], b);
    UncommentedAppend(a, [line] + b, inComment, packaged);
    FilterOne([line] + b, 0, c, packaged);
    assert ([line] + b)[0..] == [line] + b && ([line] + b)[1..] == b;
    AppendTwice(Uncommented(a, inComment, packaged), [RStrip(line)], Uncommented(b, c, packaged));
  }

  /** A comment whose lines are neither packager lines nor the closing marker leaves nothing, and
      the lines after it are read outside a comment. */
  lemma CommentDropped(body: seq<string>, b: seq<string>, inComment: bool, packaged: string -> Option<Packager>)
    requires forall i :: 0 <= i < |body| ==> RStrip(body[i]) != "--->" && packaged(RStrip(body[i])).None?
    ensures Uncommented(["<!---"] + body + ["--->"] + b, inComment, packaged) == Uncommented(b, false, packaged)
  {
    var open, close := ["<!---"], ["--->"];
    assert RStrip("<!---") == "<!---" && RStrip("--->") == "--->";
    assert open + body + close + b == open + (body + (close + b));
    assert (open + (body + (close + b)))[1..] == body + (close + b);
    InCommentDropped(body, close + b, packaged);
    assert (close + b)[1..] == b;
  }

  lemma {:induction false} InCommentDropped(body: seq<string>, b: seq<string>, packaged: string -> Option<Packager>)
    requires forall i :: 0 <= i < |body| ==> RStrip(body[i]) != "--->" && packaged(RStrip(body[i])).None?
    ensures Uncommented(body + b, true, packaged) == Uncommented(b, true, packaged)
    decreases |body|
  {
    if body == [] {
      assert body + b == b;
    } else {
      assert (body + b)[0] == body[0] && (body + b)[1..] == body[1..] + b;
      assert forall i :: 0 <= i < |body[1..]| ==> body[1..][i] == body[i + 1];
      InCommentDropped(body[1..], b, packaged);
    }
  }

  // ---------------------------------------------------------------------------------------------
  // The release header and the release loop

  /** The parts of a `## <version> "<name>"` header. */
  datatype Header = Header(version: string, name: string)

  /** The groups of the packager pattern: the packager's name, e-mail address and date. */
  datatype Packager = Packager(name: string, email: string, date: string)

  /** What `parse_date` gives: the seconds since the epoch, or the message of its `ValueError`. */
  datatype DateResult = Parsed(seconds: int) | DateError(message: string)

  /** One release of the change log. */
  datatype Release = Release(name: string, version: string, packager: string, packagerEmail: string,
                             time: int, notes: seq<Note>)

  /** One release read from the top of the stack, and the stack below it. */
  datatype ReleaseRead = ReleaseRead(release: Release, rest: seq<string>)

  /** Characters of the class `[\d\._]`. */
  predicate VersionChar(c: char) { IsDigit(c) || c == '.' || c == '_' }

  /** The length of the run of version characters at the start of `s`. */
  function VersionRun(s: string): (n: nat)
    ensures n <= |s|
    ensures forall i :: 0 <= i < n ==> VersionChar(s[i])
    ensures n < |s| ==> !VersionChar(s[n])
  {
    if s == [] || !VersionChar(s[0]) then 0 else 1 + VersionRun(s[1..])
  }

  /** The release pattern `## ([\d\._]+) "(.*)"` matched at the start of a line: the version is
      the run of version characters after `## `, which must be followed by a space and a quote;
      the greedy name runs to the last quote of the line. */
  function ReleaseHeader(line: string): Option<Header>
  {
    if !StartsWith(line, "## ") then None
    else
      var s := line[3..];
      var k := VersionRun(s);
      if k == 0 || !StartsWith(s[k..], " \"") then None
      else
        var t := s[k + 2..];
        var j := RFind(t, '"');
        if j < 0 then None else Some(Header(s[..k], t[..j]))
  }

  /** A header written from a version and a name reads back as that version and name. */
  lemma HeaderRoundTrip(version: string, name: string)
    requires version != [] && forall i :: 0 <= i < |version| ==> VersionChar(version[i])
    ensures ReleaseHeader("## " + version + " \"" + name + "\"") == Some(Header(version, name))
  {
    var line := "## " + version + " \"" + name + "\"";
    var s := line[3..];
    assert s == version + (" \"" + name + "\"");
    VersionRunOf(version, " \"" + name + "\"");
    var k := |version|;
    assert s[..k] == version;
    assert s[k..] == " \"" + name + "\"";
    var t := s[k + 2..];
    assert t == name + "\"";
    assert t[|name|] == '"';
    assert t[..|name|] == name;
  }

  lemma {:induction false} VersionRunOf(v: string, rest: string)
    requires forall i :: 0 <= i < |v| ==> VersionChar(v[i])
    requires rest != [] && !VersionChar(rest[0])
    ensures VersionRun(v + rest) == |v|
    decreases |v|
  {
    if v == [] {
      assert v + rest == rest;
    } else {
      assert (v + rest)[0] == v[0] && (v + rest)[1..] == v[1..] + rest;
      VersionRunOf(v[1..], rest);
    }
  }

  lemma HeaderNeedsPrefix(line: string)
    requires ReleaseHeader(line).Some?
    ensures StartsWith(line, "## ")
  {
  }

  const ShortRelease := BadChangeLogFormat("New release section does not contain at least two lines.")

  function BadHeader(line: string): Error
  {
    BadChangeLogFormat("Header line for release did not match expected format: " + line)
  }

  function BadPackager(line: string): Error
  {
    BadChangeLogFormat("Packager line for release did not match expected format: " + line)
  }

  /** The release made of a header line, a packager line and the section read below them, in
      the order the loop checks them: the header, the packager line, the notes, then the date. */
  function ReleaseFrom(headerLine: string, packagerLine: string, section: Result<Section>,
                       packaged: string -> Option<Packager>, parseDate: string -> DateResult)
      : (r: Result<ReleaseRead>)
    ensures r.Ok? ==> section.Ok? && r.value.rest == section.value.rest && r.value.release.notes == section.value.notes
    ensures r.Ok? ==> ReleaseHeader(headerLine) == Some(Header(r.value.release.version, r.value.release.name))
  {
    var header := ReleaseHeader(headerLine);
    if header.None? then Err(BadHeader(headerLine))
    else
      var p := packaged(packagerLine);
      if p.None? then Err(BadPackager(packagerLine))
      else if section.Err? then Err(section.error)
      else
        var time := parseDate(p.value.date);
        if time.DateError? then Err(BadChangeLogFormat(time.message))
        else
          Ok(ReleaseRead(Release(header.value.name, header.value.version, p.value.name, p.value.email,
                                 time.seconds, section.value.notes), section.value.rest))
  }

  /** Which lines are left below a release does not change the release. */
  lemma ReleaseFromAnyRest(headerLine: string, packagerLine: string, notes: seq<Note>, rest: seq<string>,
                           rest': seq<string>, packaged: string -> Option<Packager>, parseDate: string -> DateResult)
    requires ReleaseFrom(headerLine, packagerLine, Ok(Section(notes, rest)), packaged, parseDate).Ok?
    ensures ReleaseFrom(headerLine, packagerLine, Ok(Section(notes, rest')), packaged, parseDate)
      == Ok(ReleaseRead(ReleaseFrom(headerLine, packagerLine, Ok(Section(notes, rest)), packaged, parseDate).value.release, rest'))
  {
  }

  /** One turn of the release loop on the reversed content, whose next line is its last. */
  function NextRelease(content: seq<string>, packaged: string -> Option<Packager>, parseDate: string -> DateResult)
      : (r: Result<ReleaseRead>)
    requires content != []
    ensures |content| < 2 ==> r == Err(ShortRelease)
    ensures r.Ok? ==> |r.value.rest| <= |content| - 2 && r.value.rest == content[..|r.value.rest|]
    ensures r.Ok? ==> ReleaseHeader(Last(content)) == Some(Header(r.value.release.version, r.value.release.name))
  {
    if |content| < 2 then Err(ShortRelease)
    else
      var section := ReadSectionSpec(content[..|content| - 2], 0);
      var r := ReleaseFrom(content[|content| - 1], content[|content| - 2], section, packaged, parseDate);
      if r.Ok? then
        ReadLeavesBottom(content[..|content| - 2], 0, []);
        assert r.value.rest == content[..|r.value.rest|];
        r
      else r
  }

  /** The loop ends with the first error of a release. */
  lemma ReleaseFails(content: seq<string>, e: Error, packaged: string -> Option<Packager>, parseDate: string -> DateResult)
    requires content != [] && NextRelease(content, packaged, parseDate) == Err(e)
    ensures ReleasesSpec(content, packaged, parseDate) == Err(e)
  {
  }

  /** A release whose header, packager line, notes and date all read goes in front of the releases
      below it. */
  lemma ReleaseAccepted(content: seq<string>, header: Header, p: Packager, section: Section, seconds: int,
                    packaged: string -> Option<Packager>, parseDate: string -> DateResult)
    requires |content| >= 2
    requires ReleaseHeader(content[|content| - 1]) == Some(header) && packaged(content[|content| - 2]) == Some(p)
    requires ReadSectionSpec(content[..|content| - 2], 0) == Ok(section) && parseDate(p.date) == Parsed(seconds)
    ensures ReleasesSpec(content, packaged, parseDate)
      == Prepend([Release(header.name, header.version, p.name, p.email, seconds, section.notes)],
                 ReleasesSpec(section.rest, packaged, parseDate))
  {
  }

  /** A result with some releases put in front. */
  function Prepend(xs: seq<Release>, r: Result<seq<Release>>): Result<seq<Release>>
  {
    if r.Err? then r else Ok(xs + r.value)
  }

  lemma PrependNothing(r: Result<seq<Release>>)
    ensures Prepend([], r) == r
  {
    if r.Ok? {
      assert [] + r.value == r.value;
    }
  }

  lemma PrependTwice(xs: seq<Release>, ys: seq<Release>, r: Result<seq<Release>>)
    ensures Prepend(xs, Prepend(ys, r)) == Prepend(xs + ys, r)
  {
    if r.Ok? {
      assert xs + (ys + r.value) == xs + ys + r.value;
    }
  }

  /** The release loop over the reversed content: releases are read one after the other until the
      stack is empty, and come out in the order they were read; the first error ends the loop. */
  function ReleasesSpec(content: seq<string>, packaged: string -> Option<Packager>, parseDate: string -> DateResult)
      : (r: Result<seq<Release>>)
    ensures r.Ok? && content != [] ==> |r.value| > 0 && ReleaseHeader(Last(content)) == Some(Header(r.value[0].version, r.value[0].name))
    decreases |content|
  {
    if content == [] then Ok([])
    else
      var next := NextRelease(content, packaged, parseDate);
      if next.Err? then Err(next.error)
      else Prepend([next.value.release], ReleasesSpec(next.value.rest, packaged, parseDate))
  }

  /** `parse_change_log` over the lines of the change log: the first two are skipped, the rest
      filtered, reversed into a stack and read release by release. */
  function ParseChangeLogSpec(file: seq<string>, packaged: string -> Option<Packager>, parseDate: string -> DateResult)
      : Result<seq<Release>>
  {
    var content := Uncommented(if |file| < 2 then [] else file[2..], false, packaged);
    ReleasesSpec(Reverse(content), packaged, parseDate)
  }

  method ParseChangeLog(file: seq<string>, packaged: string -> Option<Packager>, parseDate: string -> DateResult)
      returns (r: Result<seq<Release>>)
    ensures r == ParseChangeLogSpec(file, packaged, parseDate)
  {
    var content := FilterComments(if |file| < 2 then [] else file[2..], packaged);
    var stack := new LineStack(Reverse(content));
    r := stack.ParseReleases(packaged, parseDate);
  }

  // ---------------------------------------------------------------------------------------------
  // Reading below the top of the stack

  /** Lines further down the stack do not change what a section reads, as long as the section
      reaches them only when they start with a release header. */
  lemma {:induction false} ReadAboveStack(extra: seq<string>, lines: seq<string>, level: nat, acc: seq<Note>)
    requires level <= 2 && ReadLoop(lines, level, acc).Ok?
    requires ReadLoop(lines, level, acc).value.rest == [] ==> extra == [] || StartsWith(Last(extra), "## ")
    ensures var s := ReadLoop(lines, level, acc).value;
      ReadLoop(extra + lines, level, acc) == Ok(Section(s.notes, extra + s.rest))
    decreases |lines|, 2 - level, 1
  {
    if lines == [] {
      assert extra + lines == extra;
      if extra != [] {
        HeaderEndsEveryLevel(level, Last(extra));
      }
    } else {
      var line := Last(lines);
      var below := lines[..|lines| - 1];
      assert Last(extra + lines) == line && (extra + lines)[..|extra + lines| - 1] == extra + below;
      if Same(level, line) {
        SameLoop(lines, level, acc);
        SameLoop(extra + lines, level, acc);
        ReadAboveStack(extra, below, level, acc + [Line(line[|Prefix(level)|..])]);
      } else if UpTo(level, line) {
        UpLoop(lines, level, acc);
        UpLoop(extra + lines, level, acc);
      } else {
        DownAboveStack(extra, lines, level, acc);
      }
    }
  }

  /** `ReadAboveStack` when the next line opens a sublist. */
  lemma {:induction false} DownAboveStack(extra: seq<string>, lines: seq<string>, level: nat, acc: seq<Note>)
    requires level <= 2 && ReadLoop(lines, level, acc).Ok?
    requires lines != [] && !Same(level, Last(lines)) && !UpTo(level, Last(lines))
    requires Last(extra + lines) == Last(lines)
    requires ReadLoop(lines, level, acc).value.rest == [] ==> extra == [] || StartsWith(Last(extra), "## ")
    ensures var s := ReadLoop(lines, level, acc).value;
      ReadLoop(extra + lines, level, acc) == Ok(Section(s.notes, extra + s.rest))
    decreases |lines|, 2 - level, 0
  {
    var line := Last(lines);
    assert Down(level, line);
    DownIsNextSame(level, line);
    var sub := ReadLoop(lines, level + 1, []);
    DownLoop(lines, level, acc, sub);
    ReadAboveStack(extra, lines, level + 1, []);
    DownLoop(extra + lines, level, acc, ReadLoop(extra + lines, level + 1, []));
    ReadAboveStack(extra, sub.value.rest, level, acc + [Sub(sub.value.notes)]);
  }

  /** A release read with more lines below it reads the same, with those lines left below it. */
  lemma NextAboveStack(extra: seq<string>, content: seq<string>,
                       packaged: string -> Option<Packager>, parseDate: string -> DateResult)
    requires content != [] && NextRelease(content, packaged, parseDate).Ok?
    requires extra == [] || StartsWith(Last(extra), "## ")
    ensures var n := NextRelease(content, packaged, parseDate).value;
      NextRelease(extra + content, packaged, parseDate) == Ok(ReleaseRead(n.release, extra + n.rest))
  {
    var body := content[..|content| - 2];
    TopOfStack(extra, content);
    var s := ReadSectionSpec(body, 0).value;
    assert ReadSectionSpec(extra + body, 0) == Ok(Section(s.notes, extra + s.rest)) by {
      ReadAboveStack(extra, body, 0, []);
    }
    ReleaseFromAnyRest(content[|content| - 1], content[|content| - 2], s.notes, s.rest, extra + s.rest, packaged, parseDate);
  }

  lemma TopOfStack(extra: seq<string>, content: seq<string>)
    requires |content| >= 2
    ensures var all := extra + content;
      all[|all| - 1] == content[|content| - 1] && all[|all| - 2] == content[|content| - 2]
      && all[..|all| - 2] == extra + content[..|content| - 2]
  {
    var all := extra + content;
    assert all[..|all| - 2] == extra + content[..|content| - 2];
  }

  /** Releases further down the stack come after the releases above them. */
  lemma {:induction false} ReleasesAboveStack(extra: seq<string>, content: seq<string>,
                                              packaged: string -> Option<Packager>, parseDate: string -> DateResult)
    requires ReleasesSpec(content, packaged, parseDate).Ok?
    requires extra == [] || StartsWith(Last(extra), "## ")
    ensures ReleasesSpec(extra + content, packaged, parseDate)
      == Prepend(ReleasesSpec(content, packaged, parseDate).value, ReleasesSpec(extra, packaged, parseDate))
    decreases |content|
  {
    if content == [] {
      assert extra + content == extra;
      PrependNothing(ReleasesSpec(extra, packaged, parseDate));
    } else {
      var n := NextRelease(content, packaged, parseDate).value;
      NextAboveStack(extra, content, packaged, parseDate);
      assert extra + content != [];
      ReleasesAboveStack(extra, n.rest, packaged, parseDate);
      PrependTwice([n.release], ReleasesSpec(n.rest, packaged, parseDate).value, ReleasesSpec(extra, packaged, parseDate));
    }
  }

  /** Releases are returned in file order: the content of the change log read as two parts, the
      second starting at a release header, gives the releases of the first part, then those of
      the second. */
  lemma ReleasesInFileOrder(a: seq<string>, b: seq<string>, packaged: string -> Option<Packager>, parseDate: string -> DateResult)
    requires ReleasesSpec(Reverse(a), packaged, parseDate).Ok?
    requires b == [] || StartsWith(b[0], "## ")
    ensures ReleasesSpec(Reverse(a + b), packaged, parseDate)
      == Prepend(ReleasesSpec(Reverse(a), packaged, parseDate).value, ReleasesSpec(Reverse(b), packaged, parseDate))
  {
    ReverseAppend(a, b);
    if b != [] {
      ReverseLast(b);
    }
    ReleasesAboveStack(Reverse(b), Reverse(a), packaged, parseDate);
  }

  lemma ReverseLast(b: seq<string>)
    requires b != []
    ensures Last(Reverse(b)) == b[0]
  {
    assert b == [b[0]] + b[1..];
    ReverseAppend([b[0]], b[1..]);
    ReverseOne(b[0]);
  }
}
