/**
 Splitting a product specification into indexed sections, and reading it back page by page.
 Offsets count characters.
 */
module Sections {
  import opened Wrappers
  import opened Strings

  const MAX_SECTION := 1800
  const MAX_TITLE := 120
  const WINDOW := 20

  datatype Section = Section(index: nat, heading: string, offset: nat, length: nat)

  // --------------------------------------------------------------------- lines

  /** strings.SplitAfter at line feeds: the last line is what follows the last line feed. */
  function Lines(s: string): (lines: seq<string>)
    ensures lines != []
  {
    if s == "" then [""]
    else if s[0] == '\n' then ["\n"] + Lines(s[1..])
    else
      var rest := Lines(s[1..]);
      [[s[0]] + rest[0]] + rest[1..]
  }

  function Hashes(s: string): nat {
    if s != "" && s[0] == '#' then 1 + Hashes(s[1..]) else 0
  }

  lemma {:induction false} HashesAtMost(s: string)
    ensures Hashes(s) <= |s|
  {
    if s != "" && s[0] == '#' { HashesAtMost(s[1..]); }
  }

  /** One to six number signs and a space start a heading; its title is cut at 120 characters. */
  function HeadingOf(line: string): Option<string> {
    var t := Trim(line);
    var n := Hashes(t);
    if 1 <= n <= 6 && |t| > n && t[n] == ' ' then
      var title := Trim(t[n..]);
      Some(if |title| > MAX_TITLE then title[..MAX_TITLE] else title)
    else None
  }

  /** What the splitting depends on: the length of a line, and its title if it is a heading. */
  datatype Line = Line(length: nat, heading: Option<string>)

  function Marks(lines: seq<string>): seq<Line> {
    seq(|lines|, i requires 0 <= i < |lines| => Line(|lines[i]|, HeadingOf(lines[i])))
  }

  function TotalLength(lines: seq<Line>): nat {
    if lines == [] then 0 else lines[0].length + TotalLength(lines[1..])
  }

  function After(heading: string, line: Line): string {
    if line.heading.Some? then line.heading.value else heading
  }

  /** The title of the last heading line that starts at or before the offset. */
  function InForce(lines: seq<Line>, position: nat, heading: string, offset: nat): string
    decreases |lines|
  {
    if lines == [] || position > offset then heading
    else InForce(lines[1..], position + lines[0].length, After(heading, lines[0]), offset)
  }

  function HeadingAt(lines: seq<Line>, offset: nat): string { InForce(lines, 0, "", offset) }

  /** The offset of a line, if it is a heading line. */
  function Start(line: Line, position: nat): set<nat> { if line.heading.Some? then {position} else {} }

  /** The offsets at which heading lines start. */
  function HeadingStarts(lines: seq<Line>, position: nat): set<nat>
    decreases |lines|
  {
    if lines == [] then {} else Start(lines[0], position) + HeadingStarts(lines[1..], position + lines[0].length)
  }

  function Size(lines: seq<string>): nat {
    if lines == [] then 0 else |lines[0]| + Size(lines[1..])
  }

  lemma {:induction false} LinesCover(s: string)
    ensures Size(Lines(s)) == |s|
  {
    if s == "" {
      assert Lines(s)[1..] == [];
    } else {
      LinesCover(s[1..]);
      if s[0] == '\n' { assert Lines(s)[1..] == Lines(s[1..]); }
    }
  }

  lemma {:induction false} MarksCover(lines: seq<string>)
    ensures TotalLength(Marks(lines)) == Size(lines)
  {
    if lines != [] {
      MarksCover(lines[1..]);
      assert Marks(lines)[1..] == Marks(lines[1..]);
    }
  }

  // ------------------------------------------------------------------ sections

  function EndOf(sections: seq<Section>): nat {
    if sections == [] then 0 else sections[|sections| - 1].offset + sections[|sections| - 1].length
  }

  /** Consecutively numbered, starting at zero, without gaps, none empty or too long. */
  ghost predicate Chain(sections: seq<Section>) {
    forall i :: 0 <= i < |sections| ==>
      sections[i].index == i && 1 <= sections[i].length <= MAX_SECTION && sections[i].offset == EndOf(sections[..i])
  }

  /** A text is divided completely; an empty one has a single empty section. */
  ghost predicate Partition(sections: seq<Section>, n: nat) {
    if n == 0 then sections == [Section(0, "", 0, 0)] else Chain(sections) && EndOf(sections) == n
  }

  /** Each section carries the title of the last heading line at or before its start. */
  ghost predicate HeadingsRight(sections: seq<Section>, lines: seq<Line>) {
    forall s :: s in sections && s.length > 0 ==> s.heading == HeadingAt(lines, s.offset)
  }

  function Offsets(sections: seq<Section>): set<nat> { set s | s in sections :: s.offset }

  /** No section runs over the start of a heading line. */
  ghost predicate HeadingsStartSections(sections: seq<Section>, lines: seq<Line>) {
    HeadingStarts(lines, 0) <= Offsets(sections)
  }

  lemma ChainSnoc(sections: seq<Section>, heading: string, offset: nat, length: nat)
    requires Chain(sections) && offset == EndOf(sections) && 1 <= length <= MAX_SECTION
    ensures var n := sections + [Section(|sections|, heading, offset, length)]; Chain(n) && EndOf(n) == offset + length
  {
    var n := sections + [Section(|sections|, heading, offset, length)];
    forall i | 0 <= i < |n| ensures n[i].index == i && 1 <= n[i].length <= MAX_SECTION && n[i].offset == EndOf(n[..i]) {
      if i < |sections| { assert n[..i] == sections[..i]; } else { assert n[..i] == sections; }
    }
  }

  lemma HeadingsSnoc(sections: seq<Section>, s: Section, lines: seq<Line>)
    requires HeadingsRight(sections, lines) && s.heading == HeadingAt(lines, s.offset)
    ensures HeadingsRight(sections + [s], lines)
  {
    forall t | t in sections + [s] && t.length > 0 ensures t.heading == HeadingAt(lines, t.offset) {
      assert t in sections || t == s;
    }
  }

  lemma OffsetsSnoc(sections: seq<Section>, s: Section)
    ensures Offsets(sections + [s]) == Offsets(sections) + {s.offset}
  {
    forall o ensures o in Offsets(sections + [s]) <==> o in Offsets(sections) + {s.offset} {
      assert forall t :: t in sections + [s] <==> t in sections || t == s;
    }
  }

  /** While line k is being read, and from its start on, its heading is in force. */
  lemma {:induction false} InForceWithin(lines: seq<Line>, k: nat, position: nat, heading: string, offset: nat)
    requires k < |lines|
    requires position + TotalLength(lines[..k]) <= offset < position + TotalLength(lines[..k]) + lines[k].length
    ensures InForce(lines, position, heading, offset) == After(InForceAfter(lines[..k], heading), lines[k])
    decreases k
  {
    if k == 0 {
      assert lines[..0] == [];
      if |lines| > 1 {
        var first := After(heading, lines[0]);
        assert InForce(lines[1..], position + lines[0].length, first, offset) == first;
      }
    } else {
      assert lines[..k][1..] == lines[1..][..k - 1] && lines[1..][k - 1] == lines[k];
      InForceWithin(lines[1..], k - 1, position + lines[0].length, After(heading, lines[0]), offset);
    }
  }

  /** The heading after all these lines. */
  function InForceAfter(lines: seq<Line>, heading: string): string
    decreases |lines|
  {
    if lines == [] then heading else InForceAfter(lines[1..], After(heading, lines[0]))
  }

  lemma {:induction false} OneMoreLine(lines: seq<Line>, line: Line, heading: string, position: nat)
    ensures TotalLength(lines + [line]) == TotalLength(lines) + line.length
    ensures InForceAfter(lines + [line], heading) == After(InForceAfter(lines, heading), line)
    ensures HeadingStarts(lines + [line], position) == HeadingStarts(lines, position)
      + Start(line, position + TotalLength(lines))
    decreases |lines|
  {
    if lines == [] {
      assert [line][1..] == [];
    } else {
      assert (lines + [line])[1..] == lines[1..] + [line];
      OneMoreLine(lines[1..], line, After(heading, lines[0]), position + lines[0].length);
    }
  }

  /** What reading line k adds, and the heading in force while it is read. */
  lemma LineFacts(lines: seq<Line>, k: nat)
    requires k < |lines|
    ensures TotalLength(lines[..k + 1]) == TotalLength(lines[..k]) + lines[k].length
    ensures InForceAfter(lines[..k + 1], "") == After(InForceAfter(lines[..k], ""), lines[k])
    ensures HeadingStarts(lines[..k + 1], 0) == HeadingStarts(lines[..k], 0) + Start(lines[k], TotalLength(lines[..k]))
    ensures forall o :: TotalLength(lines[..k]) <= o < TotalLength(lines[..k]) + lines[k].length ==>
      HeadingAt(lines, o) == After(InForceAfter(lines[..k], ""), lines[k])
  {
    assert lines[..k + 1] == lines[..k] + [lines[k]];
    OneMoreLine(lines[..k], lines[k], "", 0);
    forall o | TotalLength(lines[..k]) <= o < TotalLength(lines[..k]) + lines[k].length
      ensures HeadingAt(lines, o) == After(InForceAfter(lines[..k], ""), lines[k])
    {
      InForceWithin(lines, k, 0, "", o);
    }
  }

  /** A heading line is not empty, so it starts before the end of the text. */
  lemma {:induction false} StartsAreInside(lines: seq<Line>, position: nat)
    requires forall i :: 0 <= i < |lines| && lines[i].heading.Some? ==> lines[i].length > 0
    ensures forall h :: h in HeadingStarts(lines, position) ==> position <= h < position + TotalLength(lines)
    decreases |lines|
  {
    if lines != [] {
      StartsAreInside(lines[1..], position + lines[0].length);
    }
  }

  /** The variables the splitting loop works on. */
  class Splitter {
    ghost const marks: seq<Line>
    var sections: seq<Section>
    var start: nat
    var position: nat
    var heading: string
    var activeHeading: string

    constructor (ghost marks: seq<Line>)
      ensures this.marks == marks && sections == [] && start == 0 && position == 0 && heading == ""
      ensures activeHeading == ""
    {
      this.marks := marks;
      sections, start, position, heading, activeHeading := [], 0, 0, "", "";
    }

    /** The finished sections are a chain up to start, and carry the right headings. */
    ghost predicate Valid()
      reads this
    {
      && Chain(sections) && EndOf(sections) == start && start <= position <= start + MAX_SECTION
      && HeadingsRight(sections, marks)
    }

    /** The open section carries the heading in force where it starts. */
    ghost predicate ActiveRight()
      reads this
    {
      activeHeading == HeadingAt(marks, start)
    }

    /** Where the sections so far and the open one start. */
    ghost function Begun(): set<nat>
      reads this
    {
      Offsets(sections) + {start}
    }

    method Flush(end: nat)
      requires Valid() && start <= end <= start + MAX_SECTION && (end > start ==> ActiveRight())
      modifies this`sections, this`start, this`activeHeading
      ensures start == end && activeHeading == heading
      ensures Chain(sections) && EndOf(sections) == start && HeadingsRight(sections, marks)
      ensures old(Begun()) <= Begun()
    {
      if end > start {
        var s := Section(|sections|, activeHeading, start, end - start);
        ChainSnoc(sections, activeHeading, start, end - start);
        HeadingsSnoc(sections, s, marks);
        OffsetsSnoc(sections, s);
        sections := sections + [s];
      }
      start := end;
      activeHeading := heading;
    }

    /** The part of the loop body that looks for a heading. */
    method TakeHeading(line: string, ghost mark: Line)
      requires Valid() && (position > start ==> ActiveRight()) && mark.heading == HeadingOf(line)
      modifies this`sections, this`start, this`heading, this`activeHeading
      ensures Valid() && heading == After(old(heading), mark)
      ensures if mark.heading.Some? then start == position && activeHeading == heading
              else start == old(start) && activeHeading == old(activeHeading) && sections == old(sections)
      ensures old(Begun()) <= Begun()
    {
      var trim := Trim(line);
      HashesAtMost(trim);
      var hashCount := Hashes(trim);
      if hashCount >= 1 {
        if hashCount <= 6 && |trim| > hashCount && trim[hashCount] == ' ' {
          Flush(position);
          heading := Trim(trim[hashCount..]);
          if |heading| > MAX_TITLE { heading := heading[..MAX_TITLE]; }
          activeHeading := heading;
        }
      }
    }

    /** The part of the loop body that makes room for the line. */
    method TakeLine(size: nat)
      requires Valid() && (position > start ==> ActiveRight())
      requires position == start && size > 0 ==> activeHeading == heading
      requires forall o :: position <= o < position + size ==> heading == HeadingAt(marks, o)
      modifies this`sections, this`start, this`position, this`activeHeading
      ensures Valid() && position == old(position) + size
      ensures position > start ==> ActiveRight()
      ensures size > 0 ==> start < position
      ensures size == 0 ==> start == old(start) && sections == old(sections) && activeHeading == old(activeHeading)
      ensures old(Begun()) <= Begun()
    {
      var length := size;
      ghost var begin := position;
      if position - start + length > MAX_SECTION {
        Flush(position);
      }
      while length > MAX_SECTION
        invariant begin <= position && position + length == begin + size
        invariant Valid() && (position > start ==> ActiveRight())
        invariant size > 0 ==> length > 0
        invariant length > MAX_SECTION ==> start == position
        invariant position - start + length <= MAX_SECTION || start == position
        invariant position == start && size > 0 ==> activeHeading == heading
        invariant size == 0 ==> start == old(start) && sections == old(sections) && activeHeading == old(activeHeading)
        invariant old(Begun()) <= Begun()
      {
        position := position + MAX_SECTION;
        length := length - MAX_SECTION;
        Flush(position);
      }
      position := position + length;
    }

    /** Between two rounds: so much of the text is read, under this heading, with heading lines starting there. */
    ghost predicate Reading(so: nat, title: string, starts: set<nat>)
      reads this
    {
      && Valid() && position == so && heading == title && starts <= Begun()
      && (position > start ==> ActiveRight()) && (position == start ==> activeHeading == heading)
    }

    method Take(line: string, ghost mark: Line, ghost so: nat, ghost title: string, ghost starts: set<nat>)
      requires Reading(so, title, starts) && mark.heading == HeadingOf(line) && mark.length == |line|
      requires forall o :: so <= o < so + mark.length ==> HeadingAt(marks, o) == After(title, mark)
      modifies this
      ensures Reading(so + mark.length, After(title, mark), starts + Start(mark, so))
    {
      TakeHeading(line, mark);
      TakeLine(|line|);
    }

    /** The first k lines are read. */
    ghost predicate ReadTo(k: nat)
      requires k <= |marks|
      reads this
    {
      Reading(TotalLength(marks[..k]), InForceAfter(marks[..k], ""), HeadingStarts(marks[..k], 0))
    }

    method TakeNext(lines: seq<string>, k: nat)
      requires marks == Marks(lines) && k < |lines| && ReadTo(k)
      modifies this
      ensures ReadTo(k + 1)
    {
      LineFacts(marks, k);
      Take(lines[k], marks[k], TotalLength(marks[..k]), InForceAfter(marks[..k], ""), HeadingStarts(marks[..k], 0));
    }

    /** After the last line the open section is closed. */
    method Close(end: nat)
      requires end == TotalLength(marks) && ReadTo(|marks|)
      requires forall i :: 0 <= i < |marks| && marks[i].heading.Some? ==> marks[i].length > 0
      modifies this
      ensures Chain(sections) && EndOf(sections) == end
      ensures HeadingsRight(sections, marks) && HeadingsStartSections(sections, marks)
    {
      StartsAreInside(marks, 0);
      assert marks[..|marks|] == marks;
      Flush(end);
    }
  }

  /** After the last line the whole text is read. */
  lemma LinesAreRead(text: string)
    ensures var marks := Marks(Lines(text));
      marks[..|Lines(text)|] == marks && TotalLength(marks) == |text|
    ensures forall i :: 0 <= i < |Marks(Lines(text))| && Marks(Lines(text))[i].heading.Some? ==>
      Marks(Lines(text))[i].length > 0
  {
    LinesCover(text);
    MarksCover(Lines(text));
  }

  /** splitProductSections. */
  method SplitProductSections(text: string) returns (sections: seq<Section>)
    ensures Partition(sections, |text|)
    ensures HeadingsRight(sections, Marks(Lines(text))) && HeadingsStartSections(sections, Marks(Lines(text)))
  {
    var lines := Lines(text);
    ghost var marks := Marks(lines);
    var loop := new Splitter(marks);
    var k := 0;
    while k < |lines|
      invariant 0 <= k <= |lines| && loop.ReadTo(k)
    {
      loop.TakeNext(lines, k);
      k := k + 1;
    }
    LinesAreRead(text);
    loop.Close(|text|);
    sections := loop.sections;
    if |sections| == 0 {
      sections := [Section(0, "", 0, 0)];
    }
  }
}
