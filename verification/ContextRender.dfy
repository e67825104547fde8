/** The byte-budgeted context renderer.

    Sections are rendered in a fixed order. Each writes its pinned lines, then
    those of its degradable lines that fit beside the pinned lines still to
    come. The specification forgets that bookkeeping: it only knows how many
    bytes the pinned lines leave over.
 */
module ContextRender {
  import opened Policy

  datatype Line = Line(kind: string, text: string, id: string, pinned: bool)

  datatype Degradable = Degradable(text: string, id: string)

  datatype Section = Section(kind: string, pinned: seq<string>, degradable: seq<Degradable>)

  datatype Omitted = Omitted(kind: string, id: string)

  function Cost(line: Line): nat {
    |line.text| + 1
  }

  // ----- Lines in rendering order -----

  function PinnedLines(kind: string, texts: seq<string>): (lines: seq<Line>)
    ensures |lines| == |texts|
  {
    if texts == [] then [] else [Line(kind, texts[0], "", true)] + PinnedLines(kind, texts[1..])
  }

  function DegradableLines(kind: string, items: seq<Degradable>): (lines: seq<Line>)
    ensures |lines| == |items|
  {
    if items == [] then [] else [Line(kind, items[0].text, items[0].id, false)] + DegradableLines(kind, items[1..])
  }

  function LinesOf(sec: Section): seq<Line> {
    PinnedLines(sec.kind, sec.pinned) + DegradableLines(sec.kind, sec.degradable)
  }

  function AllLines(sections: seq<Section>): seq<Line> {
    if sections == [] then [] else LinesOf(sections[0]) + AllLines(sections[1..])
  }

  function Bytes(lines: seq<Line>): nat {
    if lines == [] then 0 else Cost(lines[0]) + Bytes(lines[1..])
  }

  function Pinned(lines: seq<Line>): seq<Line> {
    if lines == [] then [] else (if lines[0].pinned then [lines[0]] else []) + Pinned(lines[1..])
  }

  function Text(lines: seq<Line>): string {
    if lines == [] then "" else lines[0].text + "\n" + Text(lines[1..])
  }

  function Recorded(lines: seq<Line>): seq<Omitted> {
    if lines == [] then []
    else (if lines[0].id != "" then [Omitted(lines[0].kind, lines[0].id)] else []) + Recorded(lines[1..])
  }

  // ----- What is kept -----

  // Which lines stay when `spare` bytes are left over for degradable ones.
  function Mask(lines: seq<Line>, spare: int): (mask: seq<bool>)
    ensures |mask| == |lines|
    decreases |lines|
  {
    if lines == [] then []
    else if lines[0].pinned then [true] + Mask(lines[1..], spare)
    else if Cost(lines[0]) <= spare then [true] + Mask(lines[1..], spare - Cost(lines[0]))
    else [false] + Mask(lines[1..], spare)
  }

  // The lines whose mask entry is `want`, in order.
  function Select(lines: seq<Line>, mask: seq<bool>, want: bool): seq<Line>
    requires |mask| == |lines|
  {
    if lines == [] then [] else (if mask[0] == want then [lines[0]] else []) + Select(lines[1..], mask[1..], want)
  }

  function Kept(lines: seq<Line>, spare: int): seq<Line> {
    Select(lines, Mask(lines, spare), true)
  }

  function Dropped(lines: seq<Line>, spare: int): seq<Line> {
    Select(lines, Mask(lines, spare), false)
  }

  // ----- The renderer -----

  class DeterministicBuilder {
    var buf: string
    var remaining: int

    constructor (remaining: int)
      ensures buf == "" && this.remaining == remaining
    {
      buf, this.remaining := "", remaining;
    }

    method Write(line: string)
      modifies this
      ensures buf == old(buf) + line + "\n" && remaining == old(remaining) - |line| - 1
    {
      buf := buf + line;
      buf := buf + "\n";
      remaining := remaining - (|line| + 1);
    }
  }

  lemma {:induction false} BytesConcat(a: seq<Line>, b: seq<Line>)
    ensures Bytes(a + b) == Bytes(a) + Bytes(b)
  {
    if a == [] {
      assert a + b == b;
    } else {
      assert (a + b)[1..] == a[1..] + b;
      BytesConcat(a[1..], b);
    }
  }

  lemma {:induction false} PinnedConcat(a: seq<Line>, b: seq<Line>)
    ensures Pinned(a + b) == Pinned(a) + Pinned(b)
  {
    if a == [] {
      assert a + b == b;
    } else {
      var first := if a[0].pinned then [a[0]] else [];
      assert (a + b)[1..] == a[1..] + b;
      assert Pinned(a + b) == first + Pinned(a[1..] + b);
      PinnedConcat(a[1..], b);
      assert first + (Pinned(a[1..]) + Pinned(b)) == (first + Pinned(a[1..])) + Pinned(b);
    }
  }

  lemma {:induction false} PinnedOfSection(sec: Section)
    ensures Pinned(LinesOf(sec)) == PinnedLines(sec.kind, sec.pinned)
  {
    PinnedConcat(PinnedLines(sec.kind, sec.pinned), DegradableLines(sec.kind, sec.degradable));
    AllPinned(sec.kind, sec.pinned);
    NonePinned(sec.kind, sec.degradable);
  }

  lemma {:induction false} AllPinned(kind: string, texts: seq<string>)
    ensures Pinned(PinnedLines(kind, texts)) == PinnedLines(kind, texts)
  {
    if texts != [] {
      AllPinned(kind, texts[1..]);
      assert PinnedLines(kind, texts)[1..] == PinnedLines(kind, texts[1..]);
    }
  }

  lemma {:induction false} NonePinned(kind: string, items: seq<Degradable>)
    ensures Pinned(DegradableLines(kind, items)) == []
  {
    if items != [] {
      NonePinned(kind, items[1..]);
      assert DegradableLines(kind, items)[1..] == DegradableLines(kind, items[1..]);
    }
  }

  // The bytes of the pinned lines, section by section.
  method PinnedBytes(sections: seq<Section>) returns (total: nat)
    ensures total == Bytes(Pinned(AllLines(sections)))
  {
    total := 0;
    var i := 0;
    assert sections[0..] == sections;
    while i < |sections|
      invariant 0 <= i <= |sections|
      invariant total + Bytes(Pinned(AllLines(sections[i..]))) == Bytes(Pinned(AllLines(sections)))
    {
      var sec := sections[i];
      assert sections[i..][1..] == sections[i + 1..];
      PinnedConcat(LinesOf(sec), AllLines(sections[i + 1..]));
      PinnedOfSection(sec);
      BytesConcat(PinnedLines(sec.kind, sec.pinned), Pinned(AllLines(sections[i + 1..])));
      var j := 0;
      ghost var before := total;
      assert sec.pinned[0..] == sec.pinned;
      while j < |sec.pinned|
        invariant 0 <= j <= |sec.pinned|
        invariant total + Bytes(PinnedLines(sec.kind, sec.pinned[j..])) == before + Bytes(PinnedLines(sec.kind, sec.pinned))
      {
        assert sec.pinned[j..][1..] == sec.pinned[j + 1..];
        total := total + |sec.pinned[j]| + 1;
        j := j + 1;
      }
      i := i + 1;
    }
  }

  lemma FirstLine(line: Line, rest: seq<Line>, spare: int)
    ensures var fits := line.pinned || Cost(line) <= spare;
            var left := if line.pinned || !fits then spare else spare - Cost(line);
            && Kept([line] + rest, spare) == (if fits then [line] else []) + Kept(rest, left)
            && Dropped([line] + rest, spare) == (if fits then [] else [line]) + Dropped(rest, left)
  {
    var lines := [line] + rest;
    assert lines[1..] == rest;
  }

  // What has been written and recorded so far, completed by what the rest of
  // the lines will add, is the whole rendering.
  ghost predicate Rendered(lines: seq<Line>, room: int, buf: string, omitted: seq<Omitted>, rest: seq<Line>, spare: int) {
    && buf + Text(Kept(rest, spare)) == Text(Kept(lines, room))
    && omitted + Recorded(Dropped(rest, spare)) == Recorded(Dropped(lines, room))
  }

  lemma LineKept(lines: seq<Line>, room: int, buf: string, omitted: seq<Omitted>, line: Line, rest: seq<Line>, spare: int)
    requires Rendered(lines, room, buf, omitted, [line] + rest, spare) && (line.pinned || Cost(line) <= spare)
    ensures Rendered(lines, room, buf + line.text + "\n", omitted, rest, if line.pinned then spare else spare - Cost(line))
  {
    hide Kept, Dropped, Recorded;
    FirstLine(line, rest, spare);
    var left := if line.pinned then spare else spare - Cost(line);
    var kept := Kept(rest, left);
    assert ([line] + kept)[1..] == kept;
    assert buf + (line.text + "\n" + Text(kept)) == buf + line.text + "\n" + Text(kept);
    assert [] + Dropped(rest, left) == Dropped(rest, left);
  }

  lemma LineDropped(lines: seq<Line>, room: int, buf: string, omitted: seq<Omitted>, line: Line, rest: seq<Line>, spare: int)
    requires Rendered(lines, room, buf, omitted, [line] + rest, spare) && !line.pinned && Cost(line) > spare
    ensures Rendered(lines, room, buf, omitted + (if line.id != "" then [Omitted(line.kind, line.id)] else []), rest, spare)
  {
    hide Kept, Dropped, Text;
    FirstLine(line, rest, spare);
    var dropped := Dropped(rest, spare);
    var note := if line.id != "" then [Omitted(line.kind, line.id)] else [];
    assert ([line] + dropped)[1..] == dropped;
    assert omitted + (note + Recorded(dropped)) == omitted + note + Recorded(dropped);
    assert [] + Kept(rest, spare) == Kept(rest, spare);
  }

  method WritePinned(builder: DeterministicBuilder, sec: Section, futurePinned: int, ghost lines: seq<Line>, ghost room: int,
                     ghost omitted: seq<Omitted>, ghost after: seq<Line>) returns (future: int)
    requires Rendered(lines, room, builder.buf, omitted, PinnedLines(sec.kind, sec.pinned) + after, builder.remaining - futurePinned)
    modifies builder
    ensures Rendered(lines, room, builder.buf, omitted, after, builder.remaining - future)
    ensures builder.remaining - future == old(builder.remaining) - futurePinned
    ensures future == futurePinned - Bytes(PinnedLines(sec.kind, sec.pinned))
  {
    hide Rendered;
    future := futurePinned;
    ghost var spare := builder.remaining - futurePinned;
    var j := 0;
    assert sec.pinned[0..] == sec.pinned;
    while j < |sec.pinned|
      invariant 0 <= j <= |sec.pinned| && builder.remaining - future == spare
      invariant Rendered(lines, room, builder.buf, omitted, PinnedLines(sec.kind, sec.pinned[j..]) + after, spare)
      invariant future - Bytes(PinnedLines(sec.kind, sec.pinned[j..])) == futurePinned - Bytes(PinnedLines(sec.kind, sec.pinned))
    {
      ghost var line := Line(sec.kind, sec.pinned[j], "", true);
      ghost var rest := PinnedLines(sec.kind, sec.pinned[j + 1..]) + after;
      assert sec.pinned[j..][1..] == sec.pinned[j + 1..];
      assert PinnedLines(sec.kind, sec.pinned[j..]) + after == [line] + rest;
      LineKept(lines, room, builder.buf, omitted, line, rest, spare);
      builder.Write(sec.pinned[j]);
      future := future - (|sec.pinned[j]| + 1);
      j := j + 1;
    }
    assert [] + after == after;
  }

  method WriteDegradable(builder: DeterministicBuilder, sec: Section, futurePinned: int, recorded: seq<Omitted>,
                         ghost lines: seq<Line>, ghost room: int, ghost after: seq<Line>) returns (omitted: seq<Omitted>)
    requires Rendered(lines, room, builder.buf, recorded, DegradableLines(sec.kind, sec.degradable) + after, builder.remaining - futurePinned)
    modifies builder
    ensures Rendered(lines, room, builder.buf, omitted, after, builder.remaining - futurePinned)
  {
    hide Rendered;
    omitted := recorded;
    var j := 0;
    assert sec.degradable[0..] == sec.degradable;
    while j < |sec.degradable|
      invariant 0 <= j <= |sec.degradable|
      invariant Rendered(lines, room, builder.buf, omitted, DegradableLines(sec.kind, sec.degradable[j..]) + after, builder.remaining - futurePinned)
    {
      var item := sec.degradable[j];
      ghost var line := Line(sec.kind, item.text, item.id, false);
      ghost var rest := DegradableLines(sec.kind, sec.degradable[j + 1..]) + after;
      assert sec.degradable[j..][1..] == sec.degradable[j + 1..];
      assert DegradableLines(sec.kind, sec.degradable[j..]) + after == [line] + rest;
      var need := |item.text| + 1;
      if need > builder.remaining - futurePinned {
        LineDropped(lines, room, builder.buf, omitted, line, rest, builder.remaining - futurePinned);
        if item.id != "" {
          omitted := omitted + [Omitted(sec.kind, item.id)];
        } else {
          assert omitted + [] == omitted;
        }
      } else {
        LineKept(lines, room, builder.buf, omitted, line, rest, builder.remaining - futurePinned);
        builder.Write(item.text);
      }
      j := j + 1;
    }
    assert [] + after == after;
  }

  /** Renders the sections, or refuses when the pinned lines alone exceed the
      budget. */
  method RenderCompiled(sections: seq<Section>, budget: int) returns (text: Option<string>, omitted: seq<Omitted>)
    ensures var lines := AllLines(sections);
            var room := budget - Bytes(Pinned(lines));
            if room < 0 then text == None && omitted == []
            else text == Some(Text(Kept(lines, room))) && omitted == Recorded(Dropped(lines, room))
  {
    hide Rendered;
    ghost var lines := AllLines(sections);
    var required := PinnedBytes(sections);
    if required > budget {
      return None, [];
    }
    var builder := new DeterministicBuilder(budget);
    var futurePinned: int := required;
    omitted := [];
    var i := 0;
    assert sections[0..] == sections;
    NothingRendered(lines, budget - required);
    while i < |sections|
      invariant 0 <= i <= |sections|
      invariant Rendered(lines, budget - required, builder.buf, omitted, AllLines(sections[i..]), builder.remaining - futurePinned)
    {
      var sec := sections[i];
      assert sections[i..][1..] == sections[i + 1..];
      ghost var after := AllLines(sections[i + 1..]);
      ghost var degradable := DegradableLines(sec.kind, sec.degradable);
      assert LinesOf(sec) + after == PinnedLines(sec.kind, sec.pinned) + (degradable + after);
      futurePinned := WritePinned(builder, sec, futurePinned, lines, budget - required, omitted, degradable + after);
      omitted := WriteDegradable(builder, sec, futurePinned, omitted, lines, budget - required, after);
      i := i + 1;
    }
    AllRendered(lines, budget - required, builder.buf, omitted, builder.remaining - futurePinned);
    text := Some(builder.buf);
  }

  lemma NothingRendered(lines: seq<Line>, room: int)
    ensures Rendered(lines, room, "", [], lines, room)
  {
    assert "" + Text(Kept(lines, room)) == Text(Kept(lines, room));
    assert [] + Recorded(Dropped(lines, room)) == Recorded(Dropped(lines, room));
  }

  lemma AllRendered(lines: seq<Line>, room: int, buf: string, omitted: seq<Omitted>, spare: int)
    requires Rendered(lines, room, buf, omitted, [], spare)
    ensures buf == Text(Kept(lines, room)) && omitted == Recorded(Dropped(lines, room))
  {
    assert buf + "" == buf && omitted + [] == omitted;
  }

  // ----- What the rendering guarantees -----

  lemma {:induction false} KeptBytes(lines: seq<Line>, spare: int)
    requires spare >= 0
    ensures Bytes(Kept(lines, spare)) <= Bytes(Pinned(lines)) + spare
    decreases |lines|
  {
    if lines != [] {
      var line, rest := lines[0], lines[1..];
      assert lines == [line] + rest;
      FirstLine(line, rest, spare);
      var left := if line.pinned || Cost(line) > spare then spare else spare - Cost(line);
      KeptBytes(rest, left);
      BytesConcat([line], Kept(rest, left));
      BytesConcat([line], Pinned(rest));
      assert [] + Kept(rest, left) == Kept(rest, left) && [] + Pinned(rest) == Pinned(rest);
    }
  }

  lemma {:induction false} TextBytes(lines: seq<Line>)
    ensures |Text(lines)| == Bytes(lines)
  {
    if lines != [] {
      TextBytes(lines[1..]);
    }
  }

  lemma {:induction false} PinnedAreKept(lines: seq<Line>, spare: int)
    ensures Pinned(Kept(lines, spare)) == Pinned(lines)
    ensures forall line :: line in Dropped(lines, spare) ==> !line.pinned && line in lines
    decreases |lines|
  {
    if lines != [] {
      var line, rest := lines[0], lines[1..];
      assert lines == [line] + rest;
      FirstLine(line, rest, spare);
      var fits := line.pinned || Cost(line) <= spare;
      var left := if line.pinned || !fits then spare else spare - Cost(line);
      PinnedAreKept(rest, left);
      PinnedConcat(if fits then [line] else [], Kept(rest, left));
      PinnedConcat([line], rest);
    }
  }

  // Removing a line is the only change: the mask splits the lines in two and
  // nothing is reordered or repeated.
  lemma {:induction false} SelectSplits(lines: seq<Line>, mask: seq<bool>)
    requires |mask| == |lines|
    ensures multiset(Select(lines, mask, true)) + multiset(Select(lines, mask, false)) == multiset(lines)
  {
    if lines != [] {
      SelectSplits(lines[1..], mask[1..]);
      assert lines == [lines[0]] + lines[1..];
    }
  }

  // `picked` lists lines of `lines` at strictly increasing places.
  predicate At(places: seq<nat>, picked: seq<Line>, lines: seq<Line>) {
    && |places| == |picked|
    && (forall i :: 0 <= i < |places| ==> places[i] < |lines| && picked[i] == lines[places[i]])
    && (forall i, j :: 0 <= i < j < |places| ==> places[i] < places[j])
  }

  // What is left of `lines` when some are taken out.
  ghost predicate InOrder(picked: seq<Line>, lines: seq<Line>) {
    exists places: seq<nat> :: At(places, picked, lines)
  }

  lemma {:induction false} SelectInOrder(lines: seq<Line>, mask: seq<bool>, wanted: bool) returns (places: seq<nat>)
    requires |mask| == |lines|
    ensures At(places, Select(lines, mask, wanted), lines)
  {
    places := [];
    if lines != [] {
      hide At, Later;
      var line, picked := lines[0], Select(lines[1..], mask[1..], wanted);
      var rest := SelectInOrder(lines[1..], mask[1..], wanted);
      assert [line] + lines[1..] == lines;
      if mask[0] == wanted {
        places := [0] + Later(rest);
        FirstAt(rest, picked, line, lines[1..]);
        assert Select(lines, mask, wanted) == [line] + picked;
      } else {
        places := Later(rest);
        LaterAt(rest, picked, line, lines[1..]);
        assert Select(lines, mask, wanted) == picked;
      }
    }
  }

  // The same places once a line is put in front.
  function Later(places: seq<nat>): seq<nat> {
    seq(|places|, i requires 0 <= i < |places| => places[i] + 1)
  }

  lemma LaterAt(places: seq<nat>, picked: seq<Line>, line: Line, lines: seq<Line>)
    requires At(places, picked, lines)
    ensures At(Later(places), picked, [line] + lines)
  {
  }

  lemma FirstAt(places: seq<nat>, picked: seq<Line>, line: Line, lines: seq<Line>)
    requires At(places, picked, lines)
    ensures At([0] + Later(places), [line] + picked, [line] + lines)
  {
  }

  /** A rendering fails exactly when the pinned lines exceed the budget.
      Otherwise it is the lines in their order with some degradable ones
      removed: it has every pinned line, it fits the budget, each removal is
      recorded once, in order too, and nothing is removed when everything
      fits. */
  lemma RenderingGuarantees(sections: seq<Section>, budget: int)
    requires Bytes(Pinned(AllLines(sections))) <= budget
    ensures var lines := AllLines(sections);
            var room := budget - Bytes(Pinned(lines));
            && |Text(Kept(lines, room))| <= budget
            && Pinned(Kept(lines, room)) == Pinned(lines)
            && InOrder(Kept(lines, room), lines) && InOrder(Dropped(lines, room), lines)
            && (forall line :: line in Dropped(lines, room) ==> !line.pinned)
            && multiset(Kept(lines, room)) + multiset(Dropped(lines, room)) == multiset(lines)
            && (Bytes(lines) <= budget ==> Dropped(lines, room) == [])
  {
    hide Mask, Select, AllLines, Bytes, Pinned, Text;
    var lines := AllLines(sections);
    var room := budget - Bytes(Pinned(lines));
    KeptBytes(lines, room);
    TextBytes(Kept(lines, room));
    PinnedAreKept(lines, room);
    SelectSplits(lines, Mask(lines, room));
    var kept := SelectInOrder(lines, Mask(lines, room), true);
    var dropped := SelectInOrder(lines, Mask(lines, room), false);
    if Bytes(lines) <= budget {
      EverythingFits(lines, room);
    }
  }

  lemma {:induction false} EverythingFits(lines: seq<Line>, spare: int)
    requires Bytes(lines) <= Bytes(Pinned(lines)) + spare
    ensures Dropped(lines, spare) == []
    decreases |lines|
  {
    if lines != [] {
      var line, rest := lines[0], lines[1..];
      assert lines == [line] + rest;
      FirstLine(line, rest, spare);
      PinnedFits(rest);
      BytesConcat([line], Pinned(rest));
      assert [] + Pinned(rest) == Pinned(rest);
      EverythingFits(rest, if line.pinned then spare else spare - Cost(line));
    }
  }

  lemma {:induction false} PinnedFits(lines: seq<Line>)
    ensures Bytes(Pinned(lines)) <= Bytes(lines)
  {
    if lines != [] {
      PinnedFits(lines[1..]);
      BytesConcat([lines[0]], Pinned(lines[1..]));
      assert [] + Pinned(lines[1..]) == Pinned(lines[1..]);
    }
  }
}
