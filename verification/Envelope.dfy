/** The envelope scanner: finds protocol tags in a model's response, ignoring
    any that occur inside a JSON string of the envelope, and extracts the one
    envelope a response may hold.
 */
module Envelope {

  datatype Kind = Action | Final

  datatype Marker = Marker(kind: Kind, opening: bool)

  datatype Tag = Tag(marker: Marker, start: nat, end: nat)

  function MarkerText(m: Marker): string {
    match m
    case Marker(Action, true) => "<runstead_action>"
    case Marker(Action, false) => "</runstead_action>"
    case Marker(Final, true) => "<runstead_final>"
    case Marker(Final, false) => "</runstead_final>"
  }

  const MARKERS: seq<Marker> := [Marker(Action, true), Marker(Action, false), Marker(Final, true), Marker(Final, false)]

  datatype Found = Nothing | Found(marker: Marker)

  // The marker a text begins with.
  function MarkerAt(text: string): (found: Found)
    ensures found.Found? ==> MarkerText(found.marker) <= text
  {
    if MarkerText(MARKERS[0]) <= text then Found(MARKERS[0])
    else if MarkerText(MARKERS[1]) <= text then Found(MARKERS[1])
    else if MarkerText(MARKERS[2]) <= text then Found(MARKERS[2])
    else if MarkerText(MARKERS[3]) <= text then Found(MARKERS[3])
    else Nothing
  }

  // Where the scanner is: outside an envelope, inside one, inside a string of
  // one, or right after a backslash of such a string.
  datatype Mode = Outside | Inside | InString | Escaped

  function AfterStringChar(mode: Mode, c: char): Mode
    requires mode.InString? || mode.Escaped?
  {
    if mode.Escaped? then InString else if c == '\\' then Escaped else if c == '"' then Inside else InString
  }

  function AfterMarker(m: Marker): Mode {
    if m.opening then Inside else Outside
  }

  // The tags of a text that starts at offset `base` of the response.
  function Scan(text: string, base: nat, mode: Mode): seq<Tag>
    decreases |text|
  {
    if text == "" then []
    else if mode.InString? || mode.Escaped? then Scan(text[1..], base + 1, AfterStringChar(mode, text[0]))
    else
      var found := MarkerAt(text);
      if found.Found? then
        var size := |MarkerText(found.marker)|;
        [Tag(found.marker, base, base + size)] + Scan(text[size..], base + size, AfterMarker(found.marker))
      else Scan(text[1..], base + 1, if mode.Inside? && text[0] == '"' then InString else mode)
  }

  method FindMarker(response: string, offset: nat) returns (found: Found)
    requires offset < |response|
    ensures found == MarkerAt(response[offset..])
  {
    var i := 0;
    while i < |MARKERS|
      invariant 0 <= i <= |MARKERS|
      invariant forall j :: 0 <= j < i ==> !(MarkerText(MARKERS[j]) <= response[offset..])
    {
      if MarkerText(MARKERS[i]) <= response[offset..] {
        return Found(MARKERS[i]);
      }
      i := i + 1;
    }
    return Nothing;
  }

  function ModeOf(inEnvelope: bool, inString: bool, escaped: bool): Mode {
    if !inEnvelope then Outside else if !inString then Inside else if !escaped then InString else Escaped
  }

  // One character of a string.
  method PassStringChar(c: char, wasEscaped: bool) returns (inString: bool, escaped: bool)
    ensures (escaped ==> inString) && ModeOf(true, inString, escaped) == AfterStringChar(ModeOf(true, true, wasEscaped), c)
  {
    inString, escaped := true, wasEscaped;
    if escaped {
      escaped := false;
    } else if c == '\\' {
      escaped := true;
    } else if c == '"' {
      inString := false;
    }
  }

  // The scanner's three moves.
  lemma ScanMoves(response: string, offset: nat, mode: Mode)
    requires offset < |response|
    ensures var text, found := response[offset..], MarkerAt(response[offset..]);
            Scan(text, offset, mode) ==
              if mode.InString? || mode.Escaped? then Scan(response[offset + 1..], offset + 1, AfterStringChar(mode, response[offset]))
              else if found.Found? then
                var end := offset + |MarkerText(found.marker)|;
                [Tag(found.marker, offset, end)] + Scan(response[end..], end, AfterMarker(found.marker))
              else Scan(response[offset + 1..], offset + 1, if mode.Inside? && response[offset] == '"' then InString else mode)
  {
    hide MarkerText;
    var text, found := response[offset..], MarkerAt(response[offset..]);
    assert text[1..] == response[offset + 1..];
    if found.Found? {
      assert text[|MarkerText(found.marker)|..] == response[offset + |MarkerText(found.marker)|..];
    }
  }

  method ScanEnvelopeTags(response: string) returns (tags: seq<Tag>)
    ensures tags == Scan(response, 0, Outside)
  {
    hide Scan, MarkerAt, MarkerText, AfterStringChar;
    tags := [];
    var inEnvelope, inString, escaped := false, false, false;
    var offset := 0;
    assert response[0..] == response;
    while offset < |response|
      invariant 0 <= offset <= |response|
      invariant (inString ==> inEnvelope) && (escaped ==> inString)
      invariant tags + Scan(response[offset..], offset, ModeOf(inEnvelope, inString, escaped)) == Scan(response, 0, Outside)
    {
      ScanMoves(response, offset, ModeOf(inEnvelope, inString, escaped));
      if inEnvelope && inString {
        inString, escaped := PassStringChar(response[offset], escaped);
        offset := offset + 1;
        continue;
      }
      var found := FindMarker(response, offset);
      if found.Found? {
        MarkersStartOnce(found.marker);
        tags := tags + [Tag(found.marker, offset, offset + |MarkerText(found.marker)|)];
        offset := offset + |MarkerText(found.marker)|;
        if found.marker.opening {
          inEnvelope := true;
        } else {
          inEnvelope, inString, escaped := false, false, false;
        }
        continue;
      }
      if inEnvelope && response[offset] == '"' {
        inString := true;
      }
      offset := offset + 1;
    }
    assert response[offset..] == "";
    ScanEnds(offset, ModeOf(inEnvelope, inString, escaped));
  }

  lemma ScanEnds(base: nat, mode: Mode)
    ensures Scan("", base, mode) == []
  {
  }

  // ----- Extraction -----

  datatype Failure = MissingEnvelope | UnclosedEnvelope | MultipleEnvelopes

  datatype Extraction = Extracted(kind: Kind, block: string, mixedProse: bool) | Rejected(failure: Failure)

  predicate Space(c: char) {
    c in {'\t', '\n', '\U{0b}', '\U{0c}', '\r', ' ', '\U{85}', '\U{a0}', '\U{1680}', '\U{2028}', '\U{2029}', '\U{202f}', '\U{205f}', '\U{3000}'}
    || '\U{2000}' <= c <= '\U{200a}'
  }

  predicate Blank(text: string) {
    forall i :: 0 <= i < |text| ==> Space(text[i])
  }

  function OpenCount(tags: seq<Tag>): nat {
    if tags == [] then 0 else (if tags[0].marker.opening then 1 else 0) + OpenCount(tags[1..])
  }

  // Tags in order, none overlapping, between `low` and `high`.
  predicate Chained(tags: seq<Tag>, low: nat, high: nat) {
    tags == [] || (low <= tags[0].start <= tags[0].end <= high && Chained(tags[1..], tags[0].end, high))
  }

  function Judge(response: string, tags: seq<Tag>): Extraction
    requires Chained(tags, 0, |response|)
  {
    if tags == [] then Rejected(MissingEnvelope)
    else if OpenCount(tags) == 0 then Rejected(UnclosedEnvelope)
    else if OpenCount(tags) > 1 then Rejected(MultipleEnvelopes)
    else if !tags[0].marker.opening then Rejected(UnclosedEnvelope)
    else if |tags| != 2 then Rejected(UnclosedEnvelope)
    else if tags[1].marker.opening || tags[0].marker.kind != tags[1].marker.kind then Rejected(MultipleEnvelopes)
    else
      assert Chained(tags[1..], tags[0].end, |response|) && tags[1] == tags[1..][0];
      Extracted(tags[0].marker.kind, response[tags[0].end..tags[1].start], !Blank(response[..tags[0].start] + response[tags[1].end..]))
  }

  lemma {:induction false} ScanIsChained(text: string, base: nat, mode: Mode, low: nat)
    requires low <= base
    ensures Chained(Scan(text, base, mode), low, base + |text|)
    decreases |text|
  {
    hide MarkerText;
    if text != "" {
      if mode.InString? || mode.Escaped? {
        ScanIsChained(text[1..], base + 1, AfterStringChar(mode, text[0]), low);
      } else {
        var found := MarkerAt(text);
        if found.Found? {
          var size := |MarkerText(found.marker)|;
          MarkersStartOnce(found.marker);
          ScanIsChained(text[size..], base + size, AfterMarker(found.marker), base + size);
        } else {
          ScanIsChained(text[1..], base + 1, if mode.Inside? && text[0] == '"' then InString else mode, low);
        }
      }
    }
  }

  function Extract(response: string): Extraction {
    ScanIsChained(response, 0, Outside, 0);
    Judge(response, Scan(response, 0, Outside))
  }

  method ExtractEnvelope(response: string) returns (result: Extraction)
    ensures result == Extract(response)
  {
    var tags := ScanEnvelopeTags(response);
    ScanIsChained(response, 0, Outside, 0);
    if |tags| == 0 {
      return Rejected(MissingEnvelope);
    }
    var openCount := 0;
    var i := 0;
    assert tags[0..] == tags;
    while i < |tags|
      invariant 0 <= i <= |tags|
      invariant openCount + OpenCount(tags[i..]) == OpenCount(tags)
    {
      assert tags[i..][1..] == tags[i + 1..];
      if tags[i].marker.opening {
        openCount := openCount + 1;
      }
      i := i + 1;
    }
    if openCount == 0 {
      return Rejected(UnclosedEnvelope);
    }
    if openCount > 1 {
      return Rejected(MultipleEnvelopes);
    }
    if !tags[0].marker.opening {
      return Rejected(UnclosedEnvelope);
    }
    if |tags| != 2 {
      return Rejected(UnclosedEnvelope);
    }
    if tags[1].marker.opening || tags[0].marker.kind != tags[1].marker.kind {
      return Rejected(MultipleEnvelopes);
    }
    var outside := response[..tags[0].start] + response[tags[1].end..];
    return Extracted(tags[0].marker.kind, response[tags[0].end..tags[1].start], !Blank(outside));
  }

  // ----- Prose holds no marker -----

  predicate MarkerFree(text: string) {
    forall i :: 0 <= i <= |text| ==> MarkerAt(text[i..]).Nothing?
  }

  // A marker's only angle bracket is its first character.
  lemma MarkersStartOnce(m: Marker)
    ensures var text := MarkerText(m); |text| > 0 && text[0] == '<' && forall i :: 1 <= i < |text| ==> text[i] != '<' && text[i] != '"'
  {
  }

  // So none can straddle the point where another begins.
  lemma MarkersDoNotStraddle(m: Marker, prose: string, rest: string, i: nat)
    requires i < |prose| && (rest == "" || rest[0] == '<' || rest[0] == '"')
    requires MarkerText(m) <= (prose + rest)[i..]
    ensures MarkerText(m) <= prose[i..]
  {
    hide MarkerText;
    MarkersStartOnce(m);
    var text := (prose + rest)[i..];
    assert forall k :: 1 <= k < |MarkerText(m)| ==> text[k] != '<' && text[k] != '"';
    assert rest != "" ==> text[|prose| - i] == rest[0];
    assert |MarkerText(m)| <= |prose| - i;
    assert prose[i..] == (prose + rest)[i..][..|prose| - i];
  }

  lemma NoStraddling(prose: string, rest: string, i: nat)
    requires MarkerFree(prose) && i < |prose| && (rest == "" || rest[0] == '<' || rest[0] == '"')
    ensures MarkerAt((prose + rest)[i..]).Nothing?
  {
    hide MarkerText;
    var found := MarkerAt((prose + rest)[i..]);
    if found.Found? {
      MarkersDoNotStraddle(found.marker, prose, rest, i);
      BeginsWithMarker(found.marker, prose[i..]);
    }
  }

  lemma BeginsWithMarker(m: Marker, text: string)
    requires MarkerText(m) <= text
    ensures MarkerAt(text).Found?
  {
    hide MarkerText;
    match m {
      case Marker(Action, true) => assert m == MARKERS[0];
      case Marker(Action, false) => assert m == MARKERS[1];
      case Marker(Final, true) => assert m == MARKERS[2];
      case Marker(Final, false) => assert m == MARKERS[3];
    }
  }

  lemma CharIsSkipped(text: string, base: nat, mode: Mode)
    requires text != "" && MarkerAt(text).Nothing? && (mode.Outside? || (mode.Inside? && text[0] != '"'))
    ensures Scan(text, base, mode) == Scan(text[1..], base + 1, mode)
  {
    hide MarkerAt;
  }

  lemma {:induction false} ProseIsSkipped(prose: string, rest: string, base: nat, from: nat)
    requires MarkerFree(prose) && from <= |prose| && (rest == "" || rest[0] == '<' || rest[0] == '"')
    ensures Scan((prose + rest)[from..], base + from, Outside) == Scan(rest, base + |prose|, Outside)
    decreases |prose| - from
  {
    hide Scan, MarkerAt, MarkerFree;
    var text := (prose + rest)[from..];
    if from == |prose| {
      assert text == rest;
    } else {
      NoStraddling(prose, rest, from);
      CharIsSkipped(text, base + from, Outside);
      assert text[1..] == (prose + rest)[from + 1..];
      ProseIsSkipped(prose, rest, base, from + 1);
    }
  }

  // ----- JSON-shaped blocks -----

  // A block is structure and strings by turns. The structure of JSON holds
  // neither quotes nor angle brackets; a string holds anything, quotes and
  // backslashes escaped.
  datatype Piece = Structure(text: string) | Str(items: seq<Item>)

  datatype Item = Plain(c: char) | Escape(c: char)

  predicate ItemValid(item: Item) {
    item.Plain? ==> item.c != '"' && item.c != '\\'
  }

  predicate PieceValid(piece: Piece) {
    match piece
    case Structure(text) => forall i :: 0 <= i < |text| ==> text[i] != '"' && text[i] != '<'
    case Str(items) => forall i :: 0 <= i < |items| ==> ItemValid(items[i])
  }

  function PrintItems(items: seq<Item>): string {
    if items == [] then ""
    else (match items[0] case Plain(c) => [c] case Escape(c) => ['\\', c]) + PrintItems(items[1..])
  }

  function PrintPiece(piece: Piece): string {
    match piece
    case Structure(text) => text
    case Str(items) => "\"" + PrintItems(items) + "\""
  }

  function Print(pieces: seq<Piece>): string {
    if pieces == [] then "" else PrintPiece(pieces[0]) + Print(pieces[1..])
  }

  predicate BlockValid(pieces: seq<Piece>) {
    forall i :: 0 <= i < |pieces| ==> PieceValid(pieces[i])
  }

  lemma NotAMarker(text: string)
    requires text != "" && text[0] != '<'
    ensures MarkerAt(text).Nothing?
  {
    hide MarkerText;
    var found := MarkerAt(text);
    if found.Found? {
      MarkersStartOnce(found.marker);
    }
  }

  lemma {:induction false} StructureIsSkipped(text: string, rest: string, base: nat)
    requires forall i :: 0 <= i < |text| ==> text[i] != '"' && text[i] != '<'
    ensures Scan(text + rest, base, Inside) == Scan(rest, base + |text|, Inside)
    decreases |text|
  {
    hide Scan, MarkerAt;
    if text == "" {
      assert text + rest == rest;
    } else {
      NotAMarker(text + rest);
      CharIsSkipped(text + rest, base, Inside);
      assert (text + rest)[1..] == text[1..] + rest;
      StructureIsSkipped(text[1..], rest, base + 1);
    }
  }

  lemma StringCharIsRead(c: char, rest: string, base: nat, mode: Mode)
    requires mode.InString? || mode.Escaped?
    ensures Scan([c] + rest, base, mode) == Scan(rest, base + 1, AfterStringChar(mode, c))
  {
    hide MarkerAt, AfterStringChar;
    assert ([c] + rest)[1..] == rest;
  }

  lemma {:induction false} StringIsSkipped(items: seq<Item>, rest: string, base: nat)
    requires forall i :: 0 <= i < |items| ==> ItemValid(items[i])
    ensures Scan(PrintItems(items) + "\"" + rest, base, InString) == Scan(rest, base + |PrintItems(items)| + 1, Inside)
    decreases |items|
  {
    hide Scan;
    if items == [] {
      assert PrintItems(items) + "\"" + rest == ['"'] + rest;
      StringCharIsRead('"', rest, base, InString);
    } else {
      var c, tail := items[0].c, PrintItems(items[1..]) + "\"" + rest;
      assert ItemValid(items[0]);
      if items[0].Plain? {
        assert PrintItems(items) + "\"" + rest == [c] + tail;
        StringCharIsRead(c, tail, base, InString);
        StringIsSkipped(items[1..], rest, base + 1);
      } else {
        assert PrintItems(items) + "\"" + rest == ['\\'] + ([c] + tail);
        StringCharIsRead('\\', [c] + tail, base, InString);
        StringCharIsRead(c, tail, base + 1, Escaped);
        StringIsSkipped(items[1..], rest, base + 2);
      }
    }
  }

  lemma StringPieceIsSkipped(items: seq<Item>, rest: string, base: nat)
    requires PieceValid(Str(items))
    ensures Scan(PrintPiece(Str(items)) + rest, base, Inside) == Scan(rest, base + |PrintPiece(Str(items))|, Inside)
  {
    hide MarkerText, MarkerAt, PrintItems;
    var text := PrintPiece(Str(items)) + rest;
    NotAMarker(text);
    assert text[1..] == PrintItems(items) + "\"" + rest;
    StringIsSkipped(items, rest, base + 1);
  }

  lemma {:induction false} BlockIsSkipped(pieces: seq<Piece>, rest: string, base: nat)
    requires BlockValid(pieces)
    ensures Scan(Print(pieces) + rest, base, Inside) == Scan(rest, base + |Print(pieces)|, Inside)
    decreases |pieces|
  {
    hide MarkerText, MarkerAt, PrintItems;
    if pieces == [] {
      assert Print(pieces) + rest == rest;
    } else {
      var tail := Print(pieces[1..]) + rest;
      var text := PrintPiece(pieces[0]) + tail;
      assert Print(pieces) + rest == text;
      match pieces[0] {
        case Structure(s) => StructureIsSkipped(s, tail, base);
        case Str(items) => StringPieceIsSkipped(items, tail, base);
      }
      BlockIsSkipped(pieces[1..], rest, base + |PrintPiece(pieces[0])|);
    }
  }

  lemma MarkerIsFound(m: Marker, rest: string, base: nat, mode: Mode)
    requires mode.Outside? || mode.Inside?
    ensures var size := |MarkerText(m)|;
            Scan(MarkerText(m) + rest, base, mode) == [Tag(m, base, base + size)] + Scan(rest, base + size, AfterMarker(m))
  {
    hide MarkerText, MarkerAt;
    var text := MarkerText(m) + rest;
    assert text[|MarkerText(m)|..] == rest;
    OnlyMarker(m, rest);
    MarkersStartOnce(m);
  }

  // No marker begins with another.
  lemma OnlyMarker(m: Marker, rest: string)
    ensures MarkerAt(MarkerText(m) + rest) == Found(m)
  {
    var text := MarkerText(m) + rest;
    assert MarkerText(m) <= text;
    assert text[1] == MarkerText(m)[1] && text[10] == MarkerText(m)[10] && text[11] == MarkerText(m)[11];
  }

  function Envelope(kind: Kind, block: string): string {
    MarkerText(Marker(kind, true)) + block + MarkerText(Marker(kind, false))
  }

  /** Printing then extracting: around one envelope of any kind, marker-free
      prose changes nothing, and the block comes back as it was written,
      whatever its strings hold, the tags themselves included. */
  lemma ExtractionInvertsPrinting(before: string, kind: Kind, pieces: seq<Piece>, after: string)
    requires MarkerFree(before) && MarkerFree(after) && BlockValid(pieces)
    ensures Extract(before + Envelope(kind, Print(pieces)) + after) == Extracted(kind, Print(pieces), !Blank(before + after))
  {
    hide Scan, MarkerAt, MarkerText, Print, MarkerFree;
    var open, close := Marker(kind, true), Marker(kind, false);
    var block := Print(pieces);
    var response := before + Envelope(kind, block) + after;
    var tail := MarkerText(close) + after;
    var body := block + tail;
    assert response == before + (MarkerText(open) + body);
    MarkersStartOnce(open);
    MarkersStartOnce(close);
    var start := |before|;
    var inner := start + |MarkerText(open)|;
    var end := inner + |block|;
    var last := end + |MarkerText(close)|;
    assert response[0..] == response;
    ProseIsSkipped(before, MarkerText(open) + body, 0, 0);
    MarkerIsFound(open, body, start, Outside);
    BlockIsSkipped(pieces, tail, inner);
    MarkerIsFound(close, after, end, Inside);
    assert after + "" == after && after[0..] == after;
    ProseIsSkipped(after, "", last, 0);
    ScanEnds(last + |after|, Outside);
    assert Scan(response, 0, Outside) == [Tag(open, start, inner), Tag(close, end, last)];
    assert response[..start] == before && response[inner..end] == block && response[last..] == after;
    TwoTags(response, Tag(open, start, inner), Tag(close, end, last));
  }

  lemma TwoTags(response: string, a: Tag, b: Tag)
    requires Scan(response, 0, Outside) == [a, b] && a.start <= a.end <= b.start <= b.end <= |response|
    requires a.marker.opening && !b.marker.opening && a.marker.kind == b.marker.kind
    ensures Extract(response) == Extracted(a.marker.kind, response[a.end..b.start], !Blank(response[..a.start] + response[b.end..]))
  {
    hide Scan, MarkerAt, MarkerText;
    assert [a, b][1..] == [b] && [b][1..] == [];
    assert OpenCount([b]) == 0;
  }

  // ----- The converse -----

  // Where a scan finds no marker at the front, what it reports about the rest
  // is what it reports about the whole.
  lemma ShiftedTag(text: string, base: nat, t: Tag)
    requires text != "" && base < t.start <= t.end <= base + |text|
    requires MarkerAt(text).Nothing? && forall i :: 0 <= i < t.start - base - 1 ==> MarkerAt(text[1..][i..]).Nothing?
    ensures forall i :: 0 <= i < t.start - base ==> MarkerAt(text[i..]).Nothing?
  {
    hide MarkerAt;
    forall i | 0 <= i < t.start - base
      ensures MarkerAt(text[i..]).Nothing?
    {
      if i == 0 {
        assert text[0..] == text;
      } else {
        assert text[i..] == text[1..][i - 1..];
      }
    }
  }

  // The first tag names a marker the text holds, and the scan goes on behind
  // it; outside an envelope nothing before it begins with a marker.
  lemma {:induction false} FirstTag(text: string, base: nat, mode: Mode)
    requires Scan(text, base, mode) != []
    ensures var tags := Scan(text, base, mode);
            var t := tags[0];
            && base <= t.start <= t.end <= base + |text|
            && text[t.start - base..t.end - base] == MarkerText(t.marker)
            && tags[1..] == Scan(text[t.end - base..], t.end, AfterMarker(t.marker))
            && (mode.Outside? ==> forall i :: 0 <= i < t.start - base ==> MarkerAt(text[i..]).Nothing?)
    decreases |text|
  {
    hide MarkerText, MarkerAt;
    var found := MarkerAt(text);
    if mode.InString? || mode.Escaped? || found.Nothing? {
      var next := if mode.InString? || mode.Escaped? then AfterStringChar(mode, text[0])
                  else if mode.Inside? && text[0] == '"' then InString else mode;
      FirstTag(text[1..], base + 1, next);
      var t := Scan(text, base, mode)[0];
      assert text[t.start - base..t.end - base] == text[1..][t.start - base - 1..t.end - base - 1];
      assert text[t.end - base..] == text[1..][t.end - base - 1..];
      if mode.Outside? {
        ShiftedTag(text, base, t);
      }
    } else {
      assert text[..|MarkerText(found.marker)|] == MarkerText(found.marker);
    }
  }

  lemma {:induction false} NoTagNoMarker(text: string, base: nat)
    requires Scan(text, base, Outside) == []
    ensures MarkerFree(text)
    decreases |text|
  {
    hide MarkerText;
    if text == "" {
      EmptyIsMarkerFree();
    } else {
      NoTagNoMarker(text[1..], base + 1);
      forall i | 0 <= i <= |text|
        ensures MarkerAt(text[i..]).Nothing?
      {
        if i == 0 {
          assert text[0..] == text;
        } else {
          assert text[i..] == text[1..][i - 1..];
        }
      }
    }
  }

  lemma EmptyIsMarkerFree()
    ensures MarkerFree("") && MarkerAt("").Nothing?
  {
    assert ""[0..] == "";
  }

  lemma PrefixIsMarkerFree(text: string, cut: nat)
    requires cut <= |text| && forall i :: 0 <= i < cut ==> MarkerAt(text[i..]).Nothing?
    ensures MarkerFree(text[..cut])
  {
    hide MarkerText;
    forall i | 0 <= i <= cut
      ensures MarkerAt(text[..cut][i..]).Nothing?
    {
      var found := MarkerAt(text[..cut][i..]);
      if i == cut {
        assert text[..cut][i..] == "";
        EmptyIsMarkerFree();
      } else if found.Found? {
        assert text[..cut][i..] <= text[i..];
        BeginsWithMarker(found.marker, text[i..]);
      }
    }
  }

  lemma Reassembled(text: string, i: nat, j: nat, k: nat, l: nat)
    requires i <= j <= k <= l <= |text|
    ensures text == text[..i] + (text[i..j] + text[j..k] + text[k..l]) + text[l..]
  {
  }

  // The first tag of the rest of a response, at its place in the response.
  lemma NextTag(response: string, from: nat, mode: Mode, t: Tag, more: seq<Tag>)
    requires from <= |response| && Scan(response[from..], from, mode) == [t] + more
    ensures from <= t.start <= t.end <= |response|
    ensures response[t.start..t.end] == MarkerText(t.marker)
    ensures Scan(response[t.end..], t.end, AfterMarker(t.marker)) == more
  {
    hide Scan, MarkerText, MarkerAt;
    var rest := response[from..];
    FirstTag(rest, from, mode);
    assert ([t] + more)[1..] == more;
    assert rest[t.end - from..] == response[t.end..];
    assert rest[t.start - from..t.end - from] == response[t.start..t.end];
  }

  lemma BothTagsAreThere(response: string, a: Tag, b: Tag)
    requires Scan(response, 0, Outside) == [a, b] && a.marker.opening && !b.marker.opening
    ensures a.start <= a.end <= b.start <= b.end <= |response|
    ensures response[a.start..a.end] == MarkerText(a.marker) && response[b.start..b.end] == MarkerText(b.marker)
    ensures MarkerFree(response[..a.start]) && MarkerFree(response[b.end..])
  {
    hide Scan, MarkerText, MarkerAt, MarkerFree;
    assert response[0..] == response && [a] + [b] == [a, b] && [b] + [] == [b];
    NextTag(response, 0, Outside, a, [b]);
    NextTag(response, a.end, Inside, b, []);
    NoTagNoMarker(response[b.end..], b.end);
    FirstTag(response, 0, Outside);
    PrefixIsMarkerFree(response, a.start);
  }

  /** Whatever is extracted was there: the response is marker-free prose, one
      open tag, the block, the matching close tag and marker-free prose. */
  lemma ExtractionSplitsTheResponse(response: string) returns (before: string, after: string)
    requires Extract(response).Extracted?
    ensures var e := Extract(response);
            && response == before + Envelope(e.kind, e.block) + after
            && MarkerFree(before) && MarkerFree(after)
            && (e.mixedProse <==> !Blank(before + after))
  {
    hide Scan, MarkerText, MarkerAt, MarkerFree, Blank, Chained, OpenCount;
    ScanIsChained(response, 0, Outside, 0);
    var tags := Scan(response, 0, Outside);
    var a, b := tags[0], tags[1];
    assert tags == [a, b];
    BothTagsAreThere(response, a, b);
    before, after := response[..a.start], response[b.end..];
    Reassembled(response, a.start, a.end, b.start, b.end);
    assert b.marker == Marker(a.marker.kind, false) && a.marker == Marker(a.marker.kind, true);
  }
}
