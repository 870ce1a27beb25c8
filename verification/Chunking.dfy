/**
 Splitting an oversized section of a document: at its blank lines when that gives two parts or more, otherwise by
 length. How a text falls into paragraphs, which characters are blank and how numbers print are parameters.
 */
module Chunking {
  import opened Basics

  const LIMIT := 1200

  /** The running buffer: an empty one is replaced, a full one is continued after a blank line. */
  function Glue(buf: string, para: string): string { if buf == "" then para else buf + "\n\n" + para }

  /** The text of a group of neighbouring paragraphs. */
  function Text(group: seq<string>): string {
    if group == [] then "" else Glue(Text(group[..|group| - 1]), group[|group| - 1])
  }

  function Concat(groups: seq<seq<string>>): seq<string> {
    if groups == [] then [] else Concat(groups[..|groups| - 1]) + groups[|groups| - 1]
  }

  function Texts(groups: seq<seq<string>>): (texts: seq<string>)
    ensures |texts| == |groups|
    ensures forall i :: 0 <= i < |groups| ==> texts[i] == Text(groups[i])
  {
    seq(|groups|, i requires 0 <= i < |groups| => Text(groups[i]))
  }

  /** The groups that are closed, and the one still open. */
  datatype Grouping = Grouping(closed: seq<seq<string>>, open: seq<string>)

  predicate Overflows(buf: string, para: string) { buf != "" && |buf| + |para| + 2 > LIMIT }

  /** A paragraph that would overflow the open group closes it. */
  function Add(g: Grouping, para: string): Grouping {
    if Overflows(Text(g.open), para) then Grouping(g.closed + [g.open], [para]) else Grouping(g.closed, g.open + [para])
  }

  function Greedy(paras: seq<string>): Grouping {
    if paras == [] then Grouping([], [])
    else Add(Greedy(paras[..|paras| - 1]), paras[|paras| - 1])
  }

  /** The groups that become parts: an open group without any text is left out. */
  function Groups(paras: seq<string>): seq<seq<string>> {
    var g := Greedy(paras);
    if Text(g.open) == "" then g.closed else g.closed + [g.open]
  }

  // ----- What a part holds ---------------------------------------------------------------------------

  lemma TextPlus(group: seq<string>, para: string)
    ensures Text(group + [para]) == Glue(Text(group), para)
  {
    assert (group + [para])[..|group|] == group;
  }

  lemma ConcatPlus(groups: seq<seq<string>>, group: seq<string>)
    ensures Concat(groups + [group]) == Concat(groups) + group
  {
    assert (groups + [group])[..|groups|] == groups;
  }

  /** The groups hold the paragraphs, all of them, in their order. */
  lemma {:induction false} ParagraphsKeepTheirOrder(paras: seq<string>)
    ensures Concat(Greedy(paras).closed) + Greedy(paras).open == paras
    decreases |paras|
  {
    hide Add;
    hide Concat;
    if paras == [] {
      NoGroups();
    } else {
      ParagraphsKeepTheirOrder(paras[..|paras| - 1]);
      AddKeepsOrder(Greedy(paras[..|paras| - 1]), paras[|paras| - 1]);
      assert paras == paras[..|paras| - 1] + [paras[|paras| - 1]];
    }
  }

  lemma NoGroups()
    ensures Concat([]) == []
  {
  }

  lemma AddKeepsOrder(g: Grouping, para: string)
    ensures Concat(Add(g, para).closed) + Add(g, para).open == Concat(g.closed) + g.open + [para]
  {
    ConcatPlus(g.closed, g.open);
  }

  /** Within the limit, or nothing but one paragraph - and empty ones before it. */
  predicate Reasonable(group: seq<string>) {
    |Text(group)| <= LIMIT || (group != [] && Text(group) == group[|group| - 1])
  }

  lemma GlueReasonable(group: seq<string>, para: string)
    ensures Reasonable([para])
    ensures Reasonable(group) && !Overflows(Text(group), para) ==> Reasonable(group + [para])
  {
    TextPlus(group, para);
    TextPlus([], para);
    assert [] + [para] == [para];
  }

  lemma {:induction false} PartsAreReasonable(paras: seq<string>)
    ensures forall i :: 0 <= i < |Greedy(paras).closed| ==> Reasonable(Greedy(paras).closed[i])
    ensures Reasonable(Greedy(paras).open)
    decreases |paras|
  {
    if paras == [] {
      assert Reasonable([]);
    } else {
      PartsAreReasonable(paras[..|paras| - 1]);
      StepReasonable(Greedy(paras[..|paras| - 1]), paras[|paras| - 1]);
    }
  }

  lemma StepReasonable(g: Grouping, para: string)
    requires Reasonable(g.open) && forall i :: 0 <= i < |g.closed| ==> Reasonable(g.closed[i])
    ensures Reasonable(Add(g, para).open)
    ensures forall i :: 0 <= i < |Add(g, para).closed| ==> Reasonable(Add(g, para).closed[i])
  {
    hide Reasonable;
    GlueReasonable(g.open, para);
  }

  lemma {:induction false} TextCovers(group: seq<string>, i: nat)
    requires i < |group|
    ensures |group[i]| <= |Text(group)|
    decreases |group|
  {
    if i < |group| - 1 { TextCovers(group[..|group| - 1], i); }
  }

  lemma {:induction false} ConcatHolds(groups: seq<seq<string>>, para: string)
    ensures para in Concat(groups) <==> exists i :: 0 <= i < |groups| && para in groups[i]
    decreases |groups|
  {
    if groups != [] {
      ConcatHolds(groups[..|groups| - 1], para);
      assert groups == groups[..|groups| - 1] + [groups[|groups| - 1]];
    }
  }

  /** A group fits when its text does. */
  predicate Fits(group: seq<string>) { |Text(group)| <= LIMIT }

  /** The parts hold every paragraph in order; what is left out at the end, if anything, is empty paragraphs. */
  lemma NothingIsLost(paras: seq<string>)
    ensures Concat(Groups(paras)) <= paras
    ensures forall i :: |Concat(Groups(paras))| <= i < |paras| ==> paras[i] == ""
  {
    hide Greedy;
    hide Text;
    var g := Greedy(paras);
    ParagraphsKeepTheirOrder(paras);
    ConcatPlus(g.closed, g.open);
    if Text(g.open) == "" {
      forall i | |Concat(g.closed)| <= i < |paras| ensures paras[i] == "" {
        TextCovers(g.open, i - |Concat(g.closed)|);
      }
    }
  }

  lemma InOneGroup(paras: seq<string>, group: seq<string>, k: nat)
    requires group in Greedy(paras).closed || group == Greedy(paras).open
    requires k < |group|
    ensures group[k] in paras
  {
    hide Greedy;
    ParagraphsKeepTheirOrder(paras);
    ConcatHolds(Greedy(paras).closed, group[k]);
    assert group[k] in Concat(Greedy(paras).closed) + Greedy(paras).open;
  }

  lemma GroupFits(paras: seq<string>, i: nat)
    requires i < |Groups(paras)| && forall p :: p in paras ==> |p| <= LIMIT
    ensures Fits(Groups(paras)[i])
  {
    hide Greedy;
    hide Text;
    var group := Groups(paras)[i];
    PartsAreReasonable(paras);
    if group != [] { InOneGroup(paras, group, |group| - 1); }
  }

  lemma LongParagraphShows(paras: seq<string>, p: string)
    requires p in paras && |p| > LIMIT
    ensures exists i :: 0 <= i < |Groups(paras)| && !Fits(Groups(paras)[i])
  {
    hide Greedy;
    hide Text;
    var g := Greedy(paras);
    ParagraphsKeepTheirOrder(paras);
    assert p in Concat(g.closed) || p in g.open;
    if p in g.open {
      var k :| 0 <= k < |g.open| && g.open[k] == p;
      TextCovers(g.open, k);
      assert !Fits(Groups(paras)[|g.closed|]);
    } else {
      ConcatHolds(g.closed, p);
      var i :| 0 <= i < |g.closed| && p in g.closed[i];
      var k :| 0 <= k < |g.closed[i]| && g.closed[i][k] == p;
      TextCovers(g.closed[i], k);
      assert !Fits(Groups(paras)[i]);
    }
  }

  /** Every part stays within the limit exactly when every paragraph does: a longer one is not cut. */
  lemma PartsFitIff(paras: seq<string>)
    ensures (forall i :: 0 <= i < |Groups(paras)| ==> Fits(Groups(paras)[i])) <==> (forall p :: p in paras ==> |p| <= LIMIT)
  {
    hide Groups;
    hide Fits;
    if forall p :: p in paras ==> |p| <= LIMIT {
      forall i | 0 <= i < |Groups(paras)| ensures Fits(Groups(paras)[i]) {
        GroupFits(paras, i);
      }
    } else {
      var p :| p in paras && |p| > LIMIT;
      LongParagraphShows(paras, p);
    }
  }

  /** What comes after a closed group: the next one, or the open one. */
  function After(g: Grouping, i: nat): seq<string>
    requires i < |g.closed|
  {
    if i + 1 < |g.closed| then g.closed[i + 1] else g.open
  }

  /** A group is closed only because the paragraph that comes next would have taken it over 1200 characters. */
  ghost predicate ClosedInTime(g: Grouping) {
    forall i :: 0 <= i < |g.closed| ==>
      Text(g.closed[i]) != "" && After(g, i) != [] && |Text(g.closed[i])| + 2 + |After(g, i)[0]| > 1200
  }

  lemma AddClosesInTime(g: Grouping, para: string)
    requires ClosedInTime(g)
    ensures ClosedInTime(Add(g, para))
  {
    hide Text;
    var g' := Add(g, para);
    forall i | 0 <= i < |g'.closed|
      ensures Text(g'.closed[i]) != "" && After(g', i) != [] && |Text(g'.closed[i])| + 2 + |After(g', i)[0]| > 1200
    {
      if i < |g.closed| { assert After(g, i) != [] && After(g', i) != [] && After(g', i)[0] == After(g, i)[0]; }
    }
  }

  lemma {:induction false} PartsAreFull(paras: seq<string>)
    ensures ClosedInTime(Greedy(paras))
    decreases |paras|
  {
    hide Add;
    hide ClosedInTime;
    if paras == [] {
      NoneInTime();
    } else {
      PartsAreFull(paras[..|paras| - 1]);
      AddClosesInTime(Greedy(paras[..|paras| - 1]), paras[|paras| - 1]);
    }
  }

  lemma NoneInTime()
    ensures ClosedInTime(Grouping([], []))
  {
  }

  // ----- No grouping does with fewer parts -----------------------------------------------------------

  /** Groups of neighbouring paragraphs, each within the limit, that make up the text. */
  ghost predicate Covers(groups: seq<seq<string>>, paras: seq<string>) {
    Concat(groups) == paras && forall i :: 0 <= i < |groups| ==> Fits(groups[i])
  }

  /** The greedy grouping is ahead: it has closed fewer groups, or as many with no more text in the open one. */
  predicate Ahead(g: Grouping, groups: seq<seq<string>>)
    requires groups != []
  {
    || |g.closed| < |groups| - 1
    || (|g.closed| == |groups| - 1 && |Text(g.open)| <= |Text(groups[|groups| - 1])|)
  }

  lemma {:induction false} GreedyStaysAhead(paras: seq<string>, groups: seq<seq<string>>)
    requires groups != [] && Covers(groups, paras)
    ensures Ahead(Greedy(paras), groups)
    decreases |paras| + |groups|
  {
    if paras != [] {
      var rest, last := groups[..|groups| - 1], groups[|groups| - 1];
      assert groups == rest + [last];
      if last == [] {
        assert rest != [];
        GreedyStaysAhead(paras, rest);
      } else {
        var g, para := last[..|last| - 1], last[|last| - 1];
        assert last == g + [para];
        TextPlus(g, para);
        assert Concat(rest) + g == paras[..|paras| - 1] && para == paras[|paras| - 1];
        ConcatPlus(rest, g);
        assert Fits(last);
        GreedyStaysAhead(paras[..|paras| - 1], rest + [g]);
        TextPlus(Greedy(paras[..|paras| - 1]).open, para);
        TextPlus([], para);
        assert [] + [para] == [para];
      }
    }
  }

  /** The greedy parts are as few as any grouping into parts within the limit can do with. */
  lemma FewestParts(paras: seq<string>, groups: seq<seq<string>>)
    requires Covers(groups, paras)
    ensures |Groups(paras)| <= |groups|
  {
    if groups != [] { GreedyStaysAhead(paras, groups); }
  }

  // ----- Slices --------------------------------------------------------------------------------------

  function Join(parts: seq<string>): string {
    if parts == [] then "" else Join(parts[..|parts| - 1]) + parts[|parts| - 1]
  }

  /** The content in pieces of the full length, and a last one with the rest. */
  function Slices(content: string): seq<string>
    decreases |content|
  {
    if content == "" then []
    else if |content| <= LIMIT then [content]
    else [content[..LIMIT]] + Slices(content[LIMIT..])
  }

  lemma {:induction false} JoinFront(part: string, parts: seq<string>)
    ensures Join([part] + parts) == part + Join(parts)
    decreases |parts|
  {
    if parts == [] {
      assert [part] + parts == [part] && [part][..0] == [];
    } else {
      assert ([part] + parts)[..|parts|] == [part] + parts[..|parts| - 1];
      JoinFront(part, parts[..|parts| - 1]);
    }
  }

  /** Put together the slices give the content; each is within the limit, and full unless it is the last. */
  lemma {:induction false} SlicesMakeContent(content: string)
    ensures Join(Slices(content)) == content
    ensures forall i :: 0 <= i < |Slices(content)| ==> 0 < |Slices(content)[i]| <= LIMIT
    ensures forall i :: 0 <= i < |Slices(content)| - 1 ==> |Slices(content)[i]| == LIMIT
    ensures |content| > LIMIT ==> |Slices(content)| >= 2
    decreases |content|
  {
    if |content| > LIMIT {
      SlicesMakeContent(content[LIMIT..]);
      JoinFront(content[..LIMIT], Slices(content[LIMIT..]));
      assert content == content[..LIMIT] + content[LIMIT..];
    } else if content != "" {
      assert [content][..0] == [];
    }
  }

  function Rest(content: string, i: nat): string { if i <= |content| then content[i..] else "" }

  lemma SlicesStep(content: string, i: nat)
    requires i < |content|
    ensures Slices(Rest(content, i)) == [content[i..if i + LIMIT <= |content| then i + LIMIT else |content|]] + Slices(Rest(content, i + LIMIT))
  {
    if i + LIMIT < |content| {
      assert content[i..][..LIMIT] == content[i..i + LIMIT] && content[i..][LIMIT..] == content[i + LIMIT..];
    } else {
      assert Rest(content, i + LIMIT) == "" && content[i..] == content[i..|content|];
    }
  }

  /** The slicing comprehension. */
  method Slice(content: string) returns (parts: seq<string>)
    ensures parts == Slices(content)
  {
    hide Slices;
    NoSlices();
    parts := [];
    var i: nat := 0;
    assert Rest(content, 0) == content;
    while i < |content|
      invariant parts + Slices(Rest(content, i)) == Slices(content)
      decreases |content| - i
    {
      SlicesStep(content, i);
      parts := parts + [content[i..if i + LIMIT <= |content| then i + LIMIT else |content|]];
      i := i + LIMIT;
    }
    assert Rest(content, i) == "";
  }

  lemma NoSlices()
    ensures Slices("") == []
  {
  }

  // ----- The splitter --------------------------------------------------------------------------------

  lemma AddText(g: Grouping, para: string)
    ensures Texts(Add(g, para).closed) == if Overflows(Text(g.open), para) then Texts(g.closed) + [Text(g.open)] else Texts(g.closed)
    ensures Text(Add(g, para).open) == if Overflows(Text(g.open), para) then para else Glue(Text(g.open), para)
  {
    TextPlus(g.open, para);
    TextPlus([], para);
    assert [] + [para] == [para];
  }

  lemma GreedyPlus(paras: seq<string>, i: nat)
    requires i < |paras|
    ensures Greedy(paras[..i + 1]) == Add(Greedy(paras[..i]), paras[i])
  {
    assert paras[..i + 1][..i] == paras[..i];
  }

  /** The buffer loop over the paragraphs. */
  method GroupParagraphs(paras: seq<string>) returns (parts: seq<string>)
    ensures parts == Texts(Groups(paras))
  {
    hide Greedy;
    hide Text;
    hide Add;
    parts := [];
    var buf := "";
    NoneYet();
    assert paras[..0] == [];
    for i := 0 to |paras|
      invariant parts == Texts(Greedy(paras[..i]).closed)
      invariant buf == Text(Greedy(paras[..i]).open)
    {
      var para := paras[i];
      GreedyPlus(paras, i);
      AddText(Greedy(paras[..i]), para);
      if buf != "" && |buf| + |para| + 2 > LIMIT {
        parts := parts + [buf];
        buf := para;
      } else {
        buf := if buf != "" then buf + "\n\n" + para else para;
      }
    }
    assert paras[..|paras|] == paras;
    if buf != "" { parts := parts + [buf]; }
  }

  lemma NoneYet()
    ensures Greedy([]) == Grouping([], []) && Text([]) == ""
  {
  }

  datatype Chunk = Chunk(heading: Option<string>, content: string)

  function TrimLeft(s: string, blank: char -> bool): (t: string)
    ensures |t| <= |s|
  {
    if s != "" && blank(s[0]) then TrimLeft(s[1..], blank) else s
  }

  function TrimRight(s: string, blank: char -> bool): (t: string)
    ensures |t| <= |s|
  {
    if s != "" && blank(s[|s| - 1]) then TrimRight(s[..|s| - 1], blank) else s
  }

  function Strip(s: string, blank: char -> bool): (t: string)
    ensures |t| <= |s|
  {
    TrimRight(TrimLeft(s, blank), blank)
  }

  predicate AllBlank(s: string, blank: char -> bool) { forall i :: 0 <= i < |s| ==> blank(s[i]) }

  lemma {:induction false} TrimLeftSays(s: string, blank: char -> bool) returns (lead: string)
    ensures s == lead + TrimLeft(s, blank) && AllBlank(lead, blank)
    ensures TrimLeft(s, blank) != "" ==> !blank(TrimLeft(s, blank)[0])
    decreases |s|
  {
    lead := "";
    if s != "" && blank(s[0]) {
      var rest := TrimLeftSays(s[1..], blank);
      lead := [s[0]] + rest;
      assert s == [s[0]] + s[1..];
    }
  }

  lemma {:induction false} TrimRightSays(s: string, blank: char -> bool) returns (trail: string)
    ensures s == TrimRight(s, blank) + trail && AllBlank(trail, blank)
    ensures TrimRight(s, blank) != "" ==> !blank(TrimRight(s, blank)[|TrimRight(s, blank)| - 1])
    decreases |s|
  {
    trail := "";
    if s != "" && blank(s[|s| - 1]) {
      var rest := TrimRightSays(s[..|s| - 1], blank);
      trail := rest + [s[|s| - 1]];
      assert s == s[..|s| - 1] + [s[|s| - 1]];
    }
  }

  /** Stripping takes blanks off both ends and nothing else, and leaves none there. */
  lemma StripSays(s: string, blank: char -> bool) returns (lead: string, trail: string)
    ensures var t := Strip(s, blank);
            && s == lead + t + trail && AllBlank(lead, blank) && AllBlank(trail, blank)
            && (t != "" ==> !blank(t[0]) && !blank(t[|t| - 1]))
  {
    hide TrimLeft;
    hide TrimRight;
    hide AllBlank;
    lead := TrimLeftSays(s, blank);
    var t := TrimLeft(s, blank);
    trail := TrimRightSays(t, blank);
    var piece := TrimRight(t, blank);
    assert lead + (piece + trail) == lead + piece + trail;
    assert piece != "" ==> piece[0] == t[0];
  }

  /** The part, but for blanks at its ends. */
  ghost predicate IsStripped(part: string, piece: string, blank: char -> bool) {
    && (exists lead, trail :: part == lead + piece + trail && AllBlank(lead, blank) && AllBlank(trail, blank))
    && (piece != "" ==> !blank(piece[0]) && !blank(piece[|piece| - 1]))
  }

  function Heading(heading: Option<string>, i: nat, total: nat, digits: nat -> string): string {
    var number := "(" + digits(i) + "/" + digits(total) + ")";
    if heading.Some? && heading.value != "" then heading.value + " " + number else number
  }

  /** The parts an oversized text is cut into: its paragraph groups if there are two or more, or else slices. */
  function PartsOf(content: string, paras: seq<string>): seq<string> {
    if |Groups(paras)| >= 2 then Texts(Groups(paras)) else Slices(content)
  }

  /** An oversized text always falls into two parts or more, and none is over the limit unless a paragraph is. */
  lemma OversizedIsSplit(content: string, paras: seq<string>)
    requires |content| > LIMIT
    ensures |PartsOf(content, paras)| >= 2
    ensures (forall i :: 0 <= i < |PartsOf(content, paras)| ==> |PartsOf(content, paras)[i]| <= LIMIT)
       <==> (|Groups(paras)| < 2 || forall p :: p in paras ==> |p| <= LIMIT)
  {
    hide Groups;
    hide Slices;
    if |Groups(paras)| >= 2 {
      PartsFitIff(paras);
      assert forall i :: 0 <= i < |Groups(paras)| ==> (|Texts(Groups(paras))[i]| <= LIMIT <==> Fits(Groups(paras)[i]));
    } else {
      SlicesMakeContent(content);
    }
  }

  /** One piece a part: stripped, and numbered from one under the chunk's heading. */
  function Numbered(heading: Option<string>, parts: seq<string>, blank: char -> bool, digits: nat -> string): (pieces: seq<Chunk>)
    ensures |pieces| == |parts|
    ensures forall i :: 0 <= i < |parts| ==> pieces[i] == Chunk(Some(Heading(heading, i + 1, |parts|, digits)), Strip(parts[i], blank))
  {
    seq(|parts|, i requires 0 <= i < |parts| => Chunk(Some(Heading(heading, i + 1, |parts|, digits)), Strip(parts[i], blank)))
  }

  /** What one chunk becomes: itself when it fits. */
  function Pieces(chunk: Chunk, split: string -> seq<string>, blank: char -> bool, digits: nat -> string): seq<Chunk> {
    if |chunk.content| <= LIMIT then [chunk]
    else Numbered(chunk.heading, PartsOf(chunk.content, split(chunk.content)), blank, digits)
  }

  /** No piece is over the limit, unless the text falls apart at its blank lines and a paragraph is over it. */
  lemma PiecesFit(chunk: Chunk, split: string -> seq<string>, blank: char -> bool, digits: nat -> string, i: nat)
    requires i < |Pieces(chunk, split, blank, digits)|
    requires |Groups(split(chunk.content))| >= 2 ==> forall p :: p in split(chunk.content) ==> |p| <= LIMIT
    ensures |Pieces(chunk, split, blank, digits)[i].content| <= LIMIT
  {
    hide PartsOf;
    hide Groups;
    if |chunk.content| > LIMIT {
      OversizedIsSplit(chunk.content, split(chunk.content));
    }
  }

  /** The parts are stretches of the content of 1200 characters each but the last, or texts of neighbouring paragraphs. */
  ghost predicate Makes(parts: seq<string>, content: string, paras: seq<string>) {
    || (Join(parts) == content && forall i :: 0 <= i < |parts| ==> 0 < |parts[i]| <= 1200 && (i < |parts| - 1 ==> |parts[i]| == 1200))
    || (exists groups: seq<seq<string>> ::
          && |groups| == |parts| && (forall i :: 0 <= i < |parts| ==> parts[i] == Text(groups[i]))
          && Concat(groups) <= paras && (forall i :: |Concat(groups)| <= i < |paras| ==> paras[i] == ""))
  }

  lemma PartsMakeContent(content: string, paras: seq<string>)
    ensures Makes(PartsOf(content, paras), content, paras)
  {
    hide Groups;
    hide Slices;
    hide Text;
    hide Join;
    if |Groups(paras)| >= 2 {
      NothingIsLost(paras);
      assert |Groups(paras)| == |PartsOf(content, paras)| && forall i :: 0 <= i < |Groups(paras)| ==> PartsOf(content, paras)[i] == Text(Groups(paras)[i]);
    } else {
      SlicesMakeContent(content);
    }
  }

  /** The text of a group: its paragraphs joined by blank lines, the empty ones before any text left out. */
  lemma TextSays(group: seq<string>, para: string)
    ensures Text([]) == "" && Text([para]) == para
    ensures Text(group + [para]) == if Text(group) == "" then para else Text(group) + "\n\n" + para
  {
    TextPlus(group, para);
    TextPlus([], para);
    assert [] + [para] == [para];
  }

  /**
   A chunk within 1200 characters is passed on as it is. A longer one becomes two pieces or more, which hold its content:
   they are parts of it, stripped of blanks at the ends, in order and numbered "(i/n)" under its heading.
   */
  lemma PiecesHoldTheContent(chunk: Chunk, split: string -> seq<string>, blank: char -> bool, digits: nat -> string)
    ensures |chunk.content| <= 1200 ==> Pieces(chunk, split, blank, digits) == [chunk]
    ensures |chunk.content| > 1200 ==>
              var pieces := Pieces(chunk, split, blank, digits);
              && |pieces| >= 2
              && (exists parts: seq<string> ::
                    && |parts| == |pieces| && Makes(parts, chunk.content, split(chunk.content))
                    && forall i :: 0 <= i < |pieces| ==> IsStripped(parts[i], pieces[i].content, blank))
              && forall i :: 0 <= i < |pieces| ==>
                   var number := "(" + digits(i + 1) + "/" + digits(|pieces|) + ")";
                   pieces[i].heading == Some(if chunk.heading.Some? && chunk.heading.value != "" then chunk.heading.value + " " + number else number)
  {
    hide PartsOf;
    hide Makes;
    hide Strip;
    if |chunk.content| > LIMIT {
      var parts := PartsOf(chunk.content, split(chunk.content));
      var pieces := Pieces(chunk, split, blank, digits);
      OversizedIsSplit(chunk.content, split(chunk.content));
      PartsMakeContent(chunk.content, split(chunk.content));
      forall i | 0 <= i < |pieces| ensures IsStripped(parts[i], pieces[i].content, blank) {
        var lead, trail := StripSays(parts[i], blank);
      }
    }
  }

  function AllPieces(chunks: seq<Chunk>, split: string -> seq<string>, blank: char -> bool, digits: nat -> string): seq<Chunk>
    decreases |chunks|
  {
    if chunks == [] then []
    else AllPieces(chunks[..|chunks| - 1], split, blank, digits) + Pieces(chunks[|chunks| - 1], split, blank, digits)
  }

  lemma {:induction false} PiecesFollow(a: seq<Chunk>, b: seq<Chunk>, split: string -> seq<string>, blank: char -> bool, digits: nat -> string)
    ensures AllPieces(a + b, split, blank, digits) == AllPieces(a, split, blank, digits) + AllPieces(b, split, blank, digits)
    ensures |b| == 1 ==> AllPieces(b, split, blank, digits) == Pieces(b[0], split, blank, digits)
    decreases |b|
  {
    hide Pieces;
    if b == [] {
      assert a + b == a;
    } else {
      assert (a + b)[..|a + b| - 1] == a + b[..|b| - 1];
      PiecesFollow(a, b[..|b| - 1], split, blank, digits);
    }
  }

  /** All chunks in order, each replaced by its pieces. */
  method SplitOversized(chunks: seq<Chunk>, split: string -> seq<string>, blank: char -> bool, digits: nat -> string)
    returns (result: seq<Chunk>)
    ensures result == AllPieces(chunks, split, blank, digits)
  {
    hide Pieces;
    result := [];
    for i := 0 to |chunks|
      invariant result == AllPieces(chunks[..i], split, blank, digits)
    {
      assert chunks[..i + 1][..i] == chunks[..i];
      var pieces := SplitChunk(chunks[i], split, blank, digits);
      result := result + pieces;
    }
    assert chunks[..|chunks|] == chunks;
  }

  method SplitChunk(chunk: Chunk, split: string -> seq<string>, blank: char -> bool, digits: nat -> string)
    returns (pieces: seq<Chunk>)
    ensures pieces == Pieces(chunk, split, blank, digits)
  {
    hide Groups;
    hide Slices;
    if |chunk.content| <= LIMIT { return [chunk]; }
    var parts := GroupParagraphs(split(chunk.content));
    if |parts| <= 1 { parts := Slice(chunk.content); }
    OversizedIsSplit(chunk.content, split(chunk.content));
    pieces := [];
    for i := 0 to |parts|
      invariant |pieces| == i
      invariant forall k :: 0 <= k < i ==> pieces[k] == Chunk(Some(Heading(chunk.heading, k + 1, |parts|, digits)), Strip(parts[k], blank))
    {
      var heading := chunk.heading;
      if |parts| > 1 { heading := Some(Heading(chunk.heading, i + 1, |parts|, digits)); }
      pieces := pieces + [Chunk(heading, Strip(parts[i], blank))];
    }
    assert pieces == Numbered(chunk.heading, parts, blank, digits);
  }
}
