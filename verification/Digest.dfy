/** `LessonStore.compile_digest` (adapters/lessons.py). */
module Digest {
  import opened Lists
  import opened StableSort
  import opened Lessons

  /** A line of the digest, by what it shows. */
  datatype Line =
    | Title
    | Notice
    | NothingRecorded
    | LayerHeading(layer: string)
    | LessonHeading(rule: string, repeated: bool)
    | Symptom(text: string)
    | Cause(text: string)
    | Mechanism(correction: string, mechanism: string)
    | RecordedOn(date: string)
    | DidNotHold(recurrences: nat)
    | Blank
    | Separator
    | Totals(lessons: nat, repeats: nat)

  const HEADER: seq<Line> := [Title, Blank, Notice, Blank]

  function LessonLines(l: Lesson): seq<Line> {
    [LessonHeading(l.rule, l.recurrences > 0), Blank, Symptom(l.symptom)]
    + (if l.cause != "" then [Cause(l.cause)] else [])
    + [Mechanism(l.correction, l.mechanism), RecordedOn(l.recordedAt)]
    + (if l.recurrences > 0 then [DidNotHold(l.recurrences)] else [])
    + [Blank]
  }

  function InLayer(ls: seq<Lesson>, layer: string): seq<Lesson> {
    if ls == [] then []
    else InLayer(ls[..|ls| - 1], layer) + if ls[|ls| - 1].layer == layer then [ls[|ls| - 1]] else []
  }

  function Recurrences(l: Lesson): real {
    l.recurrences as real
  }

  /** One layer's lessons, most repeated first. */
  function Section(ls: seq<Lesson>, layer: string): seq<Lesson> {
    SortDescending(InLayer(ls, layer), Recurrences)
  }

  /** The lessons in the order the digest shows them. */
  function Shown(ls: seq<Lesson>, layers: seq<string>): seq<Lesson> {
    if layers == [] then [] else Shown(ls, layers[..|layers| - 1]) + Section(ls, layers[|layers| - 1])
  }

  function LinesOf(ls: seq<Lesson>): seq<Line> {
    if ls == [] then [] else LinesOf(ls[..|ls| - 1]) + LessonLines(ls[|ls| - 1])
  }

  function SectionLines(ls: seq<Lesson>, layer: string): seq<Line> {
    if InLayer(ls, layer) == [] then [] else [LayerHeading(layer), Blank] + LinesOf(Section(ls, layer))
  }

  function BodyLines(ls: seq<Lesson>, layers: seq<string>): seq<Line> {
    if layers == [] then []
    else BodyLines(ls, layers[..|layers| - 1]) + SectionLines(ls, layers[|layers| - 1])
  }

  function Repeated(ls: seq<Lesson>): nat {
    Count(ls, (l: Lesson) => l.recurrences > 0)
  }

  function FooterLines(ls: seq<Lesson>): seq<Line> {
    [Separator, Blank, Totals(|ls|, Repeated(ls))]
  }

  function DigestFor(ls: seq<Lesson>, layers: seq<string>): seq<Line> {
    if ls == [] then [Title, Blank, NothingRecorded, Blank] else HEADER + BodyLines(ls, layers) + FooterLines(ls)
  }

  function DigestLines(ls: seq<Lesson>): seq<Line> {
    DigestFor(ls, LAYERS)
  }

  /** The dict `by_layer` after the lessons `ls`. */
  ghost predicate Grouped(byLayer: map<string, seq<Lesson>>, ls: seq<Lesson>) {
    forall layer :: if layer in byLayer then byLayer[layer] == InLayer(ls, layer) != [] else InLayer(ls, layer) == []
  }

  lemma GroupedStep(byLayer: map<string, seq<Lesson>>, ls: seq<Lesson>, i: nat)
    requires i < |ls| && Grouped(byLayer, ls[..i])
    ensures var l := ls[i];
            Grouped(byLayer[l.layer := (if l.layer in byLayer then byLayer[l.layer] else []) + [l]], ls[..i + 1])
  {
    assert ls[..i + 1][..i] == ls[..i];
  }

  lemma LinesStep(items: seq<Lesson>, i: nat)
    requires i < |items|
    ensures LinesOf(items[..i + 1]) == LinesOf(items[..i]) + LessonLines(items[i])
  {
    assert items[..i + 1][..i] == items[..i];
  }

  lemma BodyStep(ls: seq<Lesson>, layers: seq<string>, k: nat)
    requires k < |layers|
    ensures BodyLines(ls, layers[..k + 1])
            == BodyLines(ls, layers[..k])
               + if InLayer(ls, layers[k]) == [] then []
                 else [LayerHeading(layers[k]), Blank] + LinesOf(SortDescending(InLayer(ls, layers[k]), Recurrences))
  {
    assert layers[..k + 1][..k] == layers[..k];
  }

  method GroupByLayer(lessons: seq<Lesson>) returns (byLayer: map<string, seq<Lesson>>)
    ensures Grouped(byLayer, lessons)
  {
    byLayer := map[];
    for i := 0 to |lessons|
      invariant Grouped(byLayer, lessons[..i])
    {
      var lesson := lessons[i];
      GroupedStep(byLayer, lessons, i);
      byLayer := byLayer[lesson.layer := (if lesson.layer in byLayer then byLayer[lesson.layer] else []) + [lesson]];
    }
    assert lessons[..|lessons|] == lessons;
  }

  method LessonText(lesson: Lesson) returns (lines: seq<Line>)
    ensures lines == LessonLines(lesson)
  {
    lines := [LessonHeading(lesson.rule, lesson.recurrences > 0)];
    lines := lines + [Blank];
    lines := lines + [Symptom(lesson.symptom)];
    if lesson.cause != "" {
      lines := lines + [Cause(lesson.cause)];
    }
    lines := lines + [Mechanism(lesson.correction, lesson.mechanism)];
    lines := lines + [RecordedOn(lesson.recordedAt)];
    if lesson.recurrences > 0 {
      lines := lines + [DidNotHold(lesson.recurrences)];
    }
    lines := lines + [Blank];
  }

  method SectionText(items: seq<Lesson>) returns (lines: seq<Line>)
    ensures lines == LinesOf(items)
  {
    lines := [];
    for i := 0 to |items|
      invariant lines == LinesOf(items[..i])
    {
      LinesStep(items, i);
      var block := LessonText(items[i]);
      lines := lines + block;
    }
    assert items[..|items|] == items;
  }

  method SectionsText(lessons: seq<Lesson>, layers: seq<string>) returns (lines: seq<Line>)
    ensures lines == BodyLines(lessons, layers)
  {
    var byLayer := GroupByLayer(lessons);
    lines := [];
    for k := 0 to |layers|
      invariant lines == BodyLines(lessons, layers[..k])
    {
      BodyStep(lessons, layers, k);
      if layers[k] in byLayer {
        var section := SectionText(SortDescending(byLayer[layers[k]], Recurrences));
        lines := lines + ([LayerHeading(layers[k]), Blank] + section);
      }
    }
    assert layers[..|layers|] == layers;
  }

  method CompileDigest(store: LessonStore) returns (lines: seq<Line>)
    ensures lines == DigestLines(AllLessons(store.files))
    ensures BlocksIn(lines) == Map(Shown(AllLessons(store.files), LAYERS), (l: Lesson) => BlockOf(l))
    ensures TotalsIn(lines)
            == if store.files == map[] then None
               else Some((|AllLessons(store.files)|, Repeated(AllLessons(store.files))))
  {
    var lessons := AllLessons(store.files);
    DigestReadsBack(lessons);
    EmptyStore(store.files);
    if lessons == [] {
      return [Title, Blank, NothingRecorded, Blank];
    }
    var body := SectionsText(lessons, LAYERS);
    lines := HEADER + body + FooterLines(lessons);
  }

  lemma EmptyStore(files: map<string, Lesson>)
    ensures AllLessons(files) == [] <==> files == map[]
  {
    SignaturesListed(files);
    if files != map[] {
      var s :| s in files;
      assert s in Signatures(files);
    }
  }

  // Reading a digest

  /** A lesson as a digest shows it: under which layer heading, and the lines of its block. */
  datatype Block = Block(layer: Option<string>, lines: seq<Line>)

  /** What has been read so far; `within` a block or not. */
  datatype Page = Page(layer: Option<string>, within: bool, blocks: seq<Block>, totals: Option<(nat, nat)>)

  const START := Page(None, false, [], None)

  /** Headings start layers and blocks, other lines belong to the block they stand in. */
  function ReadLine(p: Page, line: Line): Page {
    match line
    case LayerHeading(layer) => p.(layer := Some(layer), within := false)
    case LessonHeading(_, _) => p.(within := true, blocks := p.blocks + [Block(p.layer, [line])])
    case Separator => p.(within := false)
    case Totals(lessons, repeats) => p.(totals := Some((lessons, repeats)))
    case _ =>
      if !p.within || p.blocks == [] then p
      else
        var last := p.blocks[|p.blocks| - 1];
        p.(blocks := p.blocks[..|p.blocks| - 1] + [last.(lines := last.lines + [line])])
  }

  function Read(p: Page, lines: seq<Line>): Page
    decreases |lines|
  {
    if lines == [] then p else Read(ReadLine(p, lines[0]), lines[1..])
  }

  function BlocksIn(lines: seq<Line>): seq<Block> {
    Read(START, lines).blocks
  }

  function TotalsIn(lines: seq<Line>): Option<(nat, nat)> {
    Read(START, lines).totals
  }

  function BlockOf(l: Lesson): Block {
    Block(Some(l.layer), LessonLines(l))
  }

  lemma {:induction false} ReadConcat(p: Page, xs: seq<Line>, ys: seq<Line>)
    ensures Read(p, xs + ys) == Read(Read(p, xs), ys)
    decreases |xs|
  {
    if xs == [] {
      assert xs + ys == ys;
    } else {
      assert (xs + ys)[1..] == xs[1..] + ys;
      ReadConcat(ReadLine(p, xs[0]), xs[1..], ys);
    }
  }

  /** A line that neither starts nor ends anything. */
  predicate Plain(line: Line) {
    !line.LayerHeading? && !line.LessonHeading? && !line.Separator? && !line.Totals?
  }

  lemma {:induction false} PlainOutside(p: Page, lines: seq<Line>)
    requires !p.within && forall i :: 0 <= i < |lines| ==> Plain(lines[i])
    ensures Read(p, lines) == p
  {
    if lines == [] {
    } else {
      PlainOutside(p, lines[1..]);
    }
  }

  lemma {:induction false} PlainWithin(p: Page, before: seq<Block>, b: Block, lines: seq<Line>)
    requires p.within && p.blocks == before + [b]
    requires forall i :: 0 <= i < |lines| ==> Plain(lines[i])
    ensures Read(p, lines) == p.(blocks := before + [b.(lines := b.lines + lines)])
    decreases |lines|
  {
    if lines == [] {
      assert b.lines + lines == b.lines;
    } else {
      var longer := b.(lines := b.lines + [lines[0]]);
      PlainLine(p, before, b, lines[0]);
      PlainWithin(p.(blocks := before + [longer]), before, longer, lines[1..]);
      assert b.lines + [lines[0]] + lines[1..] == b.lines + lines;
    }
  }

  lemma PlainLine(p: Page, before: seq<Block>, b: Block, line: Line)
    requires p.within && p.blocks == before + [b] && Plain(line)
    ensures ReadLine(p, line) == p.(blocks := before + [b.(lines := b.lines + [line])])
  {
    assert p.blocks[..|p.blocks| - 1] == before;
  }

  lemma BlockTailPlain(l: Lesson)
    ensures LessonLines(l) != [] && LessonLines(l)[0] == LessonHeading(l.rule, l.recurrences > 0)
    ensures forall i :: 1 <= i < |LessonLines(l)| ==> Plain(LessonLines(l)[i])
  {
  }

  lemma ReadBlock(p: Page, l: Lesson)
    ensures Read(p, LessonLines(l)) == p.(within := true, blocks := p.blocks + [Block(p.layer, LessonLines(l))])
  {
    var lines := LessonLines(l);
    BlockTailPlain(l);
    var first := Block(p.layer, [lines[0]]);
    PlainWithin(ReadLine(p, lines[0]), p.blocks, first, lines[1..]);
    assert [lines[0]] + lines[1..] == lines;
  }

  /** A page after the blocks of `items`, all in the page's layer. */
  function WithLessons(p: Page, items: seq<Lesson>): Page {
    p.(within := p.within || items != [],
       blocks := p.blocks + Map(items, (l: Lesson) => Block(p.layer, LessonLines(l))))
  }

  lemma OneMoreLesson(p: Page, before: seq<Lesson>, last: Lesson)
    ensures Read(WithLessons(p, before), LessonLines(last)) == WithLessons(p, before + [last])
  {
    var block := (l: Lesson) => Block(p.layer, LessonLines(l));
    ReadBlock(WithLessons(p, before), last);
    assert Map(before + [last], block) == Map(before, block) + [block(last)];
    ConcatAssociates(p.blocks, Map(before, block), [block(last)]);
  }

  lemma {:induction false} ReadLessons(p: Page, items: seq<Lesson>)
    ensures Read(p, LinesOf(items)) == WithLessons(p, items)
  {
    if items == [] {
      assert WithLessons(p, items).blocks == p.blocks;
    } else {
      var before, last := items[..|items| - 1], items[|items| - 1];
      ReadLessons(p, before);
      ReadConcat(p, LinesOf(before), LessonLines(last));
      OneMoreLesson(p, before, last);
      assert items == before + [last];
    }
  }

  /** A page after more blocks; where it stands does not matter. */
  predicate Gained(p: Page, q: Page, blocks: seq<Block>) {
    q.blocks == p.blocks + blocks && q.totals == p.totals
  }

  function BlocksOf(ls: seq<Lesson>): seq<Block> {
    Map(ls, (l: Lesson) => BlockOf(l))
  }

  lemma ReadSection(p: Page, ls: seq<Lesson>, layer: string)
    ensures Gained(p, Read(p, SectionLines(ls, layer)), BlocksOf(Section(ls, layer)))
  {
    var section := Section(ls, layer);
    SectionInOrder(ls, layer);
    SortOrders(InLayer(ls, layer), Recurrences);
    if InLayer(ls, layer) == [] {
      assert p.blocks + BlocksOf(section) == p.blocks;
    } else {
      var heading := [LayerHeading(layer), Blank];
      var q := p.(layer := Some(layer), within := false);
      ReadConcat(p, [LayerHeading(layer)], [Blank]);
      assert heading == [LayerHeading(layer)] + [Blank];
      PlainOutside(q, [Blank]);
      assert Read(p, [LayerHeading(layer)]) == q;
      ReadConcat(p, heading, LinesOf(section));
      ReadLessons(q, section);
      assert Map(section, (l: Lesson) => Block(q.layer, LessonLines(l))) == BlocksOf(section);
    }
  }

  lemma {:induction false} ReadBody(p: Page, ls: seq<Lesson>, layers: seq<string>)
    ensures Gained(p, Read(p, BodyLines(ls, layers)), BlocksOf(Shown(ls, layers)))
  {
    if layers == [] {
      assert p.blocks + BlocksOf([]) == p.blocks;
    } else {
      var before, layer := layers[..|layers| - 1], layers[|layers| - 1];
      ReadBody(p, ls, before);
      ReadConcat(p, BodyLines(ls, before), SectionLines(ls, layer));
      ReadSection(Read(p, BodyLines(ls, before)), ls, layer);
      MapConcat(Shown(ls, before), Section(ls, layer), (l: Lesson) => BlockOf(l));
      ConcatAssociates(p.blocks, BlocksOf(Shown(ls, before)), BlocksOf(Section(ls, layer)));
    }
  }

  lemma ReadFooter(p: Page, ls: seq<Lesson>)
    ensures Read(p, FooterLines(ls)) == p.(within := false, totals := Some((|ls|, Repeated(ls))))
  {
    var closed, footer := p.(within := false), FooterLines(ls);
    ReadConcat(p, [Separator], [Blank, Totals(|ls|, Repeated(ls))]);
    assert footer == [Separator] + [Blank, Totals(|ls|, Repeated(ls))];
    assert Read(p, [Separator]) == closed;
    ReadConcat(closed, [Blank], [Totals(|ls|, Repeated(ls))]);
    assert [Blank, Totals(|ls|, Repeated(ls))] == [Blank] + [Totals(|ls|, Repeated(ls))];
    PlainOutside(closed, [Blank]);
  }

  lemma ReadHeader()
    ensures Read(START, HEADER) == START
  {
    PlainOutside(START, HEADER);
  }

  lemma ReadParts(header: seq<Line>, ls: seq<Lesson>, layers: seq<string>)
    requires Read(START, header) == START
    ensures Gained(START, Read(START, header + BodyLines(ls, layers)), BlocksOf(Shown(ls, layers)))
    ensures var page := Read(START, header + BodyLines(ls, layers) + FooterLines(ls));
            page.blocks == BlocksOf(Shown(ls, layers)) && page.totals == Some((|ls|, Repeated(ls)))
  {
    ReadConcat(START, header, BodyLines(ls, layers));
    ReadBody(START, ls, layers);
    ReadConcat(START, header + BodyLines(ls, layers), FooterLines(ls));
    ReadFooter(Read(START, header + BodyLines(ls, layers)), ls);
  }

  lemma ReadsBackFor(ls: seq<Lesson>, layers: seq<string>)
    ensures BlocksIn(DigestFor(ls, layers)) == BlocksOf(Shown(ls, layers))
    ensures TotalsIn(DigestFor(ls, layers)) == if ls == [] then None else Some((|ls|, Repeated(ls)))
  {
    if ls == [] {
      PlainOutside(START, [Title, Blank, NothingRecorded, Blank]);
      NothingShown(layers);
    } else {
      ReadHeader();
      ReadParts(HEADER, ls, layers);
    }
  }

  /** Reading the digest back gives the block of every shown lesson, in the order shown and
      under its own layer, nothing else, and the totals of the footer. */
  lemma DigestReadsBack(ls: seq<Lesson>)
    ensures BlocksIn(DigestLines(ls)) == BlocksOf(Shown(ls, LAYERS))
    ensures TotalsIn(DigestLines(ls)) == if ls == [] then None else Some((|ls|, Repeated(ls)))
  {
    ReadsBackFor(ls, LAYERS);
  }

  lemma {:induction false} NothingShown(layers: seq<string>)
    ensures Shown([], layers) == []
  {
    if layers == [] {
    } else {
      NothingShown(layers[..|layers| - 1]);
    }
  }

  /** Which line of a block shows what: the heading the rule, and whether the lesson is repeated; then
      the symptom, the cause if there is one, the correction with its mechanism, the date, and the
      recurrences if there are any. */
  lemma BlockShows(l: Lesson)
    ensures var lines, caused := LessonLines(l), if l.cause != "" then 1 else 0;
            && |lines| == 6 + caused + (if l.recurrences > 0 then 1 else 0)
            && lines[0] == LessonHeading(l.rule, l.recurrences > 0)
            && lines[1] == Blank == lines[|lines| - 1]
            && lines[2] == Symptom(l.symptom)
            && lines[3 + caused] == Mechanism(l.correction, l.mechanism)
            && lines[4 + caused] == RecordedOn(l.recordedAt)
    ensures forall text :: Cause(text) in LessonLines(l) <==> text == l.cause && text != ""
    ensures forall n :: DidNotHold(n) in LessonLines(l) <==> n == l.recurrences && n > 0
  {
    var lines := LessonLines(l);
    assert l.cause != "" ==> lines[3] == Cause(l.cause);
    assert l.recurrences > 0 ==> lines[|lines| - 2] == DidNotHold(l.recurrences);
  }

  /** A block tells everything `record` keeps of a lesson but its signature and agent. */
  lemma BlockTellsLesson(l: Lesson, m: Lesson)
    requires BlockOf(l) == BlockOf(m)
    ensures l == m.(signature := l.signature, agentId := l.agentId)
  {
    var x, y := LessonLines(l), LessonLines(m);
    assert x[0] == LessonHeading(l.rule, l.recurrences > 0) && y[0] == LessonHeading(m.rule, m.recurrences > 0);
    assert x[2] == Symptom(l.symptom) && y[2] == Symptom(m.symptom);
    assert x[3] == if l.cause != "" then Cause(l.cause) else Mechanism(l.correction, l.mechanism);
    assert y[3] == if m.cause != "" then Cause(m.cause) else Mechanism(m.correction, m.mechanism);
    var i := if l.cause != "" then 4 else 3;
    assert x[i] == Mechanism(l.correction, l.mechanism) && y[i] == Mechanism(m.correction, m.mechanism);
    assert x[i + 1] == RecordedOn(l.recordedAt) && y[i + 1] == RecordedOn(m.recordedAt);
    assert l.recurrences > 0 ==> x[i + 2] == DidNotHold(l.recurrences) && y[i + 2] == DidNotHold(m.recurrences);
  }

  // What the digest shows

  lemma {:induction false} InLayerElements(ls: seq<Lesson>, layer: string, l: Lesson)
    ensures multiset(InLayer(ls, layer))[l] == if l.layer == layer then multiset(ls)[l] else 0
  {
    if ls == [] {
    } else {
      InLayerElements(ls[..|ls| - 1], layer, l);
      assert ls == ls[..|ls| - 1] + [ls[|ls| - 1]];
    }
  }

  lemma SectionElements(ls: seq<Lesson>, layer: string, l: Lesson)
    ensures multiset(Section(ls, layer))[l] == if l.layer == layer then multiset(ls)[l] else 0
  {
    SortOrders(InLayer(ls, layer), Recurrences);
    InLayerElements(ls, layer, l);
  }

  /** The digest shows every lesson of a listed layer as often as it is on file, and no other. */
  lemma {:induction false} ShownExactly(ls: seq<Lesson>, layers: seq<string>, l: Lesson)
    requires Distinct(layers)
    ensures multiset(Shown(ls, layers))[l] == if l.layer in layers then multiset(ls)[l] else 0
  {
    if layers == [] {
    } else {
      var before, layer := layers[..|layers| - 1], layers[|layers| - 1];
      ShownExactly(ls, before, l);
      SectionElements(ls, layer, l);
      assert layers == before + [layer];
      assert layer !in before;
    }
  }

  lemma LayersDistinct()
    ensures Distinct(LAYERS)
  {
    assert LAYERS[0][0] != LAYERS[1][0] && LAYERS[2][0] != LAYERS[3][0];
  }

  lemma RecordedLayersKnown(rules: Rules, reports: seq<Report>)
    ensures forall l :: l in AllLessons(AfterAll(rules, reports)) ==> l.layer in LAYERS
  {
    var files := AfterAll(rules, reports);
    forall l | l in AllLessons(files) ensures l.layer in LAYERS {
      var i :| 0 <= i < |AllLessons(files)| && AllLessons(files)[i] == l;
      FiledLesson(rules, reports, Signatures(files)[i]);
    }
  }

  lemma ShownWhole(ls: seq<Lesson>, layers: seq<string>)
    requires Distinct(layers) && forall l :: l in ls ==> l.layer in layers
    ensures multiset(Shown(ls, layers)) == multiset(ls)
  {
    forall l ensures multiset(Shown(ls, layers))[l] == multiset(ls)[l] {
      ShownExactly(ls, layers, l);
      assert l in multiset(ls) ==> l in ls;
    }
  }

  /** Since `record` forces the layer into the fixed list, a recorded store is shown whole. */
  lemma RecordedStoreShownWhole(rules: Rules, reports: seq<Report>)
    ensures var ls := AllLessons(AfterAll(rules, reports));
            multiset(Shown(ls, LAYERS)) == multiset(ls)
  {
    RecordedLayersKnown(rules, reports);
    LayersDistinct();
    ShownWhole(AllLessons(AfterAll(rules, reports)), LAYERS);
  }

  /** No lesson is on file twice. */
  lemma RecordedLessonsDistinct(rules: Rules, reports: seq<Report>)
    ensures var ls := AllLessons(AfterAll(rules, reports));
            forall i, j :: 0 <= i < j < |ls| ==> ls[i] != ls[j]
  {
    var files := AfterAll(rules, reports);
    SignaturesListed(files);
    forall i | 0 <= i < |AllLessons(files)| ensures AllLessons(files)[i].signature == Signatures(files)[i] {
      FiledLesson(rules, reports, Signatures(files)[i]);
    }
  }

  /** `x` may stand before `y` in the digest. */
  ghost predicate InOrder(layers: seq<string>, x: Lesson, y: Lesson) {
    || (exists p, q :: 0 <= p < q < |layers| && layers[p] == x.layer && layers[q] == y.layer)
    || (x.layer == y.layer && x.recurrences >= y.recurrences)
  }

  lemma SectionInOrder(ls: seq<Lesson>, layer: string)
    ensures var section := Section(ls, layer);
            && (forall i :: 0 <= i < |section| ==> section[i].layer == layer)
            && (forall i, j :: 0 <= i < j < |section| ==> section[i].recurrences >= section[j].recurrences)
  {
    var section := Section(ls, layer);
    SortOrders(InLayer(ls, layer), Recurrences);
    forall i | 0 <= i < |section| ensures section[i].layer == layer {
      assert section[i] in multiset(section);
      SectionElements(ls, layer, section[i]);
    }
    forall i, j | 0 <= i < j < |section| ensures section[i].recurrences >= section[j].recurrences {
      assert Recurrences(section[i]) >= Recurrences(section[j]);
    }
  }

  lemma ShownLayers(ls: seq<Lesson>, layers: seq<string>, i: nat)
    requires Distinct(layers) && i < |Shown(ls, layers)|
    ensures Shown(ls, layers)[i].layer in layers
  {
    var l := Shown(ls, layers)[i];
    assert l in multiset(Shown(ls, layers));
    ShownExactly(ls, layers, l);
  }

  /** Layers follow the list, and within a layer recurrences do not increase. */
  lemma {:induction false} ShownInOrder(ls: seq<Lesson>, layers: seq<string>, i: nat, j: nat)
    requires Distinct(layers) && i < j < |Shown(ls, layers)|
    ensures InOrder(layers, Shown(ls, layers)[i], Shown(ls, layers)[j])
  {
    var before, layer := layers[..|layers| - 1], layers[|layers| - 1];
    var head := Shown(ls, before);
    SectionInOrder(ls, layer);
    if j < |head| {
      ShownInOrder(ls, before, i, j);
      if head[i].layer != head[j].layer {
        var p, q :| 0 <= p < q < |before| && before[p] == head[i].layer && before[q] == head[j].layer;
        assert layers[p] == head[i].layer && layers[q] == head[j].layer;
      }
    } else if i < |head| {
      ShownLayers(ls, before, i);
      var p :| 0 <= p < |before| && before[p] == head[i].layer;
      assert layers[p] == head[i].layer && layers[|layers| - 1] == layer;
    }
  }

  /** Lessons of one layer with equally many recurrences keep the order of the store. */
  lemma SectionIsStable(ls: seq<Lesson>, layer: string, recurrences: real)
    ensures KeyClass(Section(ls, layer), Recurrences, recurrences) == KeyClass(InLayer(ls, layer), Recurrences, recurrences)
  {
    SortIsStable(InLayer(ls, layer), Recurrences, recurrences);
  }

  lemma {:induction false} InLayerConcat(xs: seq<Lesson>, ys: seq<Lesson>, layer: string)
    ensures InLayer(xs + ys, layer) == InLayer(xs, layer) + InLayer(ys, layer)
  {
    if ys == [] {
      assert xs + ys == xs;
    } else {
      assert (xs + ys)[..|xs + ys| - 1] == xs + ys[..|ys| - 1];
      InLayerConcat(xs, ys[..|ys| - 1], layer);
    }
  }

  lemma {:induction false} InLayerOfOne(ls: seq<Lesson>, own: string, layer: string)
    requires forall i :: 0 <= i < |ls| ==> ls[i].layer == own
    ensures InLayer(ls, layer) == if own == layer then ls else []
  {
    if ls == [] {
    } else {
      InLayerOfOne(ls[..|ls| - 1], own, layer);
      assert ls == ls[..|ls| - 1] + [ls[|ls| - 1]];
    }
  }

  lemma LastIsNew(layers: seq<string>, layer: string)
    requires Distinct(layers) && layers != []
    ensures var before, last := layers[..|layers| - 1], layers[|layers| - 1];
            Distinct(before) && last !in before && (layer in layers <==> layer in before || layer == last)
  {
    assert layers == layers[..|layers| - 1] + [layers[|layers| - 1]];
  }

  /** What is shown of a layer is its section. */
  lemma {:induction false} ShownOfLayer(ls: seq<Lesson>, layers: seq<string>, layer: string)
    requires Distinct(layers)
    ensures InLayer(Shown(ls, layers), layer) == if layer in layers then Section(ls, layer) else []
  {
    if layers == [] {
    } else {
      var before, last := layers[..|layers| - 1], layers[|layers| - 1];
      ShownOfLayer(ls, before, layer);
      InLayerConcat(Shown(ls, before), Section(ls, last), layer);
      SectionInOrder(ls, last);
      InLayerOfOne(Section(ls, last), last, layer);
      LastIsNew(layers, layer);
      if layer == last {
        assert [] + Section(ls, last) == Section(ls, last);
      } else {
        assert InLayer(Shown(ls, before), layer) + [] == InLayer(Shown(ls, before), layer);
      }
    }
  }

  predicate HasLesson(ls: seq<Lesson>, layer: string) {
    exists l :: l in ls && l.layer == layer
  }

  function Used(ls: seq<Lesson>): string -> bool {
    (layer: string) => HasLesson(ls, layer)
  }

  function IsLayerHeading(): Line -> bool {
    (line: Line) => line.LayerHeading?
  }

  function LayerHeadings(lines: seq<Line>): seq<Line> {
    Filter(lines, IsLayerHeading())
  }

  function HeadingsFor(layers: seq<string>): seq<Line> {
    Map(layers, (layer: string) => LayerHeading(layer))
  }

  lemma {:induction false} InLayerEmpty(ls: seq<Lesson>, layer: string)
    ensures InLayer(ls, layer) == [] <==> !HasLesson(ls, layer)
  {
    if ls == [] {
    } else {
      var before, last := ls[..|ls| - 1], ls[|ls| - 1];
      assert ls == before + [last];
      InLayerEmpty(before, layer);
    }
  }

  lemma HeadingsConcat(xs: seq<Line>, ys: seq<Line>)
    ensures LayerHeadings(xs + ys) == LayerHeadings(xs) + LayerHeadings(ys)
  {
    FilterConcat(xs, ys, IsLayerHeading());
  }

  lemma NoHeadings(lines: seq<Line>)
    requires forall i :: 0 <= i < |lines| ==> !lines[i].LayerHeading?
    ensures LayerHeadings(lines) == []
  {
    NothingKept(lines, IsLayerHeading());
  }

  lemma {:induction false} LinesHaveNoLayer(ls: seq<Lesson>)
    ensures LayerHeadings(LinesOf(ls)) == []
  {
    if ls == [] {
    } else {
      var before, last := ls[..|ls| - 1], ls[|ls| - 1];
      LinesHaveNoLayer(before);
      HeadingsConcat(LinesOf(before), LessonLines(last));
      NoHeadings(LessonLines(last));
    }
  }

  lemma SectionHeading(ls: seq<Lesson>, layer: string)
    ensures LayerHeadings(SectionLines(ls, layer)) == if HasLesson(ls, layer) then [LayerHeading(layer)] else []
  {
    InLayerEmpty(ls, layer);
    if HasLesson(ls, layer) {
      LinesHaveNoLayer(Section(ls, layer));
      HeadedLines(layer, LinesOf(Section(ls, layer)));
    }
  }

  lemma HeadedLines(layer: string, lines: seq<Line>)
    requires LayerHeadings(lines) == []
    ensures LayerHeadings([LayerHeading(layer), Blank] + lines) == [LayerHeading(layer)]
  {
    HeadingsConcat([LayerHeading(layer)], [Blank] + lines);
    HeadingsConcat([Blank], lines);
    NoHeadings([Blank]);
    FilterOne(LayerHeading(layer), IsLayerHeading());
    assert [LayerHeading(layer), Blank] + lines == [LayerHeading(layer)] + ([Blank] + lines);
  }

  lemma UsedSnoc(ls: seq<Lesson>, before: seq<string>, last: string)
    ensures HeadingsFor(Filter(before + [last], Used(ls)))
            == HeadingsFor(Filter(before, Used(ls))) + if HasLesson(ls, last) then [LayerHeading(last)] else []
  {
    FilterConcat(before, [last], Used(ls));
    FilterOne(last, Used(ls));
  }

  lemma BodySnoc(ls: seq<Lesson>, before: seq<string>, last: string)
    ensures LayerHeadings(BodyLines(ls, before + [last]))
            == LayerHeadings(BodyLines(ls, before)) + if HasLesson(ls, last) then [LayerHeading(last)] else []
  {
    assert (before + [last])[..|before|] == before;
    assert BodyLines(ls, before + [last]) == BodyLines(ls, before) + SectionLines(ls, last);
    HeadingsConcat(BodyLines(ls, before), SectionLines(ls, last));
    SectionHeading(ls, last);
  }

  lemma {:induction false} BodyHeadings(ls: seq<Lesson>, layers: seq<string>)
    ensures LayerHeadings(BodyLines(ls, layers)) == HeadingsFor(Filter(layers, Used(ls)))
  {
    if layers == [] {
      NoHeadings([]);
    } else {
      var before, last := layers[..|layers| - 1], layers[|layers| - 1];
      BodyHeadings(ls, before);
      BodySnoc(ls, before, last);
      UsedSnoc(ls, before, last);
      assert layers == before + [last];
    }
  }

  lemma HeadingsBetween(header: seq<Line>, body: seq<Line>, footer: seq<Line>)
    requires LayerHeadings(header) == [] && LayerHeadings(footer) == []
    ensures LayerHeadings(header + body + footer) == LayerHeadings(body)
  {
    HeadingsConcat(header + body, footer);
    HeadingsConcat(header, body);
  }

  lemma NoneUsed(layers: seq<string>)
    ensures HeadingsFor(Filter(layers, Used([]))) == []
  {
    NothingKept(layers, Used([]));
  }

  lemma DigestHeadingsFor(ls: seq<Lesson>, layers: seq<string>)
    ensures LayerHeadings(DigestFor(ls, layers)) == HeadingsFor(Filter(layers, Used(ls)))
  {
    if ls == [] {
      NoHeadings([Title, Blank, NothingRecorded, Blank]);
      NoneUsed(layers);
    } else {
      NoHeadings(HEADER);
      NoHeadings(FooterLines(ls));
      HeadingsBetween(HEADER, BodyLines(ls, layers), FooterLines(ls));
      BodyHeadings(ls, layers);
    }
  }

  /** The headings of a digest: a title first, then the notice if there are lessons and else that there
      are none; and of the layers exactly those with a lesson, in the order of the list. */
  lemma DigestHeadings(ls: seq<Lesson>)
    ensures ls == [] ==> DigestLines(ls) == [Title, Blank, NothingRecorded, Blank]
    ensures ls != [] ==> |DigestLines(ls)| > 4 && DigestLines(ls)[..4] == [Title, Blank, Notice, Blank]
    ensures LayerHeadings(DigestLines(ls)) == HeadingsFor(Filter(LAYERS, Used(ls)))
  {
    DigestHeadingsFor(ls, LAYERS);
  }

  /** The digest of a store built by `record`: its blocks are those of all lessons on file, each
      once, layer after layer as the fixed list has them, most repeated first within a layer and
      equally repeated ones as the store lists them. */
  lemma DigestShowsStore(rules: Rules, reports: seq<Report>) returns (shown: seq<Lesson>)
    ensures var ls := AllLessons(AfterAll(rules, reports));
            && BlocksIn(DigestLines(ls)) == BlocksOf(shown)
            && multiset(shown) == multiset(ls)
    ensures forall i, j :: 0 <= i < j < |shown| ==> InOrder(LAYERS, shown[i], shown[j])
    ensures forall layer, n :: layer in LAYERS ==>
              KeyClass(InLayer(shown, layer), Recurrences, n)
              == KeyClass(InLayer(AllLessons(AfterAll(rules, reports)), layer), Recurrences, n)
  {
    var ls := AllLessons(AfterAll(rules, reports));
    shown := Shown(ls, LAYERS);
    DigestReadsBack(ls);
    RecordedStoreShownWhole(rules, reports);
    LayersDistinct();
    forall i, j | 0 <= i < j < |shown| ensures InOrder(LAYERS, shown[i], shown[j]) {
      ShownInOrder(ls, LAYERS, i, j);
    }
    forall layer, n
      ensures layer in LAYERS ==>
                KeyClass(InLayer(shown, layer), Recurrences, n) == KeyClass(InLayer(ls, layer), Recurrences, n)
    {
      ShownOfLayer(ls, LAYERS, layer);
      SectionIsStable(ls, layer, n);
    }
  }

  /** The digest's last line: the first number is the number of distinct signatures accepted,
      the second the number of those accepted more than once. With none accepted there is no
      such line. */
  lemma FooterCounts(rules: Rules, reports: seq<Report>)
    ensures var files := AfterAll(rules, reports);
            var sigs := Signatures(files);
            && Distinct(sigs)
            && (forall s :: s in sigs <==> Reported(rules, reports, s) != [])
            && TotalsIn(DigestLines(AllLessons(files)))
               == if sigs == [] then None
                  else Some((|sigs|, Count(sigs, (s: string) => |Reported(rules, reports, s)| > 1)))
  {
    var files := AfterAll(rules, reports);
    SignaturesListed(files);
    forall s ensures s in Signatures(files) <==> Reported(rules, reports, s) != [] {
      FiledLesson(rules, reports, s);
    }
    LessonCounts(rules, reports);
    DigestReadsBack(AllLessons(files));
  }

  lemma LessonCounts(rules: Rules, reports: seq<Report>)
    ensures var files := AfterAll(rules, reports);
            var ls, sigs := AllLessons(files), Signatures(files);
            && |ls| == |sigs|
            && Repeated(ls) == Count(sigs, (s: string) => |Reported(rules, reports, s)| > 1)
  {
    var files := AfterAll(rules, reports);
    SignaturesListed(files);
    RepeatedAt(rules, reports, Signatures(files));
    assert AllLessons(files) == LessonsAt(files, Signatures(files));
  }

  lemma {:induction false} RepeatedAt(rules: Rules, reports: seq<Report>, sigs: seq<string>)
    requires forall s :: s in sigs ==> s in AfterAll(rules, reports)
    ensures Repeated(LessonsAt(AfterAll(rules, reports), sigs))
            == Count(sigs, (s: string) => |Reported(rules, reports, s)| > 1)
  {
    if sigs == [] {
    } else {
      var files, before := AfterAll(rules, reports), sigs[..|sigs| - 1];
      FiledLesson(rules, reports, sigs[|sigs| - 1]);
      RepeatedAt(rules, reports, before);
      assert LessonsAt(files, sigs)[..|sigs| - 1] == LessonsAt(files, before);
    }
  }
}
