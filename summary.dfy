/** The Tree Assembler (summarizeExtracts) and the two pipelines that feed it
    (the block context-menu item and the page menu item of index.js). */
module Summary {
  import opened Extraction
  import opened Config
  import opened Normalize
  import opened Provenance
  import opened HostApi

  datatype Option<T> = None | Some(value: T)

  const NothingToExtract := "Nothing to extract"
  const ExtractionCompleted := "Extraction completed!"

  /** The id stamp made for one extract: one write when its source lacked an
      id, none otherwise. */
  function Stamp(e: Extract): seq<HostCall> {
    if LacksId(e.source) then [UpsertCall(e.source.uuid, "id", e.source.uuid)] else []
  }

  /** The insertion of one extract's normalised text as the last child of the
      summary block. */
  function ChildInsert(e: Extract, summary: Uuid, cfg: Settings): HostCall {
    InsertCall(summary, NormalizeExtract(e, cfg), Child)
  }

  /** The calls made for one extract: its stamp, then its child. */
  function CallsFor(e: Extract, summary: Uuid, cfg: Settings): seq<HostCall> {
    Stamp(e) + [ChildInsert(e, summary, cfg)]
  }

  /** The calls made for a list of extracts, in extract order. */
  function ChildCalls(es: seq<Extract>, summary: Uuid, cfg: Settings): seq<HostCall> {
    if es == [] then [] else ChildCalls(es[..|es| - 1], summary, cfg) + CallsFor(es[|es| - 1], summary, cfg)
  }

  /** The whole call sequence of summarizeExtracts. `target` is the anchor's
      uuid, None when there is no anchor block (an empty page). */
  function Planned(es: seq<Extract>, target: Option<Uuid>, keepSummaryAbove: bool, cfg: Settings, summary: Uuid)
    : (r: seq<HostCall>)
    requires es != [] ==> target.Some?
    ensures |r| >= 1 && forall i :: 0 <= i < |r| - 1 ==> !r[i].MessageCall?
    ensures r[|r| - 1] == if es == [] then MessageCall(NothingToExtract, "error")
                          else MessageCall(ExtractionCompleted, "success")
    ensures es != [] ==> r[0] == InsertCall(target.value, cfg.summaryTitle, Sibling(keepSummaryAbove))
  {
    if es == [] then [MessageCall(NothingToExtract, "error")]
    else
      var middle := ChildCalls(es, summary, cfg);
      ChildCallsSendNoNotice(es, summary, cfg);
      [InsertCall(target.value, cfg.summaryTitle, Sibling(keepSummaryAbove))]
      + middle
      + [MessageCall(ExtractionCompleted, "success")]
  }

  /** The per-extract calls hold no notice: only stamps and insertions. */
  lemma {:induction false} ChildCallsSendNoNotice(es: seq<Extract>, summary: Uuid, cfg: Settings)
    ensures forall i :: 0 <= i < |ChildCalls(es, summary, cfg)| ==> !ChildCalls(es, summary, cfg)[i].MessageCall?
    decreases |es|
  {
    if es != [] {
      ChildCallsSendNoNotice(es[..|es| - 1], summary, cfg);
    }
  }

  /** summarizeExtracts: with no extracts, only the "Nothing to extract"
      notice; otherwise one summary block beside the anchor, then one child
      per extract in order (stamping each source's id when missing), then the
      completion notice. */
  method SummarizeExtracts(host: Host, extracts: seq<Extract>, target: Option<Uuid>, keepSummaryAbove: bool,
                           cfg: Settings)
    requires extracts != [] ==> target.Some?
    modifies host
    ensures host.calls == old(host.calls) + Planned(extracts, target, keepSummaryAbove, cfg, old(host.NextUuid()))
    ensures host.props == Tagged(old(host.props), extracts)
  {
    if |extracts| == 0 {
      host.ShowMsg(NothingToExtract, "error");
      return;
    }
    var summary := host.InsertBlock(target.value, cfg.summaryTitle, Sibling(keepSummaryAbove));
    AddChildren(host, extracts, summary, cfg);
    host.ShowMsg(ExtractionCompleted, "success");
    ghost var opening := [InsertCall(target.value, cfg.summaryTitle, Sibling(keepSummaryAbove))];
    ghost var children := ChildCalls(extracts, summary, cfg);
    ghost var closing := [MessageCall(ExtractionCompleted, "success")];
    assert host.calls == old(host.calls) + opening + children + closing;
    Regroup(old(host.calls), opening, children, closing);
  }

  /** The `extracts.forEach` loop of summarizeExtracts: one AddChild per
      extract, in order. */
  method AddChildren(host: Host, extracts: seq<Extract>, summary: Uuid, cfg: Settings)
    modifies host
    ensures host.calls == old(host.calls) + ChildCalls(extracts, summary, cfg)
    ensures host.props == Tagged(old(host.props), extracts)
  {
    var k := 0;
    while k < |extracts|
      invariant 0 <= k <= |extracts|
      invariant host.calls == old(host.calls) + ChildCalls(extracts[..k], summary, cfg)
      invariant host.props == Tagged(old(host.props), extracts[..k])
    {
      AddChild(host, extracts[k], summary, cfg);
      OneMoreExtract(old(host.calls), old(host.props), extracts, k, summary, cfg);
      k := k + 1;
    }
    assert extracts[..k] == extracts;
  }

  /** The body of that loop, for one extract: normalise its text, stamp its
      source's id when the source lacked one, and insert the text as the last
      child of the summary block. */
  method AddChild(host: Host, e: Extract, summary: Uuid, cfg: Settings)
    modifies host
    ensures host.calls == old(host.calls) + CallsFor(e, summary, cfg)
    ensures host.props == TagStep(old(host.props), e)
  {
    var content := NormalizeExtract(e, cfg);
    if LacksId(e.source) {
      host.UpsertBlockProperty(e.source.uuid, "id", e.source.uuid);
    }
    var _ := host.InsertBlock(summary, content, Child);
    Assoc(old(host.calls), Stamp(e), [ChildInsert(e, summary, cfg)]);
  }

  lemma Assoc<T>(a: seq<T>, b: seq<T>, c: seq<T>)
    ensures a + b + c == a + (b + c)
  {
  }

  lemma Regroup<T>(a: seq<T>, b: seq<T>, c: seq<T>, d: seq<T>)
    ensures a + b + c + d == a + (b + c + d)
  {
  }

  /** Handling one more extract appends its calls and its write. */
  lemma OneMoreExtract(pre: seq<HostCall>, table: PropTable, es: seq<Extract>, k: nat, summary: Uuid, cfg: Settings)
    requires k < |es|
    ensures pre + ChildCalls(es[..k], summary, cfg) + CallsFor(es[k], summary, cfg)
         == pre + ChildCalls(es[..k + 1], summary, cfg)
    ensures Tagged(table, es[..k + 1]) == TagStep(Tagged(table, es[..k]), es[k])
  {
    assert es[..k + 1][..k] == es[..k];
    Assoc(pre, ChildCalls(es[..k], summary, cfg), CallsFor(es[k], summary, cfg));
  }

  /** Of one extract's calls, the insertion is its child and the writes are
      its stamp. */
  lemma CallsForFilters(e: Extract, summary: Uuid, cfg: Settings)
    ensures Inserts(CallsFor(e, summary, cfg)) == [ChildInsert(e, summary, cfg)]
    ensures Writes(CallsFor(e, summary, cfg)) == Stamp(e)
  {
    InsertsAppend(Stamp(e), [ChildInsert(e, summary, cfg)]);
    WritesAppend(Stamp(e), [ChildInsert(e, summary, cfg)]);
    SingleCall(ChildInsert(e, summary, cfg));
    if LacksId(e.source) {
      SingleCall(UpsertCall(e.source.uuid, "id", e.source.uuid));
    }
  }

  // ---------------------------------------------------------------------------
  // What the call sequence does.

  /** One child insertion per extract, in extract order. */
  function Children(es: seq<Extract>, summary: Uuid, cfg: Settings): seq<HostCall> {
    seq(|es|, i requires 0 <= i < |es| => ChildInsert(es[i], summary, cfg))
  }

  lemma ChildrenSnoc(es: seq<Extract>, summary: Uuid, cfg: Settings)
    requires es != []
    ensures Children(es, summary, cfg)
         == Children(es[..|es| - 1], summary, cfg) + [ChildInsert(es[|es| - 1], summary, cfg)]
  {
    var whole := Children(es, summary, cfg);
    var split := Children(es[..|es| - 1], summary, cfg) + [ChildInsert(es[|es| - 1], summary, cfg)];
    assert |whole| == |es| == |split|;
    forall k | 0 <= k < |es| ensures whole[k] == split[k] {
      if k < |es| - 1 {
        assert split[k] == Children(es[..|es| - 1], summary, cfg)[k];
        assert es[..|es| - 1][k] == es[k];
      }
    }
  }

  /** The insertions of the per-extract calls: exactly one child of the summary
      block per extract, in extract order, holding the normalised text. */
  lemma {:induction false} ChildInserts(es: seq<Extract>, summary: Uuid, cfg: Settings)
    ensures Inserts(ChildCalls(es, summary, cfg)) == Children(es, summary, cfg)
    decreases |es|
  {
    if es != [] {
      var init, last := es[..|es| - 1], es[|es| - 1];
      ChildInserts(init, summary, cfg);
      InsertsAppend(ChildCalls(init, summary, cfg), CallsFor(last, summary, cfg));
      CallsForFilters(last, summary, cfg);
      ChildrenSnoc(es, summary, cfg);
    }
  }

  /** The id stamps of a list of extracts, in extract order. */
  function StampsOf(es: seq<Extract>): seq<HostCall> {
    if es == [] then [] else StampsOf(es[..|es| - 1]) + Stamp(es[|es| - 1])
  }

  /** The property writes of the per-extract calls are exactly their stamps. */
  lemma {:induction false} ChildWrites(es: seq<Extract>, summary: Uuid, cfg: Settings)
    ensures Writes(ChildCalls(es, summary, cfg)) == StampsOf(es)
    decreases |es|
  {
    if es != [] {
      var init, last := es[..|es| - 1], es[|es| - 1];
      ChildWrites(init, summary, cfg);
      WritesAppend(ChildCalls(init, summary, cfg), CallsFor(last, summary, cfg));
      CallsForFilters(last, summary, cfg);
    }
  }

  /** A run over extracts whose sources all carry an id, as on a second run
      over blocks the first run stamped, writes no property. */
  lemma {:induction false} NoStampsWhenTagged(es: seq<Extract>)
    requires forall i :: 0 <= i < |es| ==> !LacksId(es[i].source)
    ensures StampsOf(es) == []
    decreases |es|
  {
    if es != [] {
      NoStampsWhenTagged(es[..|es| - 1]);
    }
  }

  /** Every stamp sets `id` to the uuid of a source that lacked one. */
  lemma {:induction false} StampsAreIdStamps(es: seq<Extract>)
    ensures forall w :: w in StampsOf(es) ==>
      w.UpsertCall? && w.key == "id" && w.value == w.block && w.block in StampedUuids(es)
    decreases |es|
  {
    if es != [] {
      StampsAreIdStamps(es[..|es| - 1]);
      StampedSnoc(es);
    }
  }

  /** Every extract whose source lacked an id has its stamp written. */
  lemma {:induction false} EverySourceStamped(es: seq<Extract>)
    ensures forall i :: 0 <= i < |es| && LacksId(es[i].source) ==>
      UpsertCall(es[i].source.uuid, "id", es[i].source.uuid) in StampsOf(es)
    decreases |es|
  {
    if es != [] {
      var init := es[..|es| - 1];
      EverySourceStamped(init);
      forall i | 0 <= i < |es| - 1 ensures es[i] == init[i] { }
    }
  }

  /** No extracts: the only call is the "Nothing to extract" notice; nothing
      is inserted and no property is written. */
  lemma NothingToExtractOutcome(target: Option<Uuid>, keepSummaryAbove: bool, cfg: Settings, summary: Uuid)
    ensures var p := Planned([], target, keepSummaryAbove, cfg, summary);
      && p == [MessageCall(NothingToExtract, "error")]
      && Inserts(p) == [] && Writes(p) == []
  {
    var p := Planned([], target, keepSummaryAbove, cfg, summary);
    assert p[1..] == [];
  }

  /** Some extracts: the first insertion is the summary block, a sibling of
      the anchor placed before it exactly when keepSummaryAbove holds, with the
      summary title as content; after it come exactly one insertion per
      extract, each a child of the summary block holding the extract's
      normalised text, in extract order; nothing else is inserted. */
  lemma SummaryShape(es: seq<Extract>, target: Option<Uuid>, keepSummaryAbove: bool, cfg: Settings, summary: Uuid)
    requires es != [] && target.Some?
    ensures Inserts(Planned(es, target, keepSummaryAbove, cfg, summary))
         == [InsertCall(target.value, cfg.summaryTitle, Sibling(keepSummaryAbove))] + Children(es, summary, cfg)
  {
    var first := [InsertCall(target.value, cfg.summaryTitle, Sibling(keepSummaryAbove))];
    var middle := ChildCalls(es, summary, cfg);
    var last := [MessageCall(ExtractionCompleted, "success")];
    InsertsAppend(first + middle, last);
    InsertsAppend(first, middle);
    SingleCall(first[0]);
    SingleCall(last[0]);
    ChildInserts(es, summary, cfg);
  }

  /** Some extracts: the property writes of the whole run are exactly the id
      stamps, in extract order, one for each extract whose source lacked an
      id, and each stamp sets a source's `id` to that source's own uuid. */
  lemma SummaryWrites(es: seq<Extract>, target: Option<Uuid>, keepSummaryAbove: bool, cfg: Settings, summary: Uuid)
    requires es != [] && target.Some?
    ensures Writes(Planned(es, target, keepSummaryAbove, cfg, summary)) == StampsOf(es)
    ensures var ws := Writes(Planned(es, target, keepSummaryAbove, cfg, summary));
      && (forall w :: w in ws ==> w.UpsertCall? && w.key == "id" && w.value == w.block && w.block in StampedUuids(es))
      && (forall i :: 0 <= i < |es| && LacksId(es[i].source) ==>
            UpsertCall(es[i].source.uuid, "id", es[i].source.uuid) in ws)
  {
    var first := [InsertCall(target.value, cfg.summaryTitle, Sibling(keepSummaryAbove))];
    var middle := ChildCalls(es, summary, cfg);
    var last := [MessageCall(ExtractionCompleted, "success")];
    WritesAppend(first + middle, last);
    WritesAppend(first, middle);
    SingleCall(first[0]);
    SingleCall(last[0]);
    ChildWrites(es, summary, cfg);
    StampsAreIdStamps(es);
    EverySourceStamped(es);
  }

  // ---------------------------------------------------------------------------
  // The two pipelines.

  /** JavaScript array indexing: an index outside the array gives undefined. */
  function JsIndex<T>(s: seq<T>, i: int): Option<T> {
    if 0 <= i < |s| then Some(s[i]) else None
  }

  /** The page pipeline's anchor: `pageBlocks[keepSummaryAbove ? 0 : length - 1]`. */
  function PageAnchor(pageBlocks: seq<Block>, keepSummaryAbove: bool): (r: Option<Block>)
    ensures r.Some? <==> pageBlocks != []
    ensures r.Some? ==> r.value == if keepSummaryAbove then pageBlocks[0] else pageBlocks[|pageBlocks| - 1]
  {
    JsIndex(pageBlocks, if keepSummaryAbove then 0 else |pageBlocks| - 1)
  }

  function UuidOf(b: Option<Block>): Option<Uuid> {
    match b
    case None => None
    case Some(block) => Some(block.uuid)
  }

  /** The page anchor is the first top-level block when the summary goes
      above, the last one otherwise; it exists exactly when the page has a
      block, and it does whenever the page yields an extract. */
  lemma PageAnchorChoice(pageBlocks: seq<Block>, keepSummaryAbove: bool, m: Matcher)
    ensures PageAnchor(pageBlocks, keepSummaryAbove).Some? <==> pageBlocks != []
    ensures GenExtracts(pageBlocks, m) != [] ==> PageAnchor(pageBlocks, keepSummaryAbove).Some?
    ensures pageBlocks != [] ==>
      PageAnchor(pageBlocks, keepSummaryAbove).value
        == (if keepSummaryAbove then pageBlocks[0] else pageBlocks[|pageBlocks| - 1])
  {
  }

  /** The block context-menu item: extract from the block and its whole
      subtree, and anchor the summary on the block itself. */
  method BlockPipeline(host: Host, block: Block, m: Matcher, cfg: Settings)
    modifies host
    ensures host.calls == old(host.calls)
      + Planned(GenExtracts([block], m), Some(block.uuid), cfg.keepSummaryAbove, cfg, old(host.NextUuid()))
    ensures host.props == Tagged(old(host.props), GenExtracts([block], m))
  {
    var extracts := GenExtracts([block], m);
    SummarizeExtracts(host, extracts, Some(block.uuid), cfg.keepSummaryAbove, cfg);
  }

  /** The page menu item: extract from every top-level block of the page (and
      their subtrees), and anchor the summary on the first or last top-level
      block. */
  method PagePipeline(host: Host, pageBlocks: seq<Block>, m: Matcher, cfg: Settings)
    modifies host
    ensures host.calls == old(host.calls)
      + Planned(GenExtracts(pageBlocks, m), UuidOf(PageAnchor(pageBlocks, cfg.keepSummaryAbove)),
                cfg.keepSummaryAbove, cfg, old(host.NextUuid()))
    ensures host.props == Tagged(old(host.props), GenExtracts(pageBlocks, m))
  {
    var extracts := GenExtracts(pageBlocks, m);
    var target := PageAnchor(pageBlocks, cfg.keepSummaryAbove);
    SummarizeExtracts(host, extracts, UuidOf(target), cfg.keepSummaryAbove, cfg);
  }

  // ---------------------------------------------------------------------------
  // Two worked runs.

  /** A childless block "Keep ==this== and **that**" in which the pattern finds
      "==this==" and "**that**", with keepMeta and keepRefs clear: the block
      pipeline inserts the summary block beside it, then the children "this"
      and "that", in that order, and nothing else. */
  lemma BlockScenario(block: Block, m: Matcher, cfg: Settings, summary: Uuid)
    requires block.content == "Keep ==this== and **that**" && block.children == []
    requires m(block.content) == ["==this==", "**that**"]
    requires !cfg.keepMeta && !cfg.keepRefs
    ensures Inserts(Planned(GenExtracts([block], m), Some(block.uuid), cfg.keepSummaryAbove, cfg, summary))
         == [InsertCall(block.uuid, cfg.summaryTitle, Sibling(cfg.keepSummaryAbove)),
             InsertCall(summary, "this", Child),
             InsertCall(summary, "that", Child)]
  {
    var es := [Extract("==this==", block), Extract("**that**", block)];
    TwoMatches(block, m, "==this==", "**that**");
    ScenarioChildren(block, cfg, summary);
    SummaryShape(es, Some(block.uuid), cfg.keepSummaryAbove, cfg, summary);
  }

  lemma ScenarioChildren(block: Block, cfg: Settings, summary: Uuid)
    requires !cfg.keepMeta && !cfg.keepRefs
    ensures Children([Extract("==this==", block), Extract("**that**", block)], summary, cfg)
         == [InsertCall(summary, "this", Child), InsertCall(summary, "that", Child)]
  {
    ScenarioTexts(block, cfg);
  }

  lemma TwoMatches(b: Block, m: Matcher, x: string, y: string)
    requires b.children == [] && m(b.content) == [x, y]
    ensures GenExtracts([b], m) == [Extract(x, b), Extract(y, b)]
  {
    LeafAlone(b, m);
    var own := OwnExtracts(b, m);
    assert |own| == 2 && own[0] == Extract(x, b) && own[1] == Extract(y, b);
  }

  lemma ScenarioTexts(block: Block, cfg: Settings)
    requires !cfg.keepMeta && !cfg.keepRefs
    ensures NormalizeExtract(Extract("==this==", block), cfg) == "this"
    ensures NormalizeExtract(Extract("**that**", block), cfg) == "that"
  {
    assert "==this=="[2..6] == "this";
    assert "**that**"[2..6] == "that";
  }

  /** A page of three childless top-level blocks where only the second has a
      match, with keepSummaryAbove clear: the anchor is the third block, the
      summary block goes after it, and exactly one child is inserted. */
  lemma PageScenario(b1: Block, b2: Block, b3: Block, m: Matcher, cfg: Settings, summary: Uuid)
    requires b1.children == [] && b2.children == [] && b3.children == []
    requires m(b1.content) == [] && |m(b2.content)| == 1 && m(b3.content) == []
    requires !cfg.keepSummaryAbove
    ensures PageAnchor([b1, b2, b3], cfg.keepSummaryAbove) == Some(b3)
    ensures Inserts(Planned(GenExtracts([b1, b2, b3], m), Some(b3.uuid), cfg.keepSummaryAbove, cfg, summary))
         == [InsertCall(b3.uuid, cfg.summaryTitle, Sibling(false)),
             InsertCall(summary, NormalizeExtract(Extract(m(b2.content)[0], b2), cfg), Child)]
  {
    var e := Extract(m(b2.content)[0], b2);
    OnlyMiddleMatches(b1, b2, b3, m);
    assert Children([e], summary, cfg) == [ChildInsert(e, summary, cfg)];
    SummaryShape([e], Some(b3.uuid), cfg.keepSummaryAbove, cfg, summary);
  }

  lemma OnlyMiddleMatches(b1: Block, b2: Block, b3: Block, m: Matcher)
    requires b1.children == [] && b2.children == [] && b3.children == []
    requires m(b1.content) == [] && |m(b2.content)| == 1 && m(b3.content) == []
    ensures GenExtracts([b1, b2, b3], m) == [Extract(m(b2.content)[0], b2)]
  {
    LeafWithoutMatches(b1, [b2, b3], m);
    assert [b1] + [b2, b3] == [b1, b2, b3];
    LeafWithoutMatches(b3, [], m);
    assert [b3] + [] == [b3];
    OrderingLaw(b2, [b3], m);
    assert [b2] + [b3] == [b2, b3];
    assert OwnExtracts(b2, m) == [Extract(m(b2.content)[0], b2)];
  }

  /** A childless block on its own yields exactly its own matches. */
  lemma LeafAlone(b: Block, m: Matcher)
    requires b.children == []
    ensures GenExtracts([b], m) == OwnExtracts(b, m)
  {
    assert GenExtracts([b][1..], m) == [];
  }
}
