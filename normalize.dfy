/** The Content Normalizer: how one extract's matched text becomes the content
    of its summary child (index.js, inside summarizeExtracts). */
module Normalize {
  import opened Extraction
  import opened Config

  /** JavaScript's String.prototype.slice(start, end): negative positions
      count from the end, positions are clamped to the string, and an empty
      or inverted range gives "". Positions count the characters of the
      model's strings (Unicode scalar values), where JavaScript counts UTF-16
      code units; the two agree unless a character outside the Basic
      Multilingual Plane lies within reach of a cut. The result is always one
      contiguous piece of the string; an in-range pair of non-negative
      positions gives the characters between them, and negative positions
      are those positions counted back from the end. */
  function JsSlice(s: string, start: int, end: int): (r: string)
    ensures |r| <= |s| && IsSubstring(r, s)
    ensures 0 <= start <= end <= |s| ==> r == s[start..end]
    ensures -|s| <= start <= end < 0 ==> r == s[|s| + start..|s| + end]
  {
    var from := if start < 0 then Max(|s| + start, 0) else Min(start, |s|);
    var to := if end < 0 then Max(|s| + end, 0) else Min(end, |s|);
    if from < to then s[from..to]
    else assert s[0..0] == ""; ""
  }

  function Max(a: int, b: int): int { if a < b then b else a }
  function Min(a: int, b: int): int { if a < b then a else b }

  /** The text without its first two and last two characters, as the
      fixed-width delimiter strip intends it; "" when there is nothing
      between them. */
  function Inner(s: string): string {
    if |s| >= 4 then s[2..|s| - 2] else ""
  }

  /** The link back to the source block, in the host's reference syntax
      `[label](((uuid)))`, preceded by one space. */
  function RefSuffix(refLabel: string, uuid: Uuid): string {
    " [" + refLabel + "](((" + uuid + ")))"
  }

  /** `content.slice(2, -2)` is the fixed-width strip: two characters off each
      end, and "" for a text shorter than five characters. */
  lemma SliceStripsTwoEachEnd(s: string)
    ensures JsSlice(s, 2, -2) == Inner(s)
    ensures |JsSlice(s, 2, -2)| == Max(0, |s| - 4)
  {
  }

  /** The content of the summary child for one extract: the text (stripped of
      two characters at each end unless keepMeta is set), followed by the
      reference link when keepRefs is set. */
  function NormalizeExtract(e: Extract, cfg: Settings): (r: string)
    ensures r == (if cfg.keepMeta then e.text else Inner(e.text))
               + (if cfg.keepRefs then RefSuffix(cfg.refLabel, e.source.uuid) else "")
  {
    var content := if cfg.keepMeta then e.text else JsSlice(e.text, 2, -2);
    SliceStripsTwoEachEnd(e.text);
    if cfg.keepRefs then content + RefSuffix(cfg.refLabel, e.source.uuid) else content
  }

  /** With keepMeta set and keepRefs clear the matched text is copied verbatim. */
  lemma KeepMetaKeepsText(e: Extract, cfg: Settings)
    requires cfg.keepMeta && !cfg.keepRefs
    ensures NormalizeExtract(e, cfg) == e.text
  {
  }

  /** With keepMeta clear, a match made of a two-character opening delimiter,
      any text and a two-character closing delimiter normalises to that text
      (plus the link when keepRefs is set). */
  lemma StripsTwoCharacterDelimiters(open: string, inner: string, close: string, source: Block, cfg: Settings)
    requires |open| == 2 && |close| == 2 && !cfg.keepMeta
    ensures NormalizeExtract(Extract(open + inner + close, source), cfg)
         == inner + (if cfg.keepRefs then RefSuffix(cfg.refLabel, source.uuid) else "")
  {
    var t := open + inner + close;
    assert t[2..|t| - 2] == inner;
  }

  /** With keepRefs set the output ends with exactly the link to the source
      block, and what comes before it is the (possibly stripped) text. */
  lemma RefLinkEndsOutput(e: Extract, cfg: Settings)
    requires cfg.keepRefs
    ensures var r := NormalizeExtract(e, cfg);
            var suffix := RefSuffix(cfg.refLabel, e.source.uuid);
            |r| >= |suffix| && r[|r| - |suffix|..] == suffix
            && r[..|r| - |suffix|] == (if cfg.keepMeta then e.text else Inner(e.text))
  {
  }

  /** The length of the output: the text's length, less four when stripping
      (never below zero), plus the link's length when keepRefs is set. */
  lemma NormalizedLength(e: Extract, cfg: Settings)
    ensures |NormalizeExtract(e, cfg)|
         == (if cfg.keepMeta then |e.text| else Max(0, |e.text| - 4))
          + (if cfg.keepRefs then 9 + |cfg.refLabel| + |e.source.uuid| else 0)
  {
  }

  /** "==highlight==" strips to "highlight". */
  lemma HighlightExample(source: Block, cfg: Settings)
    requires !cfg.keepMeta && !cfg.keepRefs
    ensures NormalizeExtract(Extract("==highlight==", source), cfg) == "highlight"
  {
    assert "==highlight=="[2..11] == "highlight";
  }

  /** With label "→" and source identifier "abc-123" the output ends with
      exactly " [→](((abc-123)))". */
  lemma RefLinkExample(e: Extract, cfg: Settings)
    requires cfg.keepRefs && cfg.refLabel == "→" && e.source.uuid == "abc-123"
    ensures var r := NormalizeExtract(e, cfg);
            |r| >= 17 && r[|r| - 17..] == " [→](((abc-123)))"
  {
    assert RefSuffix("→", "abc-123") == " [→](((abc-123)))";
    RefLinkEndsOutput(e, cfg);
  }
}
