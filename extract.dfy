/** The Extractor: a depth-first, pre-order walk over a forest of blocks that
    collects every match of the configured pattern, tagged with the block it
    was found in (genExtracts in index.js). */
module Extraction {

  type Uuid = string

  /** A block of the outline as the host hands it over: its identifier, its
      text, its property map and its children in stored order. */
  datatype Block = Block(uuid: Uuid, content: string, props: map<string, string>, children: seq<Block>)

  /** One matched fragment and the block it came from. */
  datatype Extract = Extract(text: string, source: Block)

  /** The compiled pattern with global matching: all non-overlapping matches of
      one block's content, left to right. The pattern engine is not modelled;
      any function of this type may stand for it. */
  type Matcher = string -> seq<string>

  /** `t` occurs in `s` as a contiguous piece. */
  ghost predicate IsSubstring(t: string, s: string) {
    exists i, j :: 0 <= i <= j <= |s| && s[i..j] == t
  }

  /** The one assumption made of the pattern engine: it only reports pieces
      of the text it was given. */
  ghost predicate SoundMatcher(m: Matcher) {
    forall c: string, k: int :: 0 <= k < |m(c)| ==> IsSubstring(m(c)[k], c)
  }

  /** The extracts of one block's own content, in match order. */
  function OwnExtracts(b: Block, m: Matcher): seq<Extract> {
    seq(|m(b.content)|, k requires 0 <= k < |m(b.content)| => Extract(m(b.content)[k], b))
  }

  /** genExtracts: for each block in order, its own matches, then (recursively)
      the extracts of its children, then the following siblings. */
  function GenExtracts(blocks: seq<Block>, m: Matcher): (r: seq<Extract>)
    ensures forall k :: 0 <= k < |r| ==> r[k].text in m(r[k].source.content)
    decreases blocks
  {
    if blocks == [] then []
    else OwnExtracts(blocks[0], m) + GenExtracts(blocks[0].children, m) + GenExtracts(blocks[1..], m)
  }

  // ---------------------------------------------------------------------------
  // An independent reference definition: first list the blocks in the order a
  // pre-order walk visits them, then concatenate the matches of each one.

  /** The blocks of a forest in pre-order: each block, then its descendants,
      then its later siblings. */
  function Preorder(blocks: seq<Block>): seq<Block>
    decreases blocks
  {
    if blocks == [] then []
    else [blocks[0]] + (Preorder(blocks[0].children) + Preorder(blocks[1..]))
  }

  /** The extracts of a list of visited blocks, block by block. */
  function ExtractsOf(visits: seq<Block>, m: Matcher): seq<Extract> {
    if visits == [] then [] else OwnExtracts(visits[0], m) + ExtractsOf(visits[1..], m)
  }

  /** The total number of matches over a list of blocks. */
  function MatchCount(visits: seq<Block>, m: Matcher): nat {
    if visits == [] then 0 else |m(visits[0].content)| + MatchCount(visits[1..], m)
  }

  lemma {:induction false} ExtractsOfAppend(xs: seq<Block>, ys: seq<Block>, m: Matcher)
    ensures ExtractsOf(xs + ys, m) == ExtractsOf(xs, m) + ExtractsOf(ys, m)
    decreases |xs|
  {
    if xs == [] {
      assert xs + ys == ys;
    } else {
      assert (xs + ys)[1..] == xs[1..] + ys;
      ExtractsOfAppend(xs[1..], ys, m);
    }
  }

  lemma ExtractsOfCons(b: Block, rest: seq<Block>, m: Matcher)
    ensures ExtractsOf([b] + rest, m) == OwnExtracts(b, m) + ExtractsOf(rest, m)
  {
    assert ([b] + rest)[1..] == rest;
  }

  /** genExtracts visits the blocks in pre-order and, inside each block, its
      matches left to right. */
  lemma {:induction false} GenExtractsIsPreorder(blocks: seq<Block>, m: Matcher)
    ensures GenExtracts(blocks, m) == ExtractsOf(Preorder(blocks), m)
    decreases blocks
  {
    if blocks != [] {
      var b := blocks[0];
      GenExtractsIsPreorder(b.children, m);
      GenExtractsIsPreorder(blocks[1..], m);
      ExtractsOfAppend(Preorder(b.children), Preorder(blocks[1..]), m);
      ExtractsOfCons(b, Preorder(b.children) + Preorder(blocks[1..]), m);
    }
  }

  /** An empty forest yields nothing. */
  lemma EmptyForest(m: Matcher)
    ensures GenExtracts([], m) == []
  {
  }

  /** A leaf block without matches contributes nothing: it can be dropped. */
  lemma LeafWithoutMatches(b: Block, rest: seq<Block>, m: Matcher)
    requires m(b.content) == [] && b.children == []
    ensures GenExtracts([b] + rest, m) == GenExtracts(rest, m)
  {
    assert ([b] + rest)[1..] == rest;
    assert GenExtracts(b.children, m) == [];
  }

  /** The ordering law for a block followed by its later siblings: its own
      matches first, then its descendants' extracts, then the siblings'. */
  lemma OrderingLaw(b: Block, rest: seq<Block>, m: Matcher)
    ensures GenExtracts([b] + rest, m)
         == OwnExtracts(b, m) + GenExtracts(b.children, m) + GenExtracts(rest, m)
  {
    assert ([b] + rest)[1..] == rest;
  }

  /** The extracts of an earlier group of siblings all precede those of a
      later group. */
  lemma {:induction false} SiblingsInOrder(xs: seq<Block>, ys: seq<Block>, m: Matcher)
    ensures GenExtracts(xs + ys, m) == GenExtracts(xs, m) + GenExtracts(ys, m)
    decreases |xs|
  {
    if xs == [] {
      assert xs + ys == ys;
    } else {
      assert (xs + ys)[0] == xs[0];
      assert (xs + ys)[1..] == xs[1..] + ys;
      SiblingsInOrder(xs[1..], ys, m);
    }
  }

  /** Cutting the pre-order visit list anywhere cuts the extracts at the same
      place: every block visited earlier has all its extracts before those of
      every block visited later. */
  lemma EarlierVisitsFirst(blocks: seq<Block>, m: Matcher, k: nat)
    requires k <= |Preorder(blocks)|
    ensures GenExtracts(blocks, m)
         == ExtractsOf(Preorder(blocks)[..k], m) + ExtractsOf(Preorder(blocks)[k..], m)
  {
    var p := Preorder(blocks);
    GenExtractsIsPreorder(blocks, m);
    assert p == p[..k] + p[k..];
    ExtractsOfAppend(p[..k], p[k..], m);
  }

  lemma {:induction false} ExtractsOfLength(visits: seq<Block>, m: Matcher)
    ensures |ExtractsOf(visits, m)| == MatchCount(visits, m)
    decreases |visits|
  {
    if visits != [] {
      ExtractsOfLength(visits[1..], m);
    }
  }

  /** The i-th block of the walk contributes one contiguous run of the output:
      its own matches, in order, placed right after the matches of every block
      visited before it. */
  lemma OwnRunInPlace(blocks: seq<Block>, i: nat, m: Matcher)
    requires i < |Preorder(blocks)|
    ensures var p := Preorder(blocks);
            var lo := MatchCount(p[..i], m);
            lo + |m(p[i].content)| <= |GenExtracts(blocks, m)|
            && GenExtracts(blocks, m)[lo..lo + |m(p[i].content)|] == OwnExtracts(p[i], m)
  {
    var p := Preorder(blocks);
    GenExtractsIsPreorder(blocks, m);
    ExtractsAround(p, i, m);
    ExtractsOfLength(p[..i], m);
    MiddleSlice(ExtractsOf(p[..i], m), OwnExtracts(p[i], m), ExtractsOf(p[i + 1..], m));
  }

  /** The extracts of a visit list, cut around its i-th block. */
  lemma ExtractsAround(p: seq<Block>, i: nat, m: Matcher)
    requires i < |p|
    ensures ExtractsOf(p, m) == ExtractsOf(p[..i], m) + OwnExtracts(p[i], m) + ExtractsOf(p[i + 1..], m)
  {
    var pre, post := p[..i], p[i + 1..];
    assert p == pre + ([p[i]] + post);
    ExtractsOfAppend(pre, [p[i]] + post, m);
    ExtractsOfCons(p[i], post, m);
    ConcatAssoc(ExtractsOf(pre, m), OwnExtracts(p[i], m), ExtractsOf(post, m));
  }

  lemma ConcatAssoc<T>(a: seq<T>, b: seq<T>, c: seq<T>)
    ensures a + (b + c) == a + b + c
  {
  }

  lemma MiddleSlice<T>(a: seq<T>, b: seq<T>, c: seq<T>)
    ensures (a + b + c)[|a|..|a| + |b|] == b
  {
  }

  /** The number of extracts is the number of matches summed over every block
      of the forest. */
  lemma CountIsSumOfMatches(blocks: seq<Block>, m: Matcher)
    ensures |GenExtracts(blocks, m)| == MatchCount(Preorder(blocks), m)
  {
    GenExtractsIsPreorder(blocks, m);
    ExtractsOfLength(Preorder(blocks), m);
  }

  lemma {:induction false} ExtractsOfSources(visits: seq<Block>, m: Matcher)
    ensures forall e :: e in ExtractsOf(visits, m) ==> e.source in visits && e.text in m(e.source.content)
    decreases |visits|
  {
    if visits != [] {
      ExtractsOfSources(visits[1..], m);
      forall e | e in ExtractsOf(visits, m)
        ensures e.source in visits && e.text in m(e.source.content)
      {
        if e in OwnExtracts(visits[0], m) {
          var k :| 0 <= k < |OwnExtracts(visits[0], m)| && OwnExtracts(visits[0], m)[k] == e;
        } else {
          assert e in ExtractsOf(visits[1..], m);
          assert e.source in visits[1..];
        }
      }
    }
  }

  /** Every extract comes from a block of the forest, and its text is one of
      that block's matches, hence a piece of that block's content. */
  lemma ExtractProvenance(blocks: seq<Block>, m: Matcher)
    requires SoundMatcher(m)
    ensures forall e :: e in GenExtracts(blocks, m) ==>
      e.source in Preorder(blocks) && e.text in m(e.source.content) && IsSubstring(e.text, e.source.content)
  {
    GenExtractsIsPreorder(blocks, m);
    ExtractsOfSources(Preorder(blocks), m);
    forall e | e in GenExtracts(blocks, m)
      ensures IsSubstring(e.text, e.source.content)
    {
      var k :| 0 <= k < |m(e.source.content)| && m(e.source.content)[k] == e.text;
    }
  }

  /** The pre-order list contains the whole forest: every root, and every
      child of every block it contains. */
  lemma {:induction false} PreorderClosed(blocks: seq<Block>)
    ensures forall b :: b in blocks ==> b in Preorder(blocks)
    ensures forall b, c :: b in Preorder(blocks) && c in b.children ==> c in Preorder(blocks)
    decreases blocks
  {
    if blocks != [] {
      var b0 := blocks[0];
      PreorderClosed(b0.children);
      PreorderClosed(blocks[1..]);
      forall b | b in blocks ensures b in Preorder(blocks) {
        if b != b0 {
          assert b in blocks[1..];
        }
      }
      forall b, c | b in Preorder(blocks) && c in b.children
        ensures c in Preorder(blocks)
      {
        if b == b0 {
          assert c in Preorder(b0.children);
        }
      }
    }
  }
}
