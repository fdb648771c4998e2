# Extract highlights: a verified model

This project models the core of the Logseq "extract" plugin (`index.js`). The
plugin walks an outline of blocks, collects every fragment that matches a
regular expression (by default `==highlight==` or `**bold**`), and writes a
new summary block next to an anchor block. The summary block gets one child
per fragment. The model covers:

- **Extractor** (`extract.dfy`, module `Extraction`): `genExtracts` as a pure
  recursive function over a forest of `Block` values. The regular expression
  is a parameter of type `Matcher` (content to list of matches). One
  assumption is made of it: every match is a piece of the content
  (`SoundMatcher`).
- **Content normaliser** (`normalize.dfy`, module `Normalize`): the
  `slice(2, -2)` strip with JavaScript's `slice` semantics written out, and
  the ` [label](((uuid)))` back-reference.
- **Provenance tagger** (`provenance.dfy`, module `Provenance`): the `id`
  upsert on source blocks, as an update of a table from block uuid to
  property map.
- **Host** (`host.dfy`, module `HostApi`): a class standing for the editor.
  It keeps an ordered log of the calls the plugin makes (`insertBlock`,
  `upsertBlockProperty`, `showMsg`) and the property table those writes
  update. A created block's uuid comes from a `mint` function the host is
  built with.
- **Assembler and pipelines** (`summary.dfy`, module `Summary`):
  `summarizeExtracts` is an imperative method over the host. Its `forEach`
  is a loop whose invariant says the log holds the summary insertion plus the
  calls for the first k extracts. The block and page menu handlers are
  methods too. Lemmas describe the resulting call log: what is inserted, in
  what order, and which properties are written.
- `config.dfy` (module `Config`) holds the five settings a run reads.

Behaviour of the code that a reader might not expect, modelled as written:

- The id stamp is made once per extract whose source lacked an `id`, not
  once per distinct source block. The test reads the block as fetched at
  traversal time, so a source with several matches is stamped several times
  with the same value. The resulting table does not depend on how often a
  source is stamped (`TaggedSpec`).
- "Nothing to extract" is shown with status `"error"` (index.js:81). It is
  not shown as a neutral notice.
- `LacksId` is the `!properties?.id` test as written: it also treats an
  empty-string `id` as missing, because the empty string is falsy.
- `slice(2, -2)` on a match shorter than four characters gives `""`.
- The summary goes before the anchor exactly when `keepSummaryAbove` holds.
  This holds in both pipelines, despite the comment at index.js:78.

## Model

| member | source | states |
|---|---|---|
| `Extraction.GenExtracts` | index.js:132-144 | every extract's text is one of the matches of its own source block's content |
| `Extraction.GenExtractsIsPreorder` | index.js:132-144 | the extracts are the matches of the blocks in pre-order visiting order (block, its descendants, later siblings), each block's matches left to right |
| `Extraction.EmptyForest` | index.js:133 | an empty list of blocks yields no extract |
| `Extraction.LeafWithoutMatches` | index.js:133-143 | a childless block with no match contributes nothing: dropping it leaves the extracts unchanged |
| `Extraction.OrderingLaw` | index.js:133-142 | for a block followed by siblings: its own matches, then its children's extracts, then the siblings' |
| `Extraction.SiblingsInOrder` | index.js:133-143 | the extracts of a concatenated list of roots are the extracts of the first part followed by those of the second |
| `Extraction.EarlierVisitsFirst` | index.js:133-142 | cutting the pre-order visit list at any point cuts the extracts there: every earlier-visited block's extracts precede every later one's |
| `Extraction.CountIsSumOfMatches` | index.js:135-142 | the number of extracts is the sum of the match counts over all blocks of the forest |
| `Extraction.ExtractProvenance` | index.js:135-138 | every extract's source is a block of the forest, and its text is one of that block's matches and a substring of its content |
| `Extraction.PreorderClosed` | index.js:133-142 | the visited blocks include every root and every child of a visited block |
| `Extraction.OwnRunInPlace` | index.js:133-142 | the i-th block of the walk contributes its matches (`OwnExtracts`, in match order, each tagged with that block) as one contiguous run of the output, placed right after the matches of every block visited before it |
| `Normalize.JsSlice` | index.js:97 | `slice` always gives one contiguous piece of the text, no longer than it; in-range non-negative positions give the characters between them, and negative positions count back from the end |
| `Normalize.SliceStripsTwoEachEnd` | index.js:97 | `slice(2, -2)` equals dropping two characters from each end when the length is at least 4, and `""` otherwise; its length is `max(0, n-4)` |
| `Normalize.NormalizeExtract` | index.js:94-102 | the child content is the text (with two characters dropped from each end unless keepMeta) followed by the reference link exactly when keepRefs |
| `Normalize.KeepMetaKeepsText` | index.js:97-102 | with keepMeta set and keepRefs clear the text is copied verbatim |
| `Normalize.StripsTwoCharacterDelimiters` | index.js:96-97 | with keepMeta clear, two-character delimiters around any text are removed and the text is kept unchanged |
| `Normalize.RefLinkEndsOutput` | index.js:99-102 | with keepRefs the output ends with exactly ` [label](((uuid)))` of the source block, after the normalised text |
| `Normalize.NormalizedLength` | index.js:97-102 | output length is the text length (less 4, not below 0, when stripping) plus 9 + label length + uuid length when keepRefs |
| `Normalize.HighlightExample` | index.js:97 | `==highlight==` normalises to `highlight` |
| `Normalize.RefLinkExample` | index.js:100-102 | with label `→` and uuid `abc-123` the output ends with ` [→](((abc-123)))` |
| `Provenance.StampClearsLack` | index.js:103-104 | a block re-read after an id write lacks an id again exactly when the written value is empty; stamped with its own non-empty uuid it is never stamped again |
| `Provenance.TagStep` | index.js:103-104 | one extract's write: a source lacking an id gains the table entry (if new) and has `id` set to its own uuid with its other properties kept, and every other block keeps its entry; otherwise the table is unchanged |
| `Provenance.Tagged` | index.js:93-107 | after the writes for all extracts, the table holds exactly the blocks it held before plus the stamped sources |
| `Provenance.UpsertedSpec` | index.js:104 | an upsert sets one key of one block, keeps that block's other keys and every other block |
| `Provenance.TaggedSpec` | index.js:103-104 | after tagging, each source that lacked an id has `id` set to its own uuid with its other properties kept; every other block is unchanged |
| `Provenance.TaggingIdempotent` | index.js:103-104 | tagging twice gives the same table as tagging once |
| `Provenance.SourcesCarryId` | index.js:103-104 | when the table matches the fetched blocks, every source carries an `id` afterwards: its own uuid if it had none, its old value otherwise |
| `HostApi.Host.InsertBlock` | index.js:86-90 | an insertion is appended to the log, leaves the properties alone, and returns the uuid the host mints for the next block |
| `HostApi.Host.UpsertBlockProperty` | index.js:104 | a property write is appended to the log and applied to the table |
| `HostApi.Host.ShowMsg` | index.js:81 | a notice is appended to the log and changes nothing else |
| `Summary.Planned` | index.js:79-110 | every run makes exactly one notice, as its last call: "Nothing to extract"/"error" with no extracts, "Extraction completed!"/"success" otherwise; with extracts the first call inserts the summary block beside the anchor |
| `Summary.ChildCallsSendNoNotice` | index.js:93-107 | the per-extract calls are stamps and insertions only, never a notice |
| `Summary.SummarizeExtracts` | index.js:79-110 | the new log is the old log plus the planned calls (summary insertion, per-extract calls, notice); the new table is the old one tagged for the extracts |
| `Summary.AddChildren` | index.js:93-107 | the loop appends the calls of every extract in order and tags the table for all of them |
| `Summary.AddChild` | index.js:94-106 | one extract: the id stamp if its source lacked one, then the insertion of its normalised text under the summary block |
| `Summary.ChildInserts` | index.js:93-107 | the insertions made by the loop are exactly one child of the summary block per extract, in extract order |
| `Summary.ChildWrites` | index.js:103-104 | the property writes made by the loop are exactly the id stamps of the extracts, in order |
| `Summary.NoStampsWhenTagged` | index.js:103-104 | a run over extracts whose sources all carry an id, as a second run over stamped blocks, writes no property |
| `Summary.StampsAreIdStamps` | index.js:103-104 | every stamp writes `id` := the uuid of a source block that lacked an id |
| `Summary.EverySourceStamped` | index.js:103-104 | every extract whose source lacked an id has its stamp written |
| `Summary.NothingToExtractOutcome` | index.js:80-83 | with no extracts the only call is the "Nothing to extract" notice: no insertion, no property write |
| `Summary.SummaryShape` | index.js:86-107 | with extracts, the insertions are the summary block (title as content, sibling of the anchor, before it iff keepSummaryAbove) and then one child per extract in order, and nothing else |
| `Summary.SummaryWrites` | index.js:79-110 | with extracts, the property writes of the whole run are exactly the id stamps in extract order: one per extract whose source lacked an id, each setting `id` to that source's own uuid |
| `Summary.PageAnchor` | index.js:127 | the page anchor exists exactly when the page has a block, and is the first top-level block if keepSummaryAbove, else the last |
| `Summary.PageAnchorChoice` | index.js:127 | whenever the page yields an extract there is an anchor block, so the summary never lacks a target; the anchor is the first or last top-level block as keepSummaryAbove says |
| `Summary.BlockPipeline` | index.js:116-121 | the block handler plans the summary for the block's subtree, anchored on the block itself |
| `Summary.PagePipeline` | index.js:123-129 | the page handler plans the summary for all top-level blocks, anchored on the page anchor |
| `Summary.BlockScenario` | index.js:79-110 | the block "Keep ==this== and \*\*that\*\*" gives a summary block and the children "this" and "that", in that order |
| `Summary.PageScenario` | index.js:123-129 | a three-block page where only the second block matches, with keepSummaryAbove clear: anchor is the third block, summary after it, one child |

## Left out

- The regular-expression engine (`new RegExp(expr, "g")`, `matchAll`) is a `Matcher` parameter. Invalid patterns and JavaScript regex semantics are not modelled.
- Host API calls are foreign I/O: `getBlock`, `getPageBlocksTree`, `registerBlockContextMenuItem`, `registerPageMenuItem`, `useSettingsSchema` and `logseq.ready`. The fetched block tree and page blocks are parameters of the pipelines. Inserts, upserts and notices are entries in the host's log.
- Asynchrony is not modelled. The child `insertBlock` calls and the pipelines' call to `summarizeExtracts` are not awaited. The model takes the intended sequential order, with no interleaving and no partial failure.
- The settings schema (`manageSettings`) is not modelled; the settings are plain values. Its boolean defaults are the strings `"false"`/`"true"`, which JavaScript treats as truthy. This is not modelled.
- Strings are sequences of Unicode scalar values, so `JsSlice` positions and all lengths (`NormalizedLength`, `SliceStripsTwoEachEnd`) count those values, not JavaScript's UTF-16 code units. The strip differs from JavaScript's only when a character outside the Basic Multilingual Plane (an emoji, say) sits within two code units of either end of a match. The default `==…==` and `**…**` patterns never produce such a match.
- The notice's timeout option (3000 ms) is not modelled.
- `properties.id` values that are not strings (numbers, booleans) are not modelled: properties are string-to-string maps.
