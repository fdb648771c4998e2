/** The Provenance Tagger: a source block whose `id` property is missing gets
    its own uuid written there, so the summary's links can point back to it
    (index.js, inside summarizeExtracts). The host's property store is a table
    from block uuid to that block's properties. */
module Provenance {
  import opened Extraction

  type Props = map<string, string>
  type PropTable = map<Uuid, Props>

  /** The properties the table holds for `u`; none for an unknown block. */
  function PropsOf(table: PropTable, u: Uuid): Props {
    if u in table then table[u] else map[]
  }

  /** The host's upsertBlockProperty: set one key of one block's properties,
      creating the entry when needed; every other block keeps its entry. */
  function Upserted(table: PropTable, u: Uuid, key: string, value: string): PropTable {
    table[u := PropsOf(table, u)[key := value]]
  }

  /** An upsert sets one key of one block, keeps that block's other keys, and
      leaves every other block as it was. */
  lemma UpsertedSpec(table: PropTable, u: Uuid, key: string, value: string)
    ensures var r := Upserted(table, u, key, value);
      && r.Keys == table.Keys + {u}
      && key in r[u] && r[u][key] == value
      && (forall k :: k in r[u] && k != key ==> k in PropsOf(table, u) && r[u][k] == PropsOf(table, u)[k])
      && (forall v :: v in table && v != u ==> r[v] == table[v])
  {
  }

  /** `!source.properties?.id`: the block as it was read has no `id`, or an
      empty one (the empty string is falsy). The test looks at the block read
      at traversal time, not at the host's current table. */
  predicate LacksId(b: Block) {
    "id" !in b.props || b.props["id"] == ""
  }

  /** Re-reading a block after an id write: it lacks an id again exactly when
      the written value is empty. A source stamped with its own non-empty uuid
      is no longer stamped by a later run. */
  lemma StampClearsLack(b: Block, v: string)
    ensures LacksId(b.(props := b.props["id" := v])) <==> v == ""
    ensures |b.uuid| > 0 ==> !LacksId(b.(props := b.props["id" := b.uuid]))
  {
  }

  /** The write made for one extract: its source's id stamped with its own
      uuid when the source lacked one, nothing otherwise. */
  function TagStep(table: PropTable, e: Extract): (r: PropTable)
    ensures r.Keys == table.Keys + (if LacksId(e.source) then {e.source.uuid} else {})
    ensures LacksId(e.source) ==> r[e.source.uuid] == PropsOf(table, e.source.uuid)["id" := e.source.uuid]
    ensures LacksId(e.source) ==> forall v :: v in table && v != e.source.uuid ==> r[v] == table[v]
    ensures !LacksId(e.source) ==> r == table
  {
    if LacksId(e.source) then Upserted(table, e.source.uuid, "id", e.source.uuid) else table
  }

  /** The table after the writes for every extract, in extract order: it
      holds every block it held before and every stamped source, nothing
      else. */
  function Tagged(table: PropTable, es: seq<Extract>): (r: PropTable)
    ensures r.Keys == table.Keys + StampedUuids(es)
  {
    if es == [] then table
    else
      StampedSnoc(es);
      TagStep(Tagged(table, es[..|es| - 1]), es[|es| - 1])
  }

  /** The uuids of the source blocks that get stamped. */
  function StampedUuids(es: seq<Extract>): set<Uuid> {
    set e | e in es && LacksId(e.source) :: e.source.uuid
  }

  /** The stamped uuids of a list grow by the last extract's source when it
      lacked an id. */
  lemma StampedSnoc(es: seq<Extract>)
    requires es != []
    ensures StampedUuids(es)
         == StampedUuids(es[..|es| - 1]) + (if LacksId(es[|es| - 1].source) then {es[|es| - 1].source.uuid} else {})
  {
    assert es == es[..|es| - 1] + [es[|es| - 1]];
  }

  /** What tagging does to the table, whatever the order and repetition of
      the extracts: a stamped block gets `id` set to its own uuid and keeps its
      other properties; every other block is left exactly as it was. */
  lemma {:induction false} TaggedSpec(table: PropTable, es: seq<Extract>)
    ensures TaggedAs(table, es, Tagged(table, es))
    ensures var r := Tagged(table, es);
      && r.Keys == table.Keys + StampedUuids(es)
      && (forall u :: u in StampedUuids(es) ==> r[u] == PropsOf(table, u)["id" := u])
      && (forall u :: u in table && u !in StampedUuids(es) ==> r[u] == table[u])
    decreases |es|
  {
    if es != [] {
      TaggedSpec(table, es[..|es| - 1]);
      StampedSnoc(es);
      TagStepPreserves(table, es[..|es| - 1], es[|es| - 1], Tagged(table, es[..|es| - 1]));
    }
  }

  /** `r` is what tagging `table` for the extracts `es` should give. */
  ghost predicate TaggedAs(table: PropTable, es: seq<Extract>, r: PropTable) {
    && r.Keys == table.Keys + StampedUuids(es)
    && (forall u :: u in StampedUuids(es) ==> r[u] == PropsOf(table, u)["id" := u])
    && (forall u :: u in table && u !in StampedUuids(es) ==> r[u] == table[u])
  }

  lemma TagStepPreserves(table: PropTable, init: seq<Extract>, last: Extract, prev: PropTable)
    requires TaggedAs(table, init, prev)
    ensures TaggedAs(table, init + [last], TagStep(prev, last))
  {
    var es := init + [last];
    assert es[..|es| - 1] == init && es[|es| - 1] == last;
    StampedSnoc(es);
    if LacksId(last.source) {
      StampKeepsOthers(table, init, last, prev);
      StampSetsId(table, init, last, prev);
    }
  }

  /** Stamping `last` leaves every other block as tagging says. */
  lemma StampKeepsOthers(table: PropTable, init: seq<Extract>, last: Extract, prev: PropTable)
    requires TaggedAs(table, init, prev) && LacksId(last.source)
    ensures var r := TagStep(prev, last);
      forall v :: v in StampedUuids(init) && v != last.source.uuid ==> r[v] == PropsOf(table, v)["id" := v]
    ensures var r := TagStep(prev, last);
      forall v :: v in table && v !in StampedUuids(init) && v != last.source.uuid ==> r[v] == table[v]
  {
  }

  /** Stamping `last` gives its source the tagged properties. */
  lemma StampSetsId(table: PropTable, init: seq<Extract>, last: Extract, prev: PropTable)
    requires TaggedAs(table, init, prev) && LacksId(last.source)
    ensures var u := last.source.uuid; TagStep(prev, last)[u] == PropsOf(table, u)["id" := u]
  {
    var u := last.source.uuid;
    if u in StampedUuids(init) {
      assert PropsOf(prev, u) == PropsOf(table, u)["id" := u];
      assert PropsOf(table, u)["id" := u]["id" := u] == PropsOf(table, u)["id" := u];
    } else {
      assert PropsOf(prev, u) == PropsOf(table, u);
    }
  }

  /** Tagging twice is tagging once. */
  lemma TaggingIdempotent(table: PropTable, es: seq<Extract>)
    ensures Tagged(Tagged(table, es), es) == Tagged(table, es)
  {
    var once := Tagged(table, es);
    TaggedSpec(table, es);
    TaggedSpec(once, es);
    var twice := Tagged(once, es);
    var stamped := StampedUuids(es);
    forall u | u in once ensures twice[u] == once[u] {
      if u in stamped {
        assert PropsOf(once, u) == PropsOf(table, u)["id" := u];
        assert PropsOf(table, u)["id" := u]["id" := u] == PropsOf(table, u)["id" := u];
      }
    }
    assert twice.Keys == once.Keys;
  }

  /** When the table agrees with the blocks as they were read, every source
      block carries an `id` afterwards: its own uuid if it had none, its old
      value otherwise. */
  lemma SourcesCarryId(table: PropTable, es: seq<Extract>)
    requires forall e :: e in es ==> PropsOf(table, e.source.uuid) == e.source.props
    ensures forall e :: e in es ==>
      var r := Tagged(table, es);
      && e.source.uuid in r && "id" in r[e.source.uuid]
      && r[e.source.uuid]["id"] == (if LacksId(e.source) then e.source.uuid else e.source.props["id"])
  {
    TaggedSpec(table, es);
    forall e | e in es
      ensures var r := Tagged(table, es);
        && e.source.uuid in r && "id" in r[e.source.uuid]
        && r[e.source.uuid]["id"] == (if LacksId(e.source) then e.source.uuid else e.source.props["id"])
    {
      var u := e.source.uuid;
      if u !in StampedUuids(es) {
        assert !LacksId(e.source);
        assert u in table;
      }
    }
  }
}
