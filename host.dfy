/** The host editor as the plugin sees it: every call the plugin makes is
    appended to an ordered log, and property writes also update a property
    table. Storage, rendering and the network stay on the host's side. */
module HostApi {
  import opened Extraction
  import opened Provenance

  /** insertBlock's options: `{ sibling: true, before: b }` or `{ sibling: false }`
      (a new last child of the target). */
  datatype Placement = Sibling(before: bool) | Child

  datatype HostCall =
    | InsertCall(target: Uuid, content: string, placement: Placement)
    | UpsertCall(block: Uuid, key: string, value: string)
    | MessageCall(message: string, status: string)

  /** The block insertions of a call log, in order. */
  function Inserts(calls: seq<HostCall>): (r: seq<HostCall>)
    ensures forall i :: 0 <= i < |r| ==> r[i].InsertCall?
  {
    if calls == [] then []
    else (if calls[0].InsertCall? then [calls[0]] else []) + Inserts(calls[1..])
  }

  /** The property writes of a call log, in order. */
  function Writes(calls: seq<HostCall>): (r: seq<HostCall>)
    ensures forall i :: 0 <= i < |r| ==> r[i].UpsertCall?
  {
    if calls == [] then []
    else (if calls[0].UpsertCall? then [calls[0]] else []) + Writes(calls[1..])
  }

  lemma {:induction false} InsertsAppend(a: seq<HostCall>, b: seq<HostCall>)
    ensures Inserts(a + b) == Inserts(a) + Inserts(b)
    decreases |a|
  {
    if a == [] {
      assert a + b == b;
    } else {
      assert (a + b)[1..] == a[1..] + b;
      InsertsAppend(a[1..], b);
    }
  }

  lemma {:induction false} WritesAppend(a: seq<HostCall>, b: seq<HostCall>)
    ensures Writes(a + b) == Writes(a) + Writes(b)
    decreases |a|
  {
    if a == [] {
      assert a + b == b;
    } else {
      assert (a + b)[1..] == a[1..] + b;
      WritesAppend(a[1..], b);
    }
  }

  lemma SingleCall(c: HostCall)
    ensures Inserts([c]) == if c.InsertCall? then [c] else []
    ensures Writes([c]) == if c.UpsertCall? then [c] else []
  {
    assert [c][1..] == [];
  }

  class Host {
    /** How the host names the blocks it creates: the n-th inserted block
        (counting from 0 over the whole log) gets uuid mint(n). */
    const mint: nat -> Uuid
    /** Every call made so far, oldest first. */
    var calls: seq<HostCall>
    /** The host's block properties. */
    var props: PropTable

    constructor (mint: nat -> Uuid, props: PropTable)
      ensures this.mint == mint && this.props == props && calls == []
    {
      this.mint := mint;
      this.props := props;
      calls := [];
    }

    /** The uuid the next inserted block will get. */
    function NextUuid(): Uuid
      reads this
    {
      mint(|Inserts(calls)|)
    }

    /** logseq.Editor.insertBlock: create a block relative to `target`. */
    method InsertBlock(target: Uuid, content: string, placement: Placement) returns (created: Uuid)
      modifies this
      ensures created == old(NextUuid())
      ensures calls == old(calls) + [InsertCall(target, content, placement)]
      ensures props == old(props)
    {
      created := NextUuid();
      calls := calls + [InsertCall(target, content, placement)];
    }

    /** logseq.Editor.upsertBlockProperty. */
    method UpsertBlockProperty(block: Uuid, key: string, value: string)
      modifies this
      ensures calls == old(calls) + [UpsertCall(block, key, value)]
      ensures props == Upserted(old(props), block, key, value)
    {
      calls := calls + [UpsertCall(block, key, value)];
      props := Upserted(props, block, key, value);
    }

    /** logseq.UI.showMsg. */
    method ShowMsg(message: string, status: string)
      modifies this
      ensures calls == old(calls) + [MessageCall(message, status)]
      ensures props == old(props)
    {
      calls := calls + [MessageCall(message, status)];
    }
  }
}
