/** The forward list of received chunks. The link to the next chunk is in the chunk itself, and it may be stale. */
module DataLists {
  import opened Prelude
  import opened TurnQueue

  /** A received chunk. The link means something only in a list, and only before the tail. */
  class Data {
    const bytes: Bytes
    var link: Data?

    constructor (bytes: Bytes)
      ensures this.bytes == bytes
    {
      this.bytes := bytes;
    }
  }

  class DataList {
    var head: Data?
    var tail: Data?
    ghost var nodes: seq<Data>

    constructor ()
      ensures Valid() && nodes == []
    {
      head, tail, nodes := null, null, [];
    }

    /** Nothing is said about the link of the tail. */
    ghost predicate Valid()
      reads this, nodes
    {
      && Distinct(nodes)
      && head == (if nodes == [] then null else nodes[0])
      && tail == (if nodes == [] then null else nodes[|nodes| - 1])
      && (forall i | 0 <= i < |nodes| - 1 :: nodes[i].link == nodes[i + 1])
      && (forall i | 0 <= i < |nodes| :: nodes[i].bytes != [])
    }

    /** The chunks, first to last. */
    ghost function Contents(): (chunks: seq<Bytes>)
      reads this
      ensures |chunks| == |nodes|
    {
      seq(|nodes|, i requires 0 <= i < |nodes| reads this => nodes[i].bytes)
    }

    predicate IsEmpty()
      requires Valid()
      reads this, nodes
      ensures IsEmpty() <==> Contents() == []
    {
      head == null
    }

    method PushBack(data: Data)
      requires Valid() && data !in nodes
      modifies this, tail
      ensures Valid() && Contents() == if data.bytes == [] then old(Contents()) else old(Contents()) + [data.bytes]
      ensures nodes == if data.bytes == [] then old(nodes) else old(nodes) + [data]
    {
      if data.bytes == [] {
        return;
      }
      if tail != null {
        tail.link := data;
        tail := data;
      } else {
        head, tail := data, data;
      }
      nodes := nodes + [data];
    }

    method PopFront() returns (data: Data?)
      requires Valid()
      modifies this
      ensures Valid() && (data == null <==> old(Contents()) == [])
      ensures data != null ==> old(Contents()) == [data.bytes] + Contents() && data.bytes != [] && data !in nodes
    {
      if head == null {
        return null;
      }
      data := head;
      if head == tail {
        assert |nodes| == 1;
        head, tail := null, null;
      } else {
        head := data.link;
      }
      nodes := nodes[1..];
      assert old(Contents()) == [data.bytes] + Contents();
    }
  }
}
