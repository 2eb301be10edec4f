/** 16-bit stream IDs: the lowest bit tells who started the stream, the rest is the slot it occupies. */
module StreamId {
  import opened Prelude

  type Id = x: int | 0 <= x < 0x1_0000

  datatype Role = Client | Server {
    function Peer(): Role {
      if Client? then Server else Client
    }
  }

  /** How many streams each side can have at most. */
  const MAX_STREAMS_PER_SIDE: nat := 0x8000

  function InitiatedBy(id: Id): Role {
    if id % 2 == 0 then Client else Server
  }

  function SlabIdx(id: Id): nat {
    id / 2
  }

  function FromSlabIdx(idx: nat, role: Role): (id: Option<Id>)
    ensures id.Some? <==> idx < MAX_STREAMS_PER_SIDE
    ensures id.Some? ==> SlabIdx(id.value) == idx && InitiatedBy(id.value) == role
  {
    var id := 2 * idx + (if role.Server? then 1 else 0);
    if id < 0x1_0000 then Some(id) else None
  }

  /** An ID is determined by its slot and the role that started the stream. */
  lemma IdRoundTrip(id: Id)
    ensures FromSlabIdx(SlabIdx(id), InitiatedBy(id)) == Some(id)
  {
  }
}
