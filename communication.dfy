/**
 * A logged interaction with a customer (com.crm.core.Communication). The id is
 * supplied by the caller and the timestamp is the clock reading passed in.
 */
module Communications {
  import opened Collections

  /** The state of a communication at one moment: what the store keeps and the searches read. */
  datatype CommunicationData = CommunicationData(
    id: string,
    customerId: string,
    kind: string,
    timestamp: int,
    notes: string,
    tags: seq<string>)

  /** Selects the communications whose id is `id`. */
  function HasId(id: string): CommunicationData -> bool {
    (c: CommunicationData) => c.id == id
  }

  class Communication {
    const id: string
    const customerId: string
    var kind: string
    const timestamp: int
    var notes: string
    var tags: seq<string>

    /** The communication's current state as a value. */
    function Data(): CommunicationData
      reads this
    {
      CommunicationData(id, customerId, kind, timestamp, notes, tags)
    }

    /** A new communication stamped with the current time `now` and without tags. */
    constructor (id: string, customerId: string, kind: string, notes: string, now: int)
      ensures Data() == CommunicationData(id, customerId, kind, now, notes, [])
    {
      this.id := id;
      this.customerId := customerId;
      this.kind := kind;
      this.timestamp := now;
      this.notes := notes;
      this.tags := [];
    }

    /** setType: changes the kind (phone, email, meeting) and nothing else. */
    method SetKind(kind: string)
      modifies this
      ensures Data() == old(Data()).(kind := kind)
    {
      this.kind := kind;
    }

    method SetNotes(notes: string)
      modifies this
      ensures Data() == old(Data()).(notes := notes)
    {
      this.notes := notes;
    }

    /** Appends `tag`; the earlier tags keep their order. */
    method AddTag(tag: string)
      modifies this
      ensures |tags| == |old(tags)| + 1 && tags[..|old(tags)|] == old(tags) && tags[|old(tags)|] == tag
      ensures Data() == old(Data()).(tags := old(tags) + [tag])
    {
      tags := tags + [tag];
    }

    /** Removes the first occurrence of `tag`, if any. */
    method RemoveTag(tag: string)
      modifies this
      ensures tag !in old(tags) ==> tags == old(tags)
      ensures multiset(tags) == multiset(old(tags)) - multiset{tag}
      ensures Data() == old(Data()).(tags := RemoveFirst(old(tags), tag))
    {
      tags := RemoveFirst(tags, tag);
    }
  }
}
