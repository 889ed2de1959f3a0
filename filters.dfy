/** The filter state of the event list (`Filters`): three strings, an empty
    one meaning "no constraint". */
module FilterState {
  import opened Basics

  datatype Values = Values(status: string, participantId: string, tagId: string)

  /** All three criteria off. */
  const Cleared: Values := Values("", "", "")

  /** One key of a patch object: missing, or present with a value. A present
      value is a string, or `None` for a falsy non-string (`null`,
      `undefined`, `false`, `0`). */
  datatype Entry = Absent | Present(value: Option<string>)

  /** A patch object; `set` receives `None` for `null` or `undefined`. */
  datatype Patch = Patch(status: Entry, participantId: Entry, tagId: Entry)

  /** `"key" in data ? (data.key || "") : previous`. */
  function Apply(e: Entry, previous: string): string
  {
    match e
    case Absent => previous
    case Present(v) => if v.Some? then v.value else ""
  }

  /** The filter state after `set(data)`. */
  function Patched(f: Values, data: Option<Patch>): (r: Values)
    ensures data.None? || data.value == Patch(Absent, Absent, Absent) ==> r == f
    ensures data.Some? && data.value == Patch(Present(None), Present(None), Present(None)) ==> r == Cleared
  {
    match data
    case None => f
    case Some(p) => Values(Apply(p.status, f.status), Apply(p.participantId, f.participantId), Apply(p.tagId, f.tagId))
  }

  /** A missing patch changes nothing; an absent key keeps its value; a
      present key takes the patch's value, a falsy one becoming "". */
  lemma PatchedFields(f: Values, data: Option<Patch>)
    ensures data.None? ==> Patched(f, data) == f
    ensures data.Some? && data.value.status.Absent? ==> Patched(f, data).status == f.status
    ensures data.Some? && data.value.participantId.Absent? ==> Patched(f, data).participantId == f.participantId
    ensures data.Some? && data.value.tagId.Absent? ==> Patched(f, data).tagId == f.tagId
    ensures data.Some? && data.value.status.Present? ==>
      Patched(f, data).status == (if data.value.status.value.Some? then data.value.status.value.value else "")
    ensures data.Some? && data.value.participantId.Present? ==>
      Patched(f, data).participantId == (if data.value.participantId.value.Some? then data.value.participantId.value.value else "")
    ensures data.Some? && data.value.tagId.Present? ==>
      Patched(f, data).tagId == (if data.value.tagId.value.Some? then data.value.tagId.value.value else "")
  {
  }

  /** Applying the same patch twice is applying it once. */
  lemma PatchedIdempotent(f: Values, data: Option<Patch>)
    ensures Patched(Patched(f, data), data) == Patched(f, data)
  {
  }

  /** A patch that names every key gives the same state from any start. */
  lemma PatchedFullForgets(f: Values, g: Values, p: Patch)
    requires p.status.Present? && p.participantId.Present? && p.tagId.Present?
    ensures Patched(f, Some(p)) == Patched(g, Some(p))
  {
  }

  class Filters {
    var status: string
    var participantId: string
    var tagId: string

    function Current(): Values
      reads this
    {
      Values(status, participantId, tagId)
    }

    /** `new Filters()`: every criterion off. */
    constructor ()
      ensures Current() == Cleared
    {
      status := "";
      participantId := "";
      tagId := "";
    }

    /** `set(data)`: overwrites only the keys the patch holds. */
    method Set(data: Option<Patch>)
      modifies this
      ensures Current() == Patched(old(Current()), data)
    {
      if data.None? {
        return;
      }
      var p := data.value;
      if p.status.Present? {
        status := Apply(p.status, status);
      }
      if p.participantId.Present? {
        participantId := Apply(p.participantId, participantId);
      }
      if p.tagId.Present? {
        tagId := Apply(p.tagId, tagId);
      }
    }

    /** `reset()`: every criterion off. */
    method Reset()
      modifies this
      ensures Current() == Cleared
    {
      status := "";
      participantId := "";
      tagId := "";
    }
  }
}
