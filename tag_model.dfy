/** The tag store (`TagModel`): the tags and the store's listener registry. */
module TagStore {
  import opened Basics
  import opened Text
  import opened Records
  import opened Notify

  /** A stored tag (`labelText` is the source's `label`); `id` is `None`
      for an id that is not numeric. */
  datatype Tag = Tag(id: Option<int>, labelText: string)

  /** The data handed to `addTag`; a missing label is "". */
  datatype TagInput = TagInput(labelText: string)

  const LabelRequired: string := "Der Tag-Name darf nicht leer sein."
  const LabelExists: string := "Dieses Tag existiert bereits."
  const TagAdded: string := "Tag wurde hinzugefügt."
  const TagNotFound: string := "Tag nicht gefunden."
  const TagDeleted: string := "Tag wurde gelöscht."
  const LoadFailedText: string := "Fehler beim Laden der Tags."

  function IdOf(t: Tag): Option<int>
  {
    t.id
  }

  /** The label as the duplicate check compares it. */
  function LabelKey(t: Tag): string
  {
    Lower(t.labelText)
  }

  /** Some stored tag has the label `text`, ignoring case. */
  predicate LabelTaken(ts: seq<Tag>, text: string)
  {
    exists i :: 0 <= i < |ts| && SameIgnoringCase(ts[i].labelText, text)
  }

  /** `addTag(data)`: the label is trimmed and required, must be new
      ignoring case, and the tag gets the next id. */
  function AddTagStep(ts: seq<Tag>, data: TagInput): (r: Step<seq<Tag>>)
    ensures |ts| <= |r.state| <= |ts| + 1
    ensures r.state[..|ts|] == ts
    ensures |r.notices| > 0 && r.notices[0].Banner?
  {
    var text := Trim(data.labelText);
    if |text| == 0 then Step(ts, [Banner(LabelRequired)])
    else if LabelTaken(ts, text) then Step(ts, [Banner(LabelExists)])
    else Step(ts + [Tag(Some(NextKey(ts, IdOf)), text)], [Banner(TagAdded), Changed])
  }

  /** A blank label is refused. */
  lemma AddTagRejectsBlank(ts: seq<Tag>, data: TagInput)
    requires AllWhitespace(data.labelText)
    ensures AddTagStep(ts, data) == Step(ts, [Banner(LabelRequired)])
  {
    TrimBlank(data.labelText);
  }

  /** A stored label that differs from the trimmed input only in case is a
      duplicate. */
  lemma AddTagRejectsDuplicate(ts: seq<Tag>, data: TagInput, i: nat)
    requires !AllWhitespace(data.labelText)
    requires i < |ts| && Lower(ts[i].labelText) == Lower(Trim(data.labelText))
    ensures AddTagStep(ts, data) == Step(ts, [Banner(LabelExists)])
  {
    TrimBlank(data.labelText);
  }

  /** Otherwise exactly one tag is appended, holding the trimmed label and
      the next id, which no tag held before; the store emits the success
      banner and then Changed, and both the ids and the labels (ignoring
      case) stay unique. */
  lemma AddTagAppends(ts: seq<Tag>, data: TagInput)
    requires !AllWhitespace(data.labelText)
    requires forall i :: 0 <= i < |ts| ==> Lower(ts[i].labelText) != Lower(Trim(data.labelText))
    ensures var r := AddTagStep(ts, data);
            var id := NextKey(ts, IdOf);
            && r.state == ts + [Tag(Some(id), Trim(data.labelText))]
            && (forall i :: 0 <= i < |ts| ==> ts[i].id != Some(id))
            && r.notices == [Banner(TagAdded), Changed]
            && (UniqueKeys(ts, IdOf) ==> UniqueKeys(r.state, IdOf))
            && (UniqueBy(ts, LabelKey) ==> UniqueBy(r.state, LabelKey))
  {
    TrimBlank(data.labelText);
    var t := Tag(Some(NextKey(ts, IdOf)), Trim(data.labelText));
    if UniqueKeys(ts, IdOf) {
      UniqueKeysAppendNext(ts, IdOf, t);
    }
    if UniqueBy(ts, LabelKey) {
      UniqueByAppend(ts, LabelKey, t);
    }
  }

  /** Once a label is stored, adding it again in any case is refused. */
  lemma AddTagTwice(ts: seq<Tag>, first: TagInput, second: TagInput)
    requires |AddTagStep(ts, first).state| > |ts|
    requires Lower(Trim(second.labelText)) == Lower(Trim(first.labelText))
    ensures var ts1 := AddTagStep(ts, first).state;
            AddTagStep(ts1, second) == Step(ts1, [Banner(LabelExists)])
  {
    var ts1 := AddTagStep(ts, first).state;
    assert ts1[|ts|].labelText == Trim(first.labelText);
    assert |Lower(Trim(second.labelText))| == |Trim(second.labelText)|;
  }

  /** `deleteTag(id)`. */
  function DeleteTagStep(ts: seq<Tag>, id: Option<int>): (r: Step<seq<Tag>>)
    ensures |r.state| <= |ts|
    ensures r.notices == [] <==> id.None?
  {
    if id.None? then Step(ts, [])
    else
      var rest := RemoveKey(ts, IdOf, id.value);
      if |rest| == |ts| then Step(rest, [Banner(TagNotFound)])
      else Step(rest, [Banner(TagDeleted), Changed])
  }

  /** A non-numeric id changes nothing and emits nothing; an id no tag has
      changes nothing and emits the not-found banner. */
  lemma DeleteTagMissing(ts: seq<Tag>, id: Option<int>)
    requires id.None? || FirstIndex(ts, IdOf, id.value).None?
    ensures DeleteTagStep(ts, id) == Step(ts, if id.None? then [] else [Banner(TagNotFound)])
  {
    if id.Some? {
      RemoveKeyMissing(ts, IdOf, id.value);
    }
  }

  /** Otherwise every tag with the id goes, the rest keep their order, the
      store emits the success banner and then Changed, and ids and labels
      stay unique. */
  lemma DeleteTagRemoves(ts: seq<Tag>, id: int)
    requires FirstIndex(ts, IdOf, id).Some?
    ensures var r := DeleteTagStep(ts, Some(id));
            && IsSubsequence(r.state, ts)
            && (forall t :: t in r.state <==> t in ts && t.id != Some(id))
            && (forall t: Tag :: t.id != Some(id) ==> multiset(r.state)[t] == multiset(ts)[t])
            && |r.state| < |ts|
            && r.notices == [Banner(TagDeleted), Changed]
            && (UniqueKeys(ts, IdOf) ==> UniqueKeys(r.state, IdOf))
            && (UniqueBy(ts, LabelKey) ==> UniqueBy(r.state, LabelKey))
  {
    RemoveKeyKeeps(ts, IdOf, id);
    RemoveKeyMissing(ts, IdOf, id);
    if UniqueKeys(ts, IdOf) {
      UniqueKeysRemove(ts, IdOf, id);
    }
    if UniqueBy(ts, LabelKey) {
      UniqueByRemove(ts, IdOf, id, LabelKey);
    }
  }

  class TagModel {
    var tags: seq<Tag>
    var channel: Channel

    /** `new TagModel()`. */
    constructor ()
      ensures tags == [] && channel == Empty
    {
      tags := [];
      channel := Empty;
    }

    /** `addListener(type, fn)`: `outcome` says whether `fn` was
      registered, the kind was ignored, or the call threw a TypeError. */
    method AddListener(kind: string, fn: ListenerId) returns (outcome: Registration)
      modifies this
      ensures tags == old(tags)
      ensures channel == Notify.AddListener(old(channel), kind, fn)
      ensures outcome == Registered <==> kind in Kinds
      ensures outcome == TypeError <==> kind in InheritedKeys
    {
      outcome := RegistrationOf(kind);
      channel := Notify.AddListener(channel, kind, fn);
    }

    /** The success branch of `load()`, given the parsed data (`None` when it
      is not an array). */
    method LoadSucceeded(data: Option<seq<Tag>>)
      modifies this
      ensures tags == (if data.Some? then data.value else [])
      ensures channel == EmitAll(old(channel), [Loaded, Changed])
    {
      tags := if data.Some? then data.value else [];
      channel := EmitAll(channel, [Loaded, Changed]);
    }

    /** The failure branch of `load()`. */
    method LoadFailed()
      modifies this
      ensures tags == old(tags)
      ensures channel == Emit(old(channel), Banner(LoadFailedText))
    {
      channel := Emit(channel, Banner(LoadFailedText));
    }

    /** `getAll()`: a copy the caller may change without touching the store. */
    method GetAll() returns (copy: array<Tag>)
      ensures fresh(copy) && copy[..] == tags
    {
      var ts := tags;
      copy := new Tag[|ts|](i requires 0 <= i < |ts| => ts[i]);
    }

    /** `getById(id)`: the first tag with the id, or none. */
    method GetById(id: Option<int>) returns (r: Option<Tag>)
      ensures r.Some? ==>
        exists i :: 0 <= i < |tags| && tags[i] == r.value && r.value.id == id && forall j :: 0 <= j < i ==> tags[j].id != id
      ensures r.None? <==> id.None? || forall i :: 0 <= i < |tags| ==> tags[i].id != id
      ensures id.Some? ==> r == FindKey(tags, IdOf, id.value)
    {
      if id.None? {
        return None;
      }
      var i := 0;
      while i < |tags|
        invariant 0 <= i <= |tags|
        invariant forall j :: 0 <= j < i ==> tags[j].id != id
      {
        if tags[i].id == id {
          return Some(tags[i]);
        }
        i := i + 1;
      }
      return None;
    }

    /** `_nextId()`. */
    method NextId() returns (r: int)
      ensures r == NextKey(tags, IdOf)
    {
      var maxId := 0;
      var i := 0;
      while i < |tags|
        invariant 0 <= i <= |tags|
        invariant maxId == MaxKey(tags[..i], IdOf)
      {
        assert tags[..i + 1][..i] == tags[..i];
        var id := tags[i].id;
        if id.Some? && id.value > maxId {
          maxId := id.value;
        }
        i := i + 1;
      }
      assert tags[..i] == tags;
      return maxId + 1;
    }

    /** `addTag(data)`. */
    method AddTag(data: TagInput)
      modifies this
      ensures tags == AddTagStep(old(tags), data).state
      ensures channel == EmitAll(old(channel), AddTagStep(old(tags), data).notices)
    {
      var text := Trim(data.labelText);
      if |text| == 0 {
        channel := Emit(channel, Banner(LabelRequired));
        return;
      }
      if LabelTaken(tags, text) {
        channel := Emit(channel, Banner(LabelExists));
        return;
      }
      var id := NextId();
      tags := tags + [Tag(Some(id), text)];
      channel := EmitAll(channel, [Banner(TagAdded), Changed]);
    }

    /** `deleteTag(id)`. */
    method DeleteTag(id: Option<int>)
      modifies this
      ensures tags == DeleteTagStep(old(tags), id).state
      ensures channel == EmitAll(old(channel), DeleteTagStep(old(tags), id).notices)
    {
      if id.None? {
        return;
      }
      var before := |tags|;
      tags := RemoveKey(tags, IdOf, id.value);
      if |tags| == before {
        channel := Emit(channel, Banner(TagNotFound));
        return;
      }
      channel := EmitAll(channel, [Banner(TagDeleted), Changed]);
    }
  }
}
