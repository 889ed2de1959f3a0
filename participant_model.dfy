/** The participant store (`ParticipantModel`): the participants and the
    store's listener registry. */
module ParticipantStore {
  import opened Basics
  import opened Text
  import opened Records
  import opened Notify

  /** A stored participant; `id` is `None` for an id that is not numeric. */
  datatype Participant = Participant(id: Option<int>, name: string, email: string)

  /** The data handed to `addParticipant`; a missing field is "". */
  datatype ParticipantInput = ParticipantInput(name: string, email: string)

  const FieldsRequired: string := "Name und E-Mail sind Pflichtfelder."
  const EmailExists: string := "Diese E-Mail-Adresse ist bereits vorhanden."
  const ParticipantAdded: string := "Teilnehmer*in hinzugefügt."
  const ParticipantNotFound: string := "Teilnehmer*in nicht gefunden."
  const ParticipantDeleted: string := "Teilnehmer*in gelöscht."
  const LoadFailedText: string := "Fehler beim Laden der Teilnehmer."

  function IdOf(p: Participant): Option<int>
  {
    p.id
  }

  /** The e-mail address as the duplicate check compares it. */
  function EmailKey(p: Participant): string
  {
    Lower(p.email)
  }

  /** Some stored participant has `email`, ignoring case. */
  predicate EmailTaken(ps: seq<Participant>, email: string)
  {
    exists i :: 0 <= i < |ps| && SameIgnoringCase(ps[i].email, email)
  }

  /** `addParticipant(data)`: both fields are trimmed and required, the
      e-mail address must be new ignoring case, and the participant gets the
      next id. */
  function AddParticipantStep(ps: seq<Participant>, data: ParticipantInput): (r: Step<seq<Participant>>)
    ensures |ps| <= |r.state| <= |ps| + 1
    ensures r.state[..|ps|] == ps
    ensures |r.notices| > 0 && r.notices[0].Banner?
  {
    var name := Trim(data.name);
    var email := Trim(data.email);
    if |name| == 0 || |email| == 0 then Step(ps, [Banner(FieldsRequired)])
    else if EmailTaken(ps, email) then Step(ps, [Banner(EmailExists)])
    else Step(ps + [Participant(Some(NextKey(ps, IdOf)), name, email)], [Banner(ParticipantAdded), Changed])
  }

  /** A blank name or e-mail address is refused before anything else is
      looked at. */
  lemma AddParticipantRejectsBlank(ps: seq<Participant>, data: ParticipantInput)
    requires AllWhitespace(data.name) || AllWhitespace(data.email)
    ensures AddParticipantStep(ps, data) == Step(ps, [Banner(FieldsRequired)])
  {
    TrimBlank(data.name);
    TrimBlank(data.email);
  }

  /** A stored address that differs from the trimmed input only in case is
      a duplicate. */
  lemma AddParticipantRejectsDuplicate(ps: seq<Participant>, data: ParticipantInput, i: nat)
    requires !AllWhitespace(data.name) && !AllWhitespace(data.email)
    requires i < |ps| && Lower(ps[i].email) == Lower(Trim(data.email))
    ensures AddParticipantStep(ps, data) == Step(ps, [Banner(EmailExists)])
  {
    TrimBlank(data.name);
    TrimBlank(data.email);
  }

  /** Otherwise exactly one participant is appended, holding the trimmed
      fields and the next id, which no participant held before; the store
      emits the success banner and then Changed, and both the ids and the
      e-mail addresses (ignoring case) stay unique. */
  lemma AddParticipantAppends(ps: seq<Participant>, data: ParticipantInput)
    requires !AllWhitespace(data.name) && !AllWhitespace(data.email)
    requires forall i :: 0 <= i < |ps| ==> Lower(ps[i].email) != Lower(Trim(data.email))
    ensures var r := AddParticipantStep(ps, data);
            var id := NextKey(ps, IdOf);
            && r.state == ps + [Participant(Some(id), Trim(data.name), Trim(data.email))]
            && (forall i :: 0 <= i < |ps| ==> ps[i].id != Some(id))
            && r.notices == [Banner(ParticipantAdded), Changed]
            && (UniqueKeys(ps, IdOf) ==> UniqueKeys(r.state, IdOf))
            && (UniqueBy(ps, EmailKey) ==> UniqueBy(r.state, EmailKey))
  {
    TrimBlank(data.name);
    TrimBlank(data.email);
    var p := Participant(Some(NextKey(ps, IdOf)), Trim(data.name), Trim(data.email));
    if UniqueKeys(ps, IdOf) {
      UniqueKeysAppendNext(ps, IdOf, p);
    }
    if UniqueBy(ps, EmailKey) {
      UniqueByAppend(ps, EmailKey, p);
    }
  }

  /** Once an address is stored, adding it again in any case is refused:
      the second of two adds with the same address changes nothing. */
  lemma AddParticipantTwice(ps: seq<Participant>, first: ParticipantInput, second: ParticipantInput)
    requires |AddParticipantStep(ps, first).state| > |ps|
    requires !AllWhitespace(second.name)
    requires Lower(Trim(second.email)) == Lower(Trim(first.email))
    ensures var ps1 := AddParticipantStep(ps, first).state;
            AddParticipantStep(ps1, second) == Step(ps1, [Banner(EmailExists)])
  {
    TrimBlank(second.name);
    var ps1 := AddParticipantStep(ps, first).state;
    assert ps1[|ps|].email == Trim(first.email);
    assert |Lower(Trim(second.email))| == |Trim(second.email)|;
  }

  /** `deleteParticipant(id)`. */
  function DeleteParticipantStep(ps: seq<Participant>, id: Option<int>): (r: Step<seq<Participant>>)
    ensures |r.state| <= |ps|
    ensures r.notices == [] <==> id.None?
  {
    if id.None? then Step(ps, [])
    else
      var rest := RemoveKey(ps, IdOf, id.value);
      if |rest| == |ps| then Step(rest, [Banner(ParticipantNotFound)])
      else Step(rest, [Banner(ParticipantDeleted), Changed])
  }

  /** A non-numeric id changes nothing and emits nothing; an id no
      participant has changes nothing and emits the not-found banner. */
  lemma DeleteParticipantMissing(ps: seq<Participant>, id: Option<int>)
    requires id.None? || FirstIndex(ps, IdOf, id.value).None?
    ensures DeleteParticipantStep(ps, id) == Step(ps, if id.None? then [] else [Banner(ParticipantNotFound)])
  {
    if id.Some? {
      RemoveKeyMissing(ps, IdOf, id.value);
    }
  }

  /** Otherwise every participant with the id goes, the rest keep their
      order, the store emits the success banner and then Changed, and ids
      and addresses stay unique. */
  lemma DeleteParticipantRemoves(ps: seq<Participant>, id: int)
    requires FirstIndex(ps, IdOf, id).Some?
    ensures var r := DeleteParticipantStep(ps, Some(id));
            && IsSubsequence(r.state, ps)
            && (forall p :: p in r.state <==> p in ps && p.id != Some(id))
            && (forall p: Participant :: p.id != Some(id) ==> multiset(r.state)[p] == multiset(ps)[p])
            && |r.state| < |ps|
            && r.notices == [Banner(ParticipantDeleted), Changed]
            && (UniqueKeys(ps, IdOf) ==> UniqueKeys(r.state, IdOf))
            && (UniqueBy(ps, EmailKey) ==> UniqueBy(r.state, EmailKey))
  {
    RemoveKeyKeeps(ps, IdOf, id);
    RemoveKeyMissing(ps, IdOf, id);
    if UniqueKeys(ps, IdOf) {
      UniqueKeysRemove(ps, IdOf, id);
    }
    if UniqueBy(ps, EmailKey) {
      UniqueByRemove(ps, IdOf, id, EmailKey);
    }
  }

  class ParticipantModel {
    var participants: seq<Participant>
    var channel: Channel

    /** `new ParticipantModel()`. */
    constructor ()
      ensures participants == [] && channel == Empty
    {
      participants := [];
      channel := Empty;
    }

    /** `addListener(type, fn)`: `outcome` says whether `fn` was
      registered, the kind was ignored, or the call threw a TypeError. */
    method AddListener(kind: string, fn: ListenerId) returns (outcome: Registration)
      modifies this
      ensures participants == old(participants)
      ensures channel == Notify.AddListener(old(channel), kind, fn)
      ensures outcome == Registered <==> kind in Kinds
      ensures outcome == TypeError <==> kind in InheritedKeys
    {
      outcome := RegistrationOf(kind);
      channel := Notify.AddListener(channel, kind, fn);
    }

    /** The success branch of `load()`, given the parsed data (`None` when it
      is not an array). */
    method LoadSucceeded(data: Option<seq<Participant>>)
      modifies this
      ensures participants == (if data.Some? then data.value else [])
      ensures channel == EmitAll(old(channel), [Loaded, Changed])
    {
      participants := if data.Some? then data.value else [];
      channel := EmitAll(channel, [Loaded, Changed]);
    }

    /** The failure branch of `load()`. */
    method LoadFailed()
      modifies this
      ensures participants == old(participants)
      ensures channel == Emit(old(channel), Banner(LoadFailedText))
    {
      channel := Emit(channel, Banner(LoadFailedText));
    }

    /** `getAll()`: a copy the caller may change without touching the store. */
    method GetAll() returns (copy: array<Participant>)
      ensures fresh(copy) && copy[..] == participants
    {
      var ps := participants;
      copy := new Participant[|ps|](i requires 0 <= i < |ps| => ps[i]);
    }

    /** `getById(id)`: the first participant with the id, or none. */
    method GetById(id: Option<int>) returns (r: Option<Participant>)
      ensures r.Some? ==>
        exists i :: 0 <= i < |participants| && participants[i] == r.value && r.value.id == id && forall j :: 0 <= j < i ==> participants[j].id != id
      ensures r.None? <==> id.None? || forall i :: 0 <= i < |participants| ==> participants[i].id != id
      ensures id.Some? ==> r == FindKey(participants, IdOf, id.value)
    {
      if id.None? {
        return None;
      }
      var i := 0;
      while i < |participants|
        invariant 0 <= i <= |participants|
        invariant forall j :: 0 <= j < i ==> participants[j].id != id
      {
        if participants[i].id == id {
          return Some(participants[i]);
        }
        i := i + 1;
      }
      return None;
    }

    /** `_nextId()`. */
    method NextId() returns (r: int)
      ensures r == NextKey(participants, IdOf)
    {
      var maxId := 0;
      var i := 0;
      while i < |participants|
        invariant 0 <= i <= |participants|
        invariant maxId == MaxKey(participants[..i], IdOf)
      {
        assert participants[..i + 1][..i] == participants[..i];
        var id := participants[i].id;
        if id.Some? && id.value > maxId {
          maxId := id.value;
        }
        i := i + 1;
      }
      assert participants[..i] == participants;
      return maxId + 1;
    }

    /** `addParticipant(data)`. */
    method AddParticipant(data: ParticipantInput)
      modifies this
      ensures participants == AddParticipantStep(old(participants), data).state
      ensures channel == EmitAll(old(channel), AddParticipantStep(old(participants), data).notices)
    {
      var name := Trim(data.name);
      var email := Trim(data.email);
      if |name| == 0 || |email| == 0 {
        channel := Emit(channel, Banner(FieldsRequired));
        return;
      }
      if EmailTaken(participants, email) {
        channel := Emit(channel, Banner(EmailExists));
        return;
      }
      var id := NextId();
      participants := participants + [Participant(Some(id), name, email)];
      channel := EmitAll(channel, [Banner(ParticipantAdded), Changed]);
    }

    /** `deleteParticipant(id)`. */
    method DeleteParticipant(id: Option<int>)
      modifies this
      ensures participants == DeleteParticipantStep(old(participants), id).state
      ensures channel == EmitAll(old(channel), DeleteParticipantStep(old(participants), id).notices)
    {
      if id.None? {
        return;
      }
      var before := |participants|;
      participants := RemoveKey(participants, IdOf, id.value);
      if |participants| == before {
        channel := Emit(channel, Banner(ParticipantNotFound));
        return;
      }
      channel := EmitAll(channel, [Banner(ParticipantDeleted), Changed]);
    }
  }
}
