/** The event store (`EventModel`): the events, the selected event id, the
    filter state, and the store's listener registry. */
module EventStore {
  import opened Basics
  import opened Text
  import opened Records
  import opened Notify
  import opened FilterState

  /** A stored event. `id` is `None` for an id that is not numeric (which
      loaded data may hold); the id lists hold numbers only. */
  datatype Event = Event(
    id: Option<int>,
    title: string,
    dateTime: string,
    location: string,
    description: string,
    status: string,
    tagIds: seq<int>,
    participantIds: seq<int>)

  /** The data handed to `addEvent` / `updateEvent`. Each id is given as
      `Number` reads it; an id list is `None` when it is missing or not an
      array. A missing string field is "". */
  datatype EventInput = EventInput(
    id: Option<int>,
    title: string,
    dateTime: string,
    location: string,
    description: string,
    status: string,
    tagIds: Option<seq<Option<int>>>,
    participantIds: Option<seq<Option<int>>>)

  /** The part of the store the CRUD operations change. */
  datatype EventState = EventState(events: seq<Event>, selected: Option<int>)

  const TitleRequired: string := "Titel ist ein Pflichtfeld."
  const EventCreated: string := "Event erstellt."
  const EventSaved: string := "Event gespeichert."
  const EventNotFound: string := "Event nicht gefunden."
  const EventDeleted: string := "Event wurde gelöscht."
  const LoadFailedText: string := "Fehler beim Laden der Events."

  function IdOf(e: Event): Option<int>
  {
    e.id
  }

  // ---------------------------------------------------------------------
  // _normalize
  // ---------------------------------------------------------------------

  predicate IsNumber(x: Option<int>)
  {
    x.Some?
  }

  function Wrapped(ns: seq<int>): seq<Option<int>>
  {
    seq(|ns|, i requires 0 <= i < |ns| => Some(ns[i]))
  }

  lemma WrappedAppend(a: seq<int>, b: seq<int>)
    ensures Wrapped(a + b) == Wrapped(a) + Wrapped(b)
  {
  }

  /** `xs.map(Number).filter(x => !isNaN(x))` on already converted entries. */
  function Numbers(xs: seq<Option<int>>): seq<int>
    decreases |xs|
  {
    if |xs| == 0 then []
    else (if xs[0].Some? then [xs[0].value] else []) + Numbers(xs[1..])
  }

  /** The numbers of `xs` are exactly its numeric entries, in order: the
      same as filtering out the entries that are not numbers. */
  lemma {:induction false} NumbersIsKeep(xs: seq<Option<int>>)
    ensures Wrapped(Numbers(xs)) == Keep(xs, IsNumber)
    decreases |xs|
  {
    if |xs| > 0 {
      var h := if xs[0].Some? then [xs[0].value] else [];
      NumbersIsKeep(xs[1..]);
      WrappedAppend(h, Numbers(xs[1..]));
      assert Wrapped(h) == if IsNumber(xs[0]) then [xs[0]] else [];
    }
  }

  /** A missing or non-array id list becomes []. */
  function NumberList(xs: Option<seq<Option<int>>>): seq<int>
  {
    if xs.Some? then Numbers(xs.value) else []
  }

  /** `_normalize(data)`. */
  function Normalize(data: EventInput): (r: Event)
    ensures r.id.None? || (r.id == data.id && data.id.value != 0)
    ensures data.tagIds.None? ==> r.tagIds == []
    ensures data.participantIds.None? ==> r.participantIds == []
    ensures |r.title| <= |data.title| && IsTrimmed(r.title)
  {
    Event(
      if IsTruthyId(data.id) then data.id else None,
      Trim(data.title),
      Trim(data.dateTime),
      Trim(data.location),
      Trim(data.description),
      Trim(data.status),
      NumberList(data.tagIds),
      NumberList(data.participantIds))
  }

  /** Normalising leaves no string field with whitespace at either end. */
  lemma NormalizeTrims(data: EventInput)
    ensures var ev := Normalize(data);
            && IsTrimmed(ev.title) && IsTrimmed(ev.dateTime) && IsTrimmed(ev.location)
            && IsTrimmed(ev.description) && IsTrimmed(ev.status)
  {
    TrimSlice(data.title);
    TrimSlice(data.dateTime);
    TrimSlice(data.location);
    TrimSlice(data.description);
    TrimSlice(data.status);
  }

  /** The input an event gives when it is handed back to the store as it is. */
  function AsInput(ev: Event): EventInput
  {
    EventInput(ev.id, ev.title, ev.dateTime, ev.location, ev.description, ev.status,
               Some(Wrapped(ev.tagIds)), Some(Wrapped(ev.participantIds)))
  }

  /** Each id list keeps, in order, exactly the entries that are numbers. */
  lemma NumbersKeepsNumbers(xs: seq<Option<int>>)
    ensures IsSubsequence(Wrapped(Numbers(xs)), xs)
    ensures forall n :: n in Numbers(xs) <==> Some(n) in xs
  {
    NumbersIsKeep(xs);
    KeepIsSubsequence(xs, IsNumber);
    var r := Numbers(xs);
    forall n ensures n in r <==> Some(n) in xs {
      if n in r {
        var i :| 0 <= i < |r| && r[i] == n;
        assert Wrapped(r)[i] == Some(n);
      }
      if Some(n) in xs {
        assert Some(n) in Wrapped(r);
      }
    }
  }

  lemma NumbersOfWrapped(ns: seq<int>)
    ensures Numbers(Wrapped(ns)) == ns
  {
    var w := Wrapped(ns);
    KeepAll(w, IsNumber);
    NumbersIsKeep(w);
    var r := Numbers(w);
    assert Wrapped(r) == w;
    assert |r| == |ns|;
    forall i | 0 <= i < |r| ensures r[i] == ns[i] {
      assert Wrapped(r)[i] == w[i];
    }
  }

  /** Normalising is idempotent: an already normalised event handed back to
      the store as it is normalises to itself. */
  lemma NormalizeIdempotent(data: EventInput)
    ensures Normalize(AsInput(Normalize(data))) == Normalize(data)
  {
    var ev := Normalize(data);
    TrimIdempotent(data.title);
    TrimIdempotent(data.dateTime);
    TrimIdempotent(data.location);
    TrimIdempotent(data.description);
    TrimIdempotent(data.status);
    NumbersOfWrapped(ev.tagIds);
    NumbersOfWrapped(ev.participantIds);
  }

  // ---------------------------------------------------------------------
  // getFilteredEvents
  // ---------------------------------------------------------------------

  /** The active criteria, as `getFilteredEvents` reads them: the trimmed
      status ("" = off), and per id filter `None` when it is off, or the
      `Number` of its trimmed text. */
  datatype Criteria = Criteria(status: string, participant: Option<Option<int>>, tag: Option<Option<int>>)

  function IdCriterion(text: string): Option<Option<int>>
  {
    var t := Trim(text);
    if |t| > 0 then Some(ParseInt(t)) else None
  }

  function CriteriaOf(f: Values): Criteria
  {
    Criteria(Trim(f.status), IdCriterion(f.participantId), IdCriterion(f.tagId))
  }

  function StatusIs(status: string): Event -> bool
  {
    (ev: Event) => ev.status == status
  }

  function HasParticipant(pid: Option<int>): Event -> bool
  {
    (ev: Event) => pid.Some? && pid.value in ev.participantIds
  }

  function HasTag(tid: Option<int>): Event -> bool
  {
    (ev: Event) => tid.Some? && tid.value in ev.tagIds
  }

  /** The filtered list: the status pass, then the participant pass, then
      the tag pass, each only when its criterion is on. */
  function FilterEvents(events: seq<Event>, c: Criteria): (r: seq<Event>)
    ensures |r| <= |events|
    ensures c == Criteria([], None, None) ==> r == events
  {
    var byStatus := if |c.status| > 0 then Keep(events, StatusIs(c.status)) else events;
    var byParticipant := if c.participant.Some? then Keep(byStatus, HasParticipant(c.participant.value)) else byStatus;
    if c.tag.Some? then Keep(byParticipant, HasTag(c.tag.value)) else byParticipant
  }

  /** A criterion that is on and is a number is contained in the ids; one
      that is not a number matches nothing. */
  predicate MatchesId(ids: seq<int>, c: Option<Option<int>>)
  {
    c.None? || (c.value.Some? && c.value.value in ids)
  }

  /** An event passes every active criterion. */
  predicate Matches(ev: Event, c: Criteria)
  {
    (|c.status| == 0 || ev.status == c.status) && MatchesId(ev.participantIds, c.participant) && MatchesId(ev.tagIds, c.tag)
  }

  function MatchesOf(c: Criteria): Event -> bool
  {
    (ev: Event) => Matches(ev, c)
  }

  /** The condition each pass puts on an event, as a pass that is always
      on: an inactive criterion lets every event through. */
  function StatusOk(c: Criteria): Event -> bool
  {
    (ev: Event) => |c.status| == 0 || ev.status == c.status
  }

  function ParticipantOk(c: Criteria): Event -> bool
  {
    (ev: Event) => MatchesId(ev.participantIds, c.participant)
  }

  function TagOk(c: Criteria): Event -> bool
  {
    (ev: Event) => MatchesId(ev.tagIds, c.tag)
  }

  function StatusAndParticipantOk(c: Criteria): Event -> bool
  {
    (ev: Event) => StatusOk(c)(ev) && ParticipantOk(c)(ev)
  }

  lemma StatusPass(xs: seq<Event>, c: Criteria)
    ensures (if |c.status| > 0 then Keep(xs, StatusIs(c.status)) else xs) == Keep(xs, StatusOk(c))
  {
    if |c.status| > 0 {
      KeepSame(xs, StatusIs(c.status), StatusOk(c));
    } else {
      KeepAll(xs, StatusOk(c));
    }
  }

  lemma ParticipantPass(xs: seq<Event>, c: Criteria)
    ensures (if c.participant.Some? then Keep(xs, HasParticipant(c.participant.value)) else xs) == Keep(xs, ParticipantOk(c))
  {
    if c.participant.Some? {
      KeepSame(xs, HasParticipant(c.participant.value), ParticipantOk(c));
    } else {
      KeepAll(xs, ParticipantOk(c));
    }
  }

  lemma TagPass(xs: seq<Event>, c: Criteria)
    ensures (if c.tag.Some? then Keep(xs, HasTag(c.tag.value)) else xs) == Keep(xs, TagOk(c))
  {
    if c.tag.Some? {
      KeepSame(xs, HasTag(c.tag.value), TagOk(c));
    } else {
      KeepAll(xs, TagOk(c));
    }
  }

  /** The three passes together filter by `Matches`. */
  lemma FilterEventsIsKeep(events: seq<Event>, c: Criteria)
    ensures FilterEvents(events, c) == Keep(events, MatchesOf(c))
  {
    StatusPass(events, c);
    var s1 := Keep(events, StatusOk(c));
    ParticipantPass(s1, c);
    var s2 := Keep(s1, ParticipantOk(c));
    TagPass(s2, c);
    KeepKeep(events, StatusOk(c), ParticipantOk(c), StatusAndParticipantOk(c));
    KeepKeep(events, StatusAndParticipantOk(c), TagOk(c), MatchesOf(c));
  }

  /** The filtered list is an order-preserving subsequence of the events
      that holds every matching event, as often as it occurs, and nothing
      else. */
  lemma FilterEventsMeaning(events: seq<Event>, c: Criteria)
    ensures IsSubsequence(FilterEvents(events, c), events)
    ensures forall ev :: ev in FilterEvents(events, c) <==> ev in events && Matches(ev, c)
    ensures forall ev :: multiset(FilterEvents(events, c))[ev] == if Matches(ev, c) then multiset(events)[ev] else 0
  {
    FilterEventsIsKeep(events, c);
    KeepIsSubsequence(events, MatchesOf(c));
    KeepMembers(events, MatchesOf(c));
    forall ev ensures multiset(FilterEvents(events, c))[ev] == if Matches(ev, c) then multiset(events)[ev] else 0 {
      KeepCounts(events, MatchesOf(c), ev);
    }
  }

  /** `getSelectedEvent()`: the first event that carries the selected id;
      there is none exactly when nothing is selected or no event carries it. */
  function SelectedEvent(s: EventState): (r: Option<Event>)
    ensures r.Some? ==>
      exists i :: 0 <= i < |s.events| && s.events[i] == r.value && s.events[i].id == s.selected
                  && forall j :: 0 <= j < i ==> s.events[j].id != s.selected
    ensures r.None? <==> s.selected.None? || forall i :: 0 <= i < |s.events| ==> s.events[i].id != s.selected
  {
    if s.selected.None? then None else FindKey(s.events, IdOf, s.selected.value)
  }

  predicate ListHasId(list: seq<Event>, id: Option<int>)
  {
    exists i :: 0 <= i < |list| && list[i].id == id
  }

  /** The selection after `getFilteredEvents` produced `list`: kept when the
      list is empty or still shows the selected event, otherwise the id of
      the first listed event. */
  function Reconcile(s: EventState, list: seq<Event>): (r: Option<int>)
    ensures r == s.selected || (|list| > 0 && r == list[0].id)
    ensures |list| == 0 ==> r == s.selected
  {
    if |list| == 0 then s.selected
    else
      var sel := SelectedEvent(s);
      if sel.Some? && ListHasId(list, sel.value.id) then s.selected else list[0].id
  }

  /** For a list drawn from the store, the selection moves to the first
      listed event exactly when the list is not empty and shows no event with
      the selected id. */
  lemma ReconcileMeaning(s: EventState, list: seq<Event>)
    requires forall ev :: ev in list ==> ev in s.events
    ensures Reconcile(s, list) ==
      if |list| > 0 && !(s.selected.Some? && ListHasId(list, s.selected)) then list[0].id else s.selected
  {
    if s.selected.Some? && SelectedEvent(s).None? {
      forall i | 0 <= i < |list| ensures list[i].id != s.selected {
        assert list[i] in s.events;
      }
    }
  }

  /** Reconciling a second time with the same list moves nothing. */
  lemma ReconcileStable(s: EventState, list: seq<Event>)
    requires forall ev :: ev in list ==> ev in s.events
    ensures Reconcile(s.(selected := Reconcile(s, list)), list) == Reconcile(s, list)
  {
    ReconcileMeaning(s, list);
    ReconcileMeaning(s.(selected := Reconcile(s, list)), list);
    if |list| > 0 {
      assert ListHasId(list, list[0].id);
    }
  }

  /** A second `getFilteredEvents` with nothing changed in between returns
      the same list and leaves the selection where the first one put it. */
  lemma FilteredTwice(s: EventState, f: Values)
    ensures var list := FilterEvents(s.events, CriteriaOf(f));
            var s1 := s.(selected := Reconcile(s, list));
            FilterEvents(s1.events, CriteriaOf(f)) == list && Reconcile(s1, list) == s1.selected
  {
    var list := FilterEvents(s.events, CriteriaOf(f));
    FilterEventsMeaning(s.events, CriteriaOf(f));
    ReconcileStable(s, list);
  }

  // ---------------------------------------------------------------------
  // addEvent, updateEvent, deleteEvent
  // ---------------------------------------------------------------------

  /** `addEvent(data)`. */
  function AddEventStep(s: EventState, data: EventInput): (r: Step<EventState>)
    ensures |s.events| <= |r.state.events| <= |s.events| + 1
    ensures r.state.events[..|s.events|] == s.events
    ensures |r.notices| > 0 && r.notices[0].Banner?
  {
    var ev := Normalize(data);
    if |ev.title| == 0 then Step(s, [Banner(TitleRequired)])
    else
      var id := NextKey(s.events, IdOf);
      Step(EventState(s.events + [ev.(id := Some(id))], Some(id)), [Banner(EventCreated), Changed])
  }

  /** A title that is blank after trimming is refused with a banner, and
      nothing changes. */
  lemma AddEventRejectsBlankTitle(s: EventState, data: EventInput)
    requires AllWhitespace(data.title)
    ensures AddEventStep(s, data) == Step(s, [Banner(TitleRequired)])
  {
    TrimBlank(data.title);
  }

  /** Otherwise exactly one event is appended: the normalised input with the
      next id, which no event held before; the earlier events stay as they
      were, the new event is selected, and the store emits the success banner
      and then Changed. Unique ids stay unique. */
  lemma AddEventAppends(s: EventState, data: EventInput)
    requires !AllWhitespace(data.title)
    ensures var r := AddEventStep(s, data);
            var id := NextKey(s.events, IdOf);
            && |r.state.events| == |s.events| + 1
            && r.state.events[..|s.events|] == s.events
            && r.state.events[|s.events|] == Normalize(data).(id := Some(id))
            && (forall i :: 0 <= i < |s.events| ==> s.events[i].id != Some(id))
            && r.state.selected == Some(id)
            && r.notices == [Banner(EventCreated), Changed]
            && (UniqueKeys(s.events, IdOf) ==> UniqueKeys(r.state.events, IdOf))
  {
    TrimBlank(data.title);
    var id := NextKey(s.events, IdOf);
    if UniqueKeys(s.events, IdOf) {
      UniqueKeysAppendNext(s.events, IdOf, Normalize(data).(id := Some(id)));
    }
    assert (s.events + [Normalize(data).(id := Some(id))])[..|s.events|] == s.events;
  }

  /** `updateEvent(data)`. */
  function UpdateEventStep(s: EventState, data: EventInput): (r: Step<EventState>)
    ensures |r.state.events| == |s.events| && r.state.selected == s.selected
    ensures r.notices == [] <==> data.id.None?
  {
    if data.id.None? then Step(s, [])
    else
      var ev := Normalize(data).(id := data.id);
      match FirstIndex(s.events, IdOf, data.id.value)
      case Some(i) => Step(s.(events := s.events[i := ev]), [Banner(EventSaved), Changed])
      case None => Step(s, [Banner(EventNotFound)])
  }

  /** A non-numeric id changes nothing and emits nothing. When an event has
      the id, the first such event is replaced wholesale by the normalised
      input carrying that id, every other position and the selection stay,
      and ids stay unique; otherwise only the not-found banner is emitted. */
  lemma UpdateEventCases(s: EventState, data: EventInput)
    ensures data.id.None? ==> UpdateEventStep(s, data) == Step(s, [])
    ensures data.id.Some? && FirstIndex(s.events, IdOf, data.id.value).None? ==>
              UpdateEventStep(s, data) == Step(s, [Banner(EventNotFound)])
    ensures data.id.Some? && FirstIndex(s.events, IdOf, data.id.value).Some? ==>
              var i := FirstIndex(s.events, IdOf, data.id.value).value;
              var r := UpdateEventStep(s, data);
              && |r.state.events| == |s.events|
              && r.state.events[i] == Normalize(data).(id := data.id)
              && (forall j :: 0 <= j < |s.events| && j != i ==> r.state.events[j] == s.events[j])
              && r.state.selected == s.selected
              && r.notices == [Banner(EventSaved), Changed]
              && (UniqueKeys(s.events, IdOf) ==> UniqueKeys(r.state.events, IdOf))
  {
    if data.id.Some? && FirstIndex(s.events, IdOf, data.id.value).Some? {
      var i := FirstIndex(s.events, IdOf, data.id.value).value;
      if UniqueKeys(s.events, IdOf) {
        UniqueKeysReplace(s.events, IdOf, i, Normalize(data).(id := data.id));
      }
    }
  }

  /** `deleteEvent(id)`. */
  function DeleteEventStep(s: EventState, id: Option<int>): (r: Step<EventState>)
    ensures |r.state.events| <= |s.events|
    ensures r.notices == [] <==> id.None?
  {
    if id.None? then Step(s, [])
    else
      var rest := RemoveKey(s.events, IdOf, id.value);
      if |rest| == |s.events| then Step(s.(events := rest), [Banner(EventNotFound)])
      else Step(EventState(rest, if |rest| > 0 then rest[0].id else None), [Banner(EventDeleted), Changed])
  }

  /** A non-numeric id changes nothing and emits nothing. When no event has
      the id, the events and the selection are unchanged and only the
      not-found banner is emitted. */
  lemma DeleteEventMissing(s: EventState, id: Option<int>)
    requires id.None? || FirstIndex(s.events, IdOf, id.value).None?
    ensures DeleteEventStep(s, id) == Step(s, if id.None? then [] else [Banner(EventNotFound)])
  {
    if id.Some? {
      RemoveKeyMissing(s.events, IdOf, id.value);
    }
  }

  /** Otherwise every event with the id goes, the rest keep their order, the
      selection moves to the first remaining event (or none), the store
      emits the success banner and then Changed, and ids stay unique. */
  lemma DeleteEventRemoves(s: EventState, id: int)
    requires FirstIndex(s.events, IdOf, id).Some?
    ensures var r := DeleteEventStep(s, Some(id));
            && IsSubsequence(r.state.events, s.events)
            && (forall ev :: ev in r.state.events <==> ev in s.events && ev.id != Some(id))
            && (forall ev: Event :: ev.id != Some(id) ==> multiset(r.state.events)[ev] == multiset(s.events)[ev])
            && |r.state.events| < |s.events|
            && r.state.selected == (if |r.state.events| > 0 then r.state.events[0].id else None)
            && r.notices == [Banner(EventDeleted), Changed]
            && (UniqueKeys(s.events, IdOf) ==> UniqueKeys(r.state.events, IdOf))
  {
    RemoveKeyKeeps(s.events, IdOf, id);
    RemoveKeyMissing(s.events, IdOf, id);
    if UniqueKeys(s.events, IdOf) {
      UniqueKeysRemove(s.events, IdOf, id);
    }
  }

  // ---------------------------------------------------------------------
  // the store
  // ---------------------------------------------------------------------

  class EventModel {
    var events: seq<Event>
    var selectedEventId: Option<int>
    const filters: Filters
    var channel: Channel

    function State(): EventState
      reads this
    {
      EventState(events, selectedEventId)
    }

    /** `new EventModel()`. */
    constructor ()
      ensures State() == EventState([], None) && channel == Empty
      ensures fresh(filters) && filters.Current() == Cleared
    {
      events := [];
      selectedEventId := None;
      filters := new Filters();
      channel := Empty;
    }

    /** `addListener(type, fn)`: `outcome` says whether `fn` was
      registered, the kind was ignored, or the call threw a TypeError. */
    method AddListener(kind: string, fn: ListenerId) returns (outcome: Registration)
      modifies this
      ensures State() == old(State())
      ensures channel == Notify.AddListener(old(channel), kind, fn)
      ensures outcome == Registered <==> kind in Kinds
      ensures outcome == TypeError <==> kind in InheritedKeys
    {
      outcome := RegistrationOf(kind);
      channel := Notify.AddListener(channel, kind, fn);
    }

    /** The success branch of `load()`, given the parsed data (`None` when it
      is not an array). */
    method LoadSucceeded(data: Option<seq<Event>>)
      modifies this
      ensures events == (if data.Some? then data.value else [])
      ensures selectedEventId == (if |events| > 0 then events[0].id else None)
      ensures channel == EmitAll(old(channel), [Loaded, Changed])
    {
      events := if data.Some? then data.value else [];
      selectedEventId := if |events| > 0 then events[0].id else None;
      channel := EmitAll(channel, [Loaded, Changed]);
    }

    /** The failure branch of `load()`: the events stay and a banner is
      emitted. */
    method LoadFailed()
      modifies this
      ensures State() == old(State())
      ensures channel == Emit(old(channel), Banner(LoadFailedText))
    {
      channel := Emit(channel, Banner(LoadFailedText));
    }

    /** `setFilters(newFilters)`. */
    method SetFilters(data: Option<Patch>)
      modifies this, filters
      ensures State() == old(State())
      ensures filters.Current() == Patched(old(filters.Current()), data)
      ensures channel == Emit(old(channel), Changed)
    {
      filters.Set(data);
      channel := Emit(channel, Changed);
    }

    /** `selectEvent(id)`: a non-numeric id is ignored; any number is taken,
      whether or not an event has it. */
    method SelectEvent(id: Option<int>)
      modifies this
      ensures events == old(events)
      ensures id.None? ==> selectedEventId == old(selectedEventId) && channel == old(channel)
      ensures id.Some? ==> selectedEventId == id && channel == Emit(old(channel), Changed)
    {
      if id.None? {
        return;
      }
      selectedEventId := id;
      channel := Emit(channel, Changed);
    }

    /** `getSelectedEvent()`. */
    method GetSelectedEvent() returns (r: Option<Event>)
      ensures r == SelectedEvent(State())
    {
      if selectedEventId.None? {
        return None;
      }
      var eid := selectedEventId.value;
      var i := 0;
      while i < |events|
        invariant 0 <= i <= |events|
        invariant forall j :: 0 <= j < i ==> events[j].id != Some(eid)
      {
        if events[i].id == Some(eid) {
          return Some(events[i]);
        }
        i := i + 1;
      }
      return None;
    }

    /** `getFilteredEvents()`: the events are not touched; the selection is
      reconciled with the result. */
    method GetFilteredEvents() returns (list: seq<Event>)
      modifies this
      ensures events == old(events) && channel == old(channel)
      ensures list == FilterEvents(events, CriteriaOf(filters.Current()))
      ensures selectedEventId == Reconcile(old(State()), list)
    {
      list := FilterEvents(events, CriteriaOf(filters.Current()));
      if |list| > 0 {
        var sel := GetSelectedEvent();
        var stillThere := sel.Some? && exists i :: 0 <= i < |list| && list[i].id == sel.value.id;
        if !stillThere {
          selectedEventId := list[0].id;
        }
      }
    }

    /** `_nextId()`. */
    method NextId() returns (r: int)
      ensures r == NextKey(events, IdOf)
    {
      var maxId := 0;
      var i := 0;
      while i < |events|
        invariant 0 <= i <= |events|
        invariant maxId == MaxKey(events[..i], IdOf)
      {
        assert events[..i + 1][..i] == events[..i];
        var id := events[i].id;
        if id.Some? && id.value > maxId {
          maxId := id.value;
        }
        i := i + 1;
      }
      assert events[..i] == events;
      return maxId + 1;
    }

    /** `addEvent(data)`. */
    method AddEvent(data: EventInput)
      modifies this
      ensures State() == AddEventStep(old(State()), data).state
      ensures channel == EmitAll(old(channel), AddEventStep(old(State()), data).notices)
    {
      var ev := Normalize(data);
      if |ev.title| == 0 {
        channel := Emit(channel, Banner(TitleRequired));
        return;
      }
      var id := NextId();
      ev := ev.(id := Some(id));
      events := events + [ev];
      selectedEventId := ev.id;
      channel := EmitAll(channel, [Banner(EventCreated), Changed]);
    }

    /** `updateEvent(data)`. */
    method UpdateEvent(data: EventInput)
      modifies this
      ensures State() == UpdateEventStep(old(State()), data).state
      ensures channel == EmitAll(old(channel), UpdateEventStep(old(State()), data).notices)
    {
      if data.id.None? {
        return;
      }
      var id := data.id.value;
      var ev := Normalize(data).(id := Some(id));
      var i := 0;
      while i < |events|
        invariant 0 <= i <= |events|
        invariant events == old(events) && channel == old(channel)
        invariant forall j :: 0 <= j < i ==> events[j].id != Some(id)
      {
        if events[i].id == Some(id) {
          events := events[i := ev];
          channel := EmitAll(channel, [Banner(EventSaved), Changed]);
          return;
        }
        i := i + 1;
      }
      channel := Emit(channel, Banner(EventNotFound));
    }

    /** `deleteEvent(id)`. */
    method DeleteEvent(id: Option<int>)
      modifies this
      ensures State() == DeleteEventStep(old(State()), id).state
      ensures channel == EmitAll(old(channel), DeleteEventStep(old(State()), id).notices)
    {
      if id.None? {
        return;
      }
      var before := |events|;
      events := RemoveKey(events, IdOf, id.value);
      if |events| == before {
        channel := Emit(channel, Banner(EventNotFound));
        return;
      }
      selectedEventId := if |events| > 0 then events[0].id else None;
      channel := EmitAll(channel, [Banner(EventDeleted), Changed]);
    }
  }
}
