/** The controller's state and callback logic: the active page, the event
    being edited, the banner text, and what each view callback does to them
    and to the stores. Rendering is not modelled; the render listener is
    only registered. */
module Control {
  import opened Basics
  import opened Notify
  import opened Records
  import E = EventStore
  import P = ParticipantStore
  import T = TagStore

  /** The four pages of the navigation. */
  datatype Page = EventsPage | NewEventPage | ParticipantsPage | TagsPage

  /** The controller's two listeners: re-rendering (for Loaded and Changed)
      and the banner listener, which stores the text and re-renders. */
  const RenderListener: ListenerId := 0
  const BannerListener: ListenerId := 1

  const ParticipantInUse: string := "Dieser Teilnehmer kann nicht gelöscht werden,\nweil er in einem Event verwendet wird."
  const TagInUse: string := "Dieser Tag kann nicht gelöscht werden,\nweil er in einem Event verwendet wird."

  /** `_wire(model)`: render on Loaded and Changed, banner listener on
      Banner, registered in that order. */
  function Wired(ch: Channel): (r: Channel)
    ensures r.loaded == ch.loaded + [RenderListener]
    ensures r.changed == ch.changed + [RenderListener]
    ensures r.banner == ch.banner + [BannerListener]
    ensures r.emitted == ch.emitted && r.calls == ch.calls
  {
    AddListener(AddListener(AddListener(ch, "loaded", RenderListener), "changed", RenderListener), "banner", BannerListener)
  }

  // ---------------------------------------------------------------------
  // the banner listener
  // ---------------------------------------------------------------------

  /** The banner text after the listener calls `calls` were made, starting
      from `current`: each call of the banner listener with a banner sets
      the text. */
  function LatestBanner(current: string, calls: seq<Call>): (r: string)
    ensures r == current || exists i :: 0 <= i < |calls| && calls[i] == Call(BannerListener, Banner(r))
    decreases |calls|
  {
    if |calls| == 0 then current
    else
      var next := if calls[0].listener == BannerListener && calls[0].notice.Banner? then calls[0].notice.text else current;
      LatestBanner(next, calls[1..])
  }

  /** The banner text after a store emitted `notices`: the text of the last
      banner among them, or `current` when there is none. */
  function LastBanner(current: string, notices: seq<Notice>): (r: string)
    ensures r == current || Banner(r) in notices
    ensures (forall i :: 0 <= i < |notices| ==> !notices[i].Banner?) ==> r == current
    decreases |notices|
  {
    if |notices| == 0 then current
    else LastBanner(if notices[0].Banner? then notices[0].text else current, notices[1..])
  }

  lemma {:induction false} LatestBannerAppend(current: string, a: seq<Call>, b: seq<Call>)
    ensures LatestBanner(current, a + b) == LatestBanner(LatestBanner(current, a), b)
    decreases |a|
  {
    if |a| == 0 {
      assert a + b == b;
    } else {
      assert (a + b)[0] == a[0] && (a + b)[1..] == a[1..] + b;
      var next := if a[0].listener == BannerListener && a[0].notice.Banner? then a[0].notice.text else current;
      LatestBannerAppend(next, a[1..], b);
    }
  }

  lemma {:induction false} LatestBannerDeliver(current: string, ls: seq<ListenerId>, n: Notice)
    ensures LatestBanner(current, Deliver(ls, n)) == if n.Banner? && BannerListener in ls then n.text else current
    decreases |ls|
  {
    if |ls| > 0 {
      var d := Deliver(ls, n);
      assert d[0] == Call(ls[0], n) && d[1..] == Deliver(ls[1..], n);
      var next := if ls[0] == BannerListener && n.Banner? then n.text else current;
      LatestBannerDeliver(next, ls[1..], n);
      assert BannerListener in ls <==> ls[0] == BannerListener || BannerListener in ls[1..];
    }
  }

  /** Whatever a store emits reaches the controller: once the banner
      listener is registered, the calls the emission makes leave the
      controller's banner text at the last banner emitted, and unchanged
      when none was. */
  lemma {:induction false} BannerReachesController(ch: Channel, current: string, notices: seq<Notice>)
    requires BannerListener in ch.banner
    ensures LatestBanner(current, EmitAll(ch, notices).calls[|ch.calls|..]) == LastBanner(current, notices)
    decreases |notices|
  {
    if |notices| == 0 {
      assert EmitAll(ch, notices).calls[|ch.calls|..] == [];
    } else {
      var n := notices[0];
      var ch1 := Emit(ch, n);
      EmitAllNewCalls(ch, notices);
      LatestBannerAppend(current, Deliver(ListenersFor(ch, n), n), EmitAll(ch1, notices[1..]).calls[|ch1.calls|..]);
      LatestBannerDeliver(current, ListenersFor(ch, n), n);
      BannerReachesController(ch1, if n.Banner? then n.text else current, notices[1..]);
    }
  }

  // ---------------------------------------------------------------------
  // submit routing and the "in use" guards
  // ---------------------------------------------------------------------

  /** The store operation a form submit runs: `updateEvent` for a truthy
      id, `addEvent` otherwise. */
  function SubmitStep(s: E.EventState, formData: E.EventInput): (r: Step<E.EventState>)
    ensures |r.notices| > 0 && r.notices[0].Banner?
  {
    if IsTruthyId(formData.id) then E.UpdateEventStep(s, formData) else E.AddEventStep(s, formData)
  }

  /** A submit in edit mode never creates an event and leaves the selection
      alone; a submit without an id never changes an existing event and adds
      at most one. */
  lemma SubmitRouting(s: E.EventState, formData: E.EventInput)
    ensures IsTruthyId(formData.id) ==>
              |SubmitStep(s, formData).state.events| == |s.events| && SubmitStep(s, formData).state.selected == s.selected
    ensures !IsTruthyId(formData.id) ==>
              var r := SubmitStep(s, formData).state.events;
              |s.events| <= |r| <= |s.events| + 1 && r[..|s.events|] == s.events
  {
    E.UpdateEventCases(s, formData);
    if !IsTruthyId(formData.id) {
      var r := SubmitStep(s, formData).state.events;
      if |r| != |s.events| {
        assert r == s.events + [r[|s.events|]];
      }
    }
  }

  /** `arr.map(Number).includes(pid)` for some event: a non-numeric id is
      contained in no list. */
  predicate ReferencesParticipant(events: seq<E.Event>, id: Option<int>)
  {
    id.Some? && exists i :: 0 <= i < |events| && id.value in events[i].participantIds
  }

  predicate ReferencesTag(events: seq<E.Event>, id: Option<int>)
  {
    id.Some? && exists i :: 0 <= i < |events| && id.value in events[i].tagIds
  }

  /** What a delete request from the participant or tag page ends in: the
      "in use" alert, a declined confirmation, or the store's delete. */
  datatype GuardOutcome = Blocked(message: string) | Declined | Invoked

  function ParticipantGuard(events: seq<E.Event>, id: Option<int>, confirmed: bool): (r: GuardOutcome)
    ensures r.Invoked? <==> confirmed && !ReferencesParticipant(events, id)
    ensures r.Blocked? <==> ReferencesParticipant(events, id)
    ensures r.Blocked? ==> r.message == ParticipantInUse
  {
    if ReferencesParticipant(events, id) then Blocked(ParticipantInUse)
    else if confirmed then Invoked
    else Declined
  }

  function TagGuard(events: seq<E.Event>, id: Option<int>, confirmed: bool): (r: GuardOutcome)
    ensures r.Invoked? <==> confirmed && !ReferencesTag(events, id)
    ensures r.Blocked? <==> ReferencesTag(events, id)
    ensures r.Blocked? ==> r.message == TagInUse
  {
    if ReferencesTag(events, id) then Blocked(TagInUse)
    else if confirmed then Invoked
    else Declined
  }

  /** The participants after a guarded delete request. */
  function GuardedParticipantDelete(events: seq<E.Event>, ps: seq<P.Participant>, id: Option<int>, confirmed: bool): seq<P.Participant>
  {
    if ParticipantGuard(events, id, confirmed).Invoked? then P.DeleteParticipantStep(ps, id).state else ps
  }

  /** The tags after a guarded delete request. */
  function GuardedTagDelete(events: seq<E.Event>, ts: seq<T.Tag>, id: Option<int>, confirmed: bool): seq<T.Tag>
  {
    if TagGuard(events, id, confirmed).Invoked? then T.DeleteTagStep(ts, id).state else ts
  }

  predicate ParticipantExists(ps: seq<P.Participant>, n: int)
  {
    exists p :: p in ps && p.id == Some(n)
  }

  predicate TagExists(ts: seq<T.Tag>, n: int)
  {
    exists t :: t in ts && t.id == Some(n)
  }

  /** Every participant id an event lists belongs to a stored participant. */
  predicate ParticipantRefsResolve(events: seq<E.Event>, ps: seq<P.Participant>)
  {
    forall i, n :: 0 <= i < |events| && n in events[i].participantIds ==> ParticipantExists(ps, n)
  }

  /** Every tag id an event lists belongs to a stored tag. */
  predicate TagRefsResolve(events: seq<E.Event>, ts: seq<T.Tag>)
  {
    forall i, n :: 0 <= i < |events| && n in events[i].tagIds ==> TagExists(ts, n)
  }

  /** A participant an event references is never deleted through the
      participant page, an unconfirmed request deletes nothing, and so a
      guarded delete keeps every event's participant references
      resolvable. */
  lemma ParticipantGuardProtects(events: seq<E.Event>, ps: seq<P.Participant>, id: Option<int>, confirmed: bool)
    ensures ReferencesParticipant(events, id) ==> GuardedParticipantDelete(events, ps, id, confirmed) == ps
    ensures !confirmed ==> GuardedParticipantDelete(events, ps, id, confirmed) == ps
    ensures ParticipantRefsResolve(events, ps) ==> ParticipantRefsResolve(events, GuardedParticipantDelete(events, ps, id, confirmed))
  {
    if ParticipantRefsResolve(events, ps) && ParticipantGuard(events, id, confirmed).Invoked? && id.Some? {
      var rest := GuardedParticipantDelete(events, ps, id, confirmed);
      RemoveKeyKeeps(ps, P.IdOf, id.value);
      assert rest == RemoveKey(ps, P.IdOf, id.value);
      forall i, n | 0 <= i < |events| && n in events[i].participantIds
        ensures ParticipantExists(rest, n)
      {
        assert ParticipantExists(ps, n);
        var p :| p in ps && p.id == Some(n);
        assert n != id.value;
        assert p in rest;
      }
    }
  }

  /** The same for tags and the tag page. */
  lemma TagGuardProtects(events: seq<E.Event>, ts: seq<T.Tag>, id: Option<int>, confirmed: bool)
    ensures ReferencesTag(events, id) ==> GuardedTagDelete(events, ts, id, confirmed) == ts
    ensures !confirmed ==> GuardedTagDelete(events, ts, id, confirmed) == ts
    ensures TagRefsResolve(events, ts) ==> TagRefsResolve(events, GuardedTagDelete(events, ts, id, confirmed))
  {
    if TagRefsResolve(events, ts) && TagGuard(events, id, confirmed).Invoked? && id.Some? {
      var rest := GuardedTagDelete(events, ts, id, confirmed);
      RemoveKeyKeeps(ts, T.IdOf, id.value);
      assert rest == RemoveKey(ts, T.IdOf, id.value);
      forall i, n | 0 <= i < |events| && n in events[i].tagIds
        ensures TagExists(rest, n)
      {
        assert TagExists(ts, n);
        var t :| t in ts && t.id == Some(n);
        assert n != id.value;
        assert t in rest;
      }
    }
  }

  // ---------------------------------------------------------------------
  // the controller
  // ---------------------------------------------------------------------

  class Controller {
    const eventModel: E.EventModel
    const participantModel: P.ParticipantModel
    const tagModel: T.TagModel
    var activePage: Page
    var editEvent: Option<E.Event>
    var bannerText: string

    /** All three stores call the banner listener. */
    ghost predicate Valid()
      reads this, eventModel, participantModel, tagModel
    {
      && BannerListener in eventModel.channel.banner
      && BannerListener in participantModel.channel.banner
      && BannerListener in tagModel.channel.banner
    }

    /** `new Controller(eventModel, participantModel, tagModel)`: the start
      page is the event list, nothing is edited, no banner is shown, and the
      three stores are wired. */
    constructor (em: E.EventModel, pm: P.ParticipantModel, tm: T.TagModel)
      modifies em, pm, tm
      ensures eventModel == em && participantModel == pm && tagModel == tm
      ensures activePage == EventsPage && editEvent == None && bannerText == ""
      ensures em.State() == old(em.State()) && em.channel == Wired(old(em.channel))
      ensures pm.participants == old(pm.participants) && pm.channel == Wired(old(pm.channel))
      ensures tm.tags == old(tm.tags) && tm.channel == Wired(old(tm.channel))
      ensures Valid()
    {
      eventModel := em;
      participantModel := pm;
      tagModel := tm;
      activePage := EventsPage;
      editEvent := None;
      bannerText := "";
      new;
      var emLoaded := em.AddListener("loaded", RenderListener);
      var emChanged := em.AddListener("changed", RenderListener);
      var emBanner := em.AddListener("banner", BannerListener);
      var pmLoaded := pm.AddListener("loaded", RenderListener);
      var pmChanged := pm.AddListener("changed", RenderListener);
      var pmBanner := pm.AddListener("banner", BannerListener);
      var tmLoaded := tm.AddListener("loaded", RenderListener);
      var tmChanged := tm.AddListener("changed", RenderListener);
      var tmBanner := tm.AddListener("banner", BannerListener);
    }

    /** The navigation callback. */
    method Navigate(page: Page)
      modifies this
      ensures activePage == page && editEvent == None && bannerText == ""
    {
      activePage := page;
      editEvent := None;
      bannerText := "";
    }

    /** The edit callback: its id argument is ignored; the selected event is
      the one edited. */
    method Edit(id: Option<int>)
      modifies this
      ensures editEvent == E.SelectedEvent(eventModel.State())
      ensures activePage == NewEventPage && bannerText == old(bannerText)
    {
      editEvent := eventModel.GetSelectedEvent();
      activePage := NewEventPage;
    }

    /** The delete callback of the event list, given the answer to the
      confirmation. */
    method ConfirmDeleteEvent(id: Option<int>, confirmed: bool)
      requires Valid()
      modifies this, eventModel
      ensures Valid()
      ensures activePage == old(activePage) && editEvent == old(editEvent)
      ensures confirmed ==>
                var step := E.DeleteEventStep(old(eventModel.State()), id);
                && eventModel.State() == step.state
                && eventModel.channel == EmitAll(old(eventModel.channel), step.notices)
                && bannerText == LastBanner(old(bannerText), step.notices)
      ensures !confirmed ==>
                eventModel.State() == old(eventModel.State()) && eventModel.channel == old(eventModel.channel)
                && bannerText == old(bannerText)
    {
      if confirmed {
        var ch0 := eventModel.channel;
        var notices := E.DeleteEventStep(eventModel.State(), id).notices;
        eventModel.DeleteEvent(id);
        BannerReachesController(ch0, bannerText, notices);
        bannerText := LatestBanner(bannerText, eventModel.channel.calls[|ch0.calls|..]);
      }
    }

    /** The submit callback: update or add, then back to the list whatever
      the store did. */
    method Submit(formData: E.EventInput)
      requires Valid()
      modifies this, eventModel
      ensures Valid()
      ensures editEvent == None && activePage == EventsPage
      ensures var step := SubmitStep(old(eventModel.State()), formData);
              && eventModel.State() == step.state
              && eventModel.channel == EmitAll(old(eventModel.channel), step.notices)
              && bannerText == LastBanner(old(bannerText), step.notices)
    {
      var ch0 := eventModel.channel;
      if IsTruthyId(formData.id) {
        BannerReachesController(ch0, bannerText, E.UpdateEventStep(eventModel.State(), formData).notices);
        eventModel.UpdateEvent(formData);
      } else {
        BannerReachesController(ch0, bannerText, E.AddEventStep(eventModel.State(), formData).notices);
        eventModel.AddEvent(formData);
      }
      bannerText := LatestBanner(bannerText, eventModel.channel.calls[|ch0.calls|..]);
      editEvent := None;
      activePage := EventsPage;
    }

    /** The cancel callback of the form. */
    method Cancel()
      modifies this
      ensures editEvent == None && activePage == EventsPage && bannerText == old(bannerText)
    {
      editEvent := None;
      activePage := EventsPage;
    }

    /** The delete callback of the participant page, given the answer the
      confirmation would give; it is asked only when no event uses the
      participant. */
    method DeleteParticipant(id: Option<int>, confirmed: bool) returns (outcome: GuardOutcome)
      requires Valid()
      modifies this, participantModel
      ensures Valid()
      ensures activePage == old(activePage) && editEvent == old(editEvent)
      ensures outcome == ParticipantGuard(eventModel.events, id, confirmed)
      ensures participantModel.participants == GuardedParticipantDelete(eventModel.events, old(participantModel.participants), id, confirmed)
      ensures outcome.Invoked? ==>
                var step := P.DeleteParticipantStep(old(participantModel.participants), id);
                && participantModel.channel == EmitAll(old(participantModel.channel), step.notices)
                && bannerText == LastBanner(old(bannerText), step.notices)
      ensures !outcome.Invoked? ==>
                participantModel.channel == old(participantModel.channel) && bannerText == old(bannerText)
    {
      if ReferencesParticipant(eventModel.events, id) {
        return Blocked(ParticipantInUse);
      }
      if !confirmed {
        return Declined;
      }
      var ch0 := participantModel.channel;
      var notices := P.DeleteParticipantStep(participantModel.participants, id).notices;
      participantModel.DeleteParticipant(id);
      BannerReachesController(ch0, bannerText, notices);
      bannerText := LatestBanner(bannerText, participantModel.channel.calls[|ch0.calls|..]);
      return Invoked;
    }

    /** The delete callback of the tag page. */
    method DeleteTag(id: Option<int>, confirmed: bool) returns (outcome: GuardOutcome)
      requires Valid()
      modifies this, tagModel
      ensures Valid()
      ensures activePage == old(activePage) && editEvent == old(editEvent)
      ensures outcome == TagGuard(eventModel.events, id, confirmed)
      ensures tagModel.tags == GuardedTagDelete(eventModel.events, old(tagModel.tags), id, confirmed)
      ensures outcome.Invoked? ==>
                var step := T.DeleteTagStep(old(tagModel.tags), id);
                && tagModel.channel == EmitAll(old(tagModel.channel), step.notices)
                && bannerText == LastBanner(old(bannerText), step.notices)
      ensures !outcome.Invoked? ==>
                tagModel.channel == old(tagModel.channel) && bannerText == old(bannerText)
    {
      if ReferencesTag(eventModel.events, id) {
        return Blocked(TagInUse);
      }
      if !confirmed {
        return Declined;
      }
      var ch0 := tagModel.channel;
      var notices := T.DeleteTagStep(tagModel.tags, id).notices;
      tagModel.DeleteTag(id);
      BannerReachesController(ch0, bannerText, notices);
      bannerText := LatestBanner(bannerText, tagModel.channel.calls[|ch0.calls|..]);
      return Invoked;
    }
  }
}
