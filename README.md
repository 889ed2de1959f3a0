# Eventbuddy data layer in Dafny

Eventbuddy is a small browser application for managing events, participants and tags. This project models its in-memory data layer and proves properties of it. It also models two pieces that sit around that layer.

**The data layer: three stores and the filter state.**
- The event store (`EventModel`) holds the events, the selected event id and a `Filters` object.
- The participant store (`ParticipantModel`) and the tag store (`TagModel`) each hold a list of records.
- Each store keeps a registry of listeners for three notification kinds: `loaded`, `changed` and `banner`.
- The mutating store operations report refusals and results through those notifications, not by throwing.
- A non-numeric id given to `selectEvent`, `updateEvent` or a delete is ignored without any notification.
- `addListener` can throw: a kind that names a member of `Object.prototype` makes it throw a TypeError.
- Records get ids by the max + 1 rule.
- Input is normalised: strings are trimmed and id lists are made numeric.
- The participant and tag stores refuse blank fields and duplicates that differ only in case.
- Deleting reports ids that were not found.
- The event list can be filtered by status, participant and tag. Filtering also moves the selection onto the visible list.

**The controller's callback logic.** The controller is modelled without rendering. This covers:
- navigation;
- the banner listener;
- editing, submitting and cancelling the event form;
- the confirmation before an event is deleted;
- the "in use" guards that refuse to delete a participant or tag that an event still references.

**The date formatter.** `formatDateTime` of the event list view is a pure function.

## Modelling choices

**Stores.** Each store is a `class` whose fields the methods update.
- Add, update and delete are specified by pure step functions, for example `AddEventStep`. The method's new state and notifications equal the step function's result.
- The properties of add, update and delete are lemmas about those step functions.
- The other mutating methods state their new state and notifications directly in their `ensures`. These are `load`'s two outcomes, `setFilters`, `selectEvent`, `getFilteredEvents` (which moves the selection) and `addListener`.

**Listener registry.** The registry is a value, `Notify.Channel`. It records:
- the listener ids registered per kind, in registration order;
- every notification emitted;
- every listener call that notification made.

`addListener` appends to the list of a known kind. Any other kind leaves the registry unchanged: a kind that names a member inherited from `Object.prototype` (such as `toString`) throws a TypeError, and the rest are ignored. The model returns that outcome as a value. `_emit` calls the listeners in registration order. A notification without listeners changes only the trace.

**Numbers.** `Number(x)`/`isNaN` on a scalar id is an `Option<int>`, where `None` is NaN. The same goes for a stored record id, which may be non-numeric in loaded data. The filter strings are read with a decimal parser, `Text.ParseInt`.

**Strings.**
- `trim` strips the fixed set of ECMAScript WhiteSpace and LineTerminator code points.
- `toLowerCase` lowers ASCII letters only.
- `split` takes a one-character separator.

**Dialogs.** `confirm` is a boolean parameter. `alert` is the `Blocked(message)` outcome of a guarded delete.

**The banner listener.** The controller reads its banner text off the calls that a store's emission made to the controller's banner listener. `BannerReachesController` proves that this is the text of the last banner emitted.

## Model

| member | source | states |
|---|---|---|
| Text.Trim | js/model/eventModel.js:253 | `trim` never lengthens its input, and the result neither begins nor ends with whitespace |
| Text.TrimStartShape | js/model/eventModel.js:253 | dropping leading whitespace yields a suffix, what is dropped is all whitespace, and the result does not start with whitespace |
| Text.TrimEndShape | js/model/eventModel.js:253 | dropping trailing whitespace yields a prefix, what is dropped is all whitespace, and the result does not end with whitespace |
| Text.TrimSlice | js/model/eventModel.js:253-261 | `trim` yields a slice of its input with only whitespace cut off on both sides, and neither end of the result is whitespace |
| Text.TrimFixesTrimmed | js/model/eventModel.js:253-261 | a string whose ends are not whitespace is left unchanged by `trim` |
| Text.TrimIdempotent | js/model/eventModel.js:253-261 | trimming twice equals trimming once |
| Text.TrimBlank | js/model/eventModel.js:287 | `trim` yields "" exactly when the input is all whitespace |
| Text.Split | js/view/eventsView.js:363 | `split` always yields at least one piece |
| Text.JoinSplit | js/view/eventsView.js:363 | joining the pieces with the separator gives back the input |
| Text.SplitShape | js/view/eventsView.js:363-364 | there is one more piece than there are separators, and no piece contains the separator |
| Text.SplitWithout | js/view/eventsView.js:369 | a string without the separator is one piece |
| Text.SplitAfter | js/view/eventsView.js:363-370 | splitting `a + sep + b`, where `a` has no separator, yields `a` followed by the pieces of `b` |
| Text.ParseInt | js/model/eventModel.js:171 | only a non-empty string is a number; a run of decimal digits is a non-negative number; a string starting with anything but a digit or a sign is not a number |
| Text.DigitsRoundTrip | js/model/eventModel.js:171 | reading the decimal digits of a natural number gives that number back |
| Text.ParseIntToText | js/model/eventModel.js:171 | `Number` of the decimal text of any integer, negative ones included, is that integer |
| Records.Keep | js/model/eventModel.js:159-161 | `filter` returns no more elements than it is given, and every element it returns satisfies the predicate |
| Records.KeepMembers | js/model/eventModel.js:159-161 | an element is in the result of `filter` exactly when it is in the input and satisfies the predicate |
| Records.KeepIsSubsequence | js/model/eventModel.js:159-161 | `filter` keeps the relative order of what it keeps |
| Records.KeepCounts | js/model/eventModel.js:159-161 | `filter` keeps each passing element as often as it occurs and drops every failing one |
| Records.KeepAll | js/model/eventModel.js:333 | the length is unchanged exactly when every element passes, and then the result is the input |
| Records.KeepSame | js/model/eventModel.js:159-161 | filters by pointwise equal predicates agree |
| Records.KeepKeep | js/model/eventModel.js:173-194 | two successive filters equal one filter by the conjunction |
| Records.KeepAppend | js/model/eventModel.js:159-161 | filtering distributes over concatenation |
| Records.MaxKey | js/model/eventModel.js:232-241 | the running maximum is at least 0, bounds every numeric id, and is either 0 or an id that occurs |
| Records.NextKey | js/model/eventModel.js:232-244 | `_nextId` is positive and larger than every numeric id. No record holds it. It is 1, or the record before it holds the largest id. It is 1 exactly when no numeric id is positive |
| Records.FirstIndex | js/model/eventModel.js:308-315 | the position found holds the id and no earlier position does; there is none exactly when no record holds the id |
| Records.FindKey | js/model/participantModel.js:91-101 | the record found is the first holding the id; there is none exactly when no record holds it |
| Records.RemoveKeyKeeps | js/model/eventModel.js:328-331 | removal keeps, in order and with multiplicity, exactly the records whose id differs |
| Records.RemoveKeyMissing | js/model/eventModel.js:333-336 | the length is unchanged exactly when no record holds the id, and then the list is unchanged |
| Records.UniqueKeysAppendNext | js/model/eventModel.js:292-293 | appending a record with the next id keeps numeric ids unique |
| Records.UniqueKeysReplace | js/model/eventModel.js:306-310 | replacing a record by one with the same id keeps ids unique |
| Records.UniqueKeysKeep | js/model/eventModel.js:328-331 | filtering keeps ids unique |
| Records.UniqueByAppend | js/model/participantModel.js:139-149 | appending a record whose key differs from every key keeps keys distinct |
| Records.UniqueByKeep | js/model/participantModel.js:163-165 | filtering keeps keys distinct |
| Records.UniqueKeysRemove | js/model/eventModel.js:328-331 | deleting by id keeps ids unique |
| Records.UniqueByRemove | js/model/participantModel.js:163-165 | deleting by id keeps keys distinct |
| Notify.RegistrationOf | js/model/eventModel.js:34-38 | `addListener` registers exactly for the three kinds the registry is created with, throws a TypeError exactly for a key inherited from `Object.prototype`, and ignores every other kind |
| Notify.AddListener | js/model/eventModel.js:49-52 | registering emits nothing and makes no call; no listener list shrinks, and at most one listener is added in all |
| Notify.AddListenerOutcome | js/model/eventModel.js:49-52 | the registry changes exactly when the kind registers, and then `fn` is appended to the end of that kind's list only |
| Notify.Emit | js/model/eventModel.js:55-61 | `_emit` leaves the registry alone, records the notification at the end of the trace, and adds one call per listener of its kind after the earlier calls |
| Notify.Deliver | js/model/eventModel.js:55-61 | `_emit` makes one call per registered listener, in registration order |
| Notify.EmitAll | js/model/eventModel.js:55-61 | emitting leaves the registry alone, appends the notifications to the trace, and only extends the calls |
| Notify.EmitAllAppend | js/model/eventModel.js:55-61 | emitting `a` then `b` is emitting `a + b` |
| Notify.RegistrationOrder | js/model/eventModel.js:49-61 | for a kind with no listeners yet, registering two listeners and emitting calls them in registration order; an unknown kind such as "update" registers nothing |
| FilterState.Patched | js/model/filters.js:34-46 | a missing or empty patch changes nothing, and a patch giving every key a falsy value clears all three criteria |
| FilterState.PatchedFields | js/model/filters.js:34-46 | a missing patch changes nothing, an absent key keeps its value, and a present key takes the patch value, with a falsy value becoming "" |
| FilterState.PatchedIdempotent | js/model/filters.js:34-46 | applying a patch twice equals applying it once |
| FilterState.PatchedFullForgets | js/model/filters.js:38-45 | a patch naming all three keys gives the same state from any start |
| FilterState.Filters.constructor | js/model/filters.js:12-21 | a new filter state has all three fields "" |
| FilterState.Filters.Set | js/model/filters.js:34-46 | the new fields are the patched old ones |
| FilterState.Filters.Reset | js/model/filters.js:54-58 | after `reset` all three fields are "" |
| EventStore.Normalize | js/model/eventModel.js:250-281 | the id is kept only when it is a truthy number; a missing or non-array id list becomes []; the title is trimmed and no longer than the input |
| EventStore.NumbersIsKeep | js/model/eventModel.js:266-278 | the id list built from an array equals filtering the array down to its numeric entries |
| EventStore.NumbersKeepsNumbers | js/model/eventModel.js:266-278 | the id list keeps the order of the numeric entries, and a number is in it exactly when the array holds it |
| EventStore.NormalizeTrims | js/model/eventModel.js:250-264 | no normalised string field begins or ends with whitespace |
| EventStore.NormalizeIdempotent | js/model/eventModel.js:250-281 | normalising a normalised event again changes nothing |
| EventStore.FilterEvents | js/model/eventModel.js:146-195 | the filtered list is never longer than the events, and with every criterion off it is the events themselves |
| EventStore.StatusPass | js/model/eventModel.js:158-162 | the status pass, run only for a non-empty status, equals a filter by "no status given or the status is equal" |
| EventStore.ParticipantPass | js/model/eventModel.js:170-180 | the participant pass, run only for a non-empty participant filter, equals a filter by "no filter given, or its number is among the event's participant ids"; a filter that is not a number matches nothing |
| EventStore.TagPass | js/model/eventModel.js:185-195 | the same for the tag pass and the event's tag ids |
| EventStore.FilterEventsIsKeep | js/model/eventModel.js:146-195 | the status, participant and tag passes together filter by "matches every active criterion" |
| EventStore.FilterEventsMeaning | js/model/eventModel.js:146-201 | the filtered list is an order-preserving subsequence of the events, holds each matching event as often as the events do, and holds nothing else |
| EventStore.Reconcile | js/model/eventModel.js:203-215 | the selection either stays or becomes the id of the first listed event, and an empty list never moves it |
| EventStore.SelectedEvent | js/model/eventModel.js:125-134 | the selected event is the first event holding the selected id; there is none exactly when nothing is selected or no event holds the id |
| EventStore.ReconcileMeaning | js/model/eventModel.js:203-215 | the selection moves to the first listed id exactly when the list is non-empty and lists no event with the selected id; otherwise it stays |
| EventStore.ReconcileStable | js/model/eventModel.js:203-215 | reconciling again with the same list moves nothing |
| EventStore.FilteredTwice | js/model/eventModel.js:146-218 | a second `getFilteredEvents` with no change in between returns the same list and leaves the selection where the first call put it |
| EventStore.AddEventStep | js/model/eventModel.js:284-298 | an add keeps every existing event in place, adds at most one at the end, and always emits a banner first |
| EventStore.UpdateEventStep | js/model/eventModel.js:301-318 | an update keeps the number of events and the selection, and emits nothing exactly when the id is not a number |
| EventStore.DeleteEventStep | js/model/eventModel.js:321-345 | a delete never adds events, and emits nothing exactly when the id is not a number |
| EventStore.AddEventRejectsBlankTitle | js/model/eventModel.js:284-290 | a blank title emits only "Titel ist ein Pflichtfeld." and changes neither the events nor the selection |
| EventStore.AddEventAppends | js/model/eventModel.js:292-297 | otherwise exactly one event is appended: the normalised input with the next id, which no event held before. Earlier events are unchanged. The new id is selected. The store emits "Event erstellt." then Changed. Unique ids stay unique |
| EventStore.UpdateEventCases | js/model/eventModel.js:301-318 | a non-numeric id changes and emits nothing. When an event holds the id, the first such event is replaced wholesale by the normalised input with that id. The length, every other position and the selection stay. Ids stay unique. "Event gespeichert." then Changed is emitted. Otherwise only "Event nicht gefunden." is emitted |
| EventStore.DeleteEventMissing | js/model/eventModel.js:321-336 | a non-numeric id changes and emits nothing; an id no event holds leaves events and selection unchanged and emits only "Event nicht gefunden." |
| EventStore.DeleteEventRemoves | js/model/eventModel.js:321-345 | otherwise every event with the id goes, the rest keep their order and how often each occurs, the selection becomes the first remaining id or none, "Event wurde gelöscht." then Changed is emitted, and ids stay unique |
| EventStore.EventModel.constructor | js/model/eventModel.js:29-40 | no events, no selection, cleared filters, empty registry |
| EventStore.EventModel.AddListener | js/model/eventModel.js:49-52 | registers the listener for a known kind only, and reports a TypeError exactly for a key inherited from `Object.prototype` |
| EventStore.EventModel.LoadSucceeded | js/model/eventModel.js:85-95 | a non-array becomes []. The selection is the first event's id or none. Loaded then Changed is emitted |
| EventStore.EventModel.LoadFailed | js/model/eventModel.js:96-99 | only "Fehler beim Laden der Events." is emitted |
| EventStore.EventModel.SetFilters | js/model/eventModel.js:109-112 | the filters take the patch and Changed is emitted |
| EventStore.EventModel.SelectEvent | js/model/eventModel.js:114-122 | a non-numeric id changes and emits nothing; any number is stored without an existence check and Changed is emitted |
| EventStore.EventModel.GetSelectedEvent | js/model/eventModel.js:125-134 | the scan returns `SelectedEvent` of the store |
| EventStore.EventModel.GetFilteredEvents | js/model/eventModel.js:146-218 | returns the filtered list, leaves the events untouched and reconciles the selection with the list |
| EventStore.EventModel.NextId | js/model/eventModel.js:232-244 | the scan returns `NextKey` of the events |
| EventStore.EventModel.AddEvent | js/model/eventModel.js:284-298 | the new state and the notifications are those of `AddEventStep` |
| EventStore.EventModel.UpdateEvent | js/model/eventModel.js:301-318 | the new state and the notifications are those of `UpdateEventStep` |
| EventStore.EventModel.DeleteEvent | js/model/eventModel.js:321-345 | the new state and the notifications are those of `DeleteEventStep` |
| ParticipantStore.AddParticipantStep | js/model/participantModel.js:129-153 | an add keeps every participant in place, adds at most one at the end, and always emits a banner first |
| ParticipantStore.DeleteParticipantStep | js/model/participantModel.js:156-175 | a delete never adds participants, and emits nothing exactly when the id is not a number |
| ParticipantStore.AddParticipantRejectsBlank | js/model/participantModel.js:129-136 | a blank name or e-mail emits only "Name und E-Mail sind Pflichtfelder." and changes nothing |
| ParticipantStore.AddParticipantRejectsDuplicate | js/model/participantModel.js:138-145 | an e-mail equal to a stored one ignoring case emits only "Diese E-Mail-Adresse ist bereits vorhanden." and changes nothing |
| ParticipantStore.AddParticipantAppends | js/model/participantModel.js:129-153 | otherwise exactly one participant is appended, with the trimmed name and e-mail and the next id, which no participant held before. "Teilnehmer*in hinzugefügt." then Changed is emitted. Ids and case-insensitive e-mails stay unique |
| ParticipantStore.AddParticipantTwice | js/model/participantModel.js:138-152 | once an e-mail is added, a second add with it in any case is refused and changes nothing |
| ParticipantStore.DeleteParticipantMissing | js/model/participantModel.js:156-171 | a non-numeric id changes and emits nothing; an unknown id changes nothing and emits only "Teilnehmer*in nicht gefunden." |
| ParticipantStore.DeleteParticipantRemoves | js/model/participantModel.js:156-175 | otherwise every participant with the id goes and the rest keep their order and how often each occurs. "Teilnehmer*in gelöscht." then Changed is emitted. Ids and e-mails stay unique |
| ParticipantStore.ParticipantModel.constructor | js/model/participantModel.js:15-27 | no participants, empty registry |
| ParticipantStore.ParticipantModel.AddListener | js/model/participantModel.js:34-37 | registers the listener for a known kind only, and reports a TypeError exactly for a key inherited from `Object.prototype` |
| ParticipantStore.ParticipantModel.LoadSucceeded | js/model/participantModel.js:68-74 | a non-array becomes []; Loaded then Changed is emitted |
| ParticipantStore.ParticipantModel.LoadFailed | js/model/participantModel.js:75-78 | only "Fehler beim Laden der Teilnehmer." is emitted |
| ParticipantStore.ParticipantModel.GetAll | js/model/participantModel.js:86-88 | a fresh array with the store's contents |
| ParticipantStore.ParticipantModel.GetById | js/model/participantModel.js:91-101 | the first participant with the id; none for a non-numeric id or one no participant holds |
| ParticipantStore.ParticipantModel.NextId | js/model/participantModel.js:108-117 | the scan returns `NextKey` of the participants |
| ParticipantStore.ParticipantModel.AddParticipant | js/model/participantModel.js:129-153 | the new list and the notifications are those of `AddParticipantStep` |
| ParticipantStore.ParticipantModel.DeleteParticipant | js/model/participantModel.js:156-175 | the new list and the notifications are those of `DeleteParticipantStep` |
| TagStore.AddTagStep | js/model/tagModel.js:130-154 | an add keeps every tag in place, adds at most one at the end, and always emits a banner first |
| TagStore.DeleteTagStep | js/model/tagModel.js:157-174 | a delete never adds tags, and emits nothing exactly when the id is not a number |
| TagStore.AddTagRejectsBlank | js/model/tagModel.js:130-137 | a blank label emits only "Der Tag-Name darf nicht leer sein." and changes nothing |
| TagStore.AddTagRejectsDuplicate | js/model/tagModel.js:139-146 | a label equal to a stored one ignoring case emits only "Dieses Tag existiert bereits." and changes nothing |
| TagStore.AddTagAppends | js/model/tagModel.js:130-154 | otherwise exactly one tag is appended with the trimmed label and the next id, which no tag held before. "Tag wurde hinzugefügt." then Changed is emitted. Ids and case-insensitive labels stay unique |
| TagStore.AddTagTwice | js/model/tagModel.js:139-153 | once a label is added, a second add with it in any case is refused and changes nothing |
| TagStore.DeleteTagMissing | js/model/tagModel.js:157-170 | a non-numeric id changes and emits nothing; an unknown id changes nothing and emits only "Tag nicht gefunden." |
| TagStore.DeleteTagRemoves | js/model/tagModel.js:157-174 | otherwise every tag with the id goes and the rest keep their order and how often each occurs. "Tag wurde gelöscht." then Changed is emitted. Ids and labels stay unique |
| TagStore.TagModel.constructor | js/model/tagModel.js:19-31 | no tags, empty registry |
| TagStore.TagModel.AddListener | js/model/tagModel.js:38-41 | registers the listener for a known kind only, and reports a TypeError exactly for a key inherited from `Object.prototype` |
| TagStore.TagModel.LoadSucceeded | js/model/tagModel.js:72-78 | a non-array becomes []; Loaded then Changed is emitted |
| TagStore.TagModel.LoadFailed | js/model/tagModel.js:79-82 | only "Fehler beim Laden der Tags." is emitted |
| TagStore.TagModel.GetAll | js/model/tagModel.js:90-92 | a fresh array with the store's contents |
| TagStore.TagModel.GetById | js/model/tagModel.js:95-103 | the first tag with the id; none for a non-numeric id or one no tag holds |
| TagStore.TagModel.NextId | js/model/tagModel.js:110-119 | the scan returns `NextKey` of the tags |
| TagStore.TagModel.AddTag | js/model/tagModel.js:130-154 | the new list and the notifications are those of `AddTagStep` |
| TagStore.TagModel.DeleteTag | js/model/tagModel.js:157-174 | the new list and the notifications are those of `DeleteTagStep` |
| Control.Wired | js/controller.js:45-53 | render is registered for Loaded and Changed and the banner listener for Banner, each appended; nothing is emitted |
| Control.LatestBanner | js/controller.js:49-52 | the banner text stays as it was or is the text of some call of the banner listener with a banner |
| Control.LastBanner | js/controller.js:49-52 | the banner text after a store's notifications is one of the banners emitted, or stays as it was; with no banner among them it stays |
| Control.BannerReachesController | js/controller.js:49-52 | once the banner listener is registered, whatever a store emits leaves the banner text at the last banner emitted, or unchanged when there was none |
| Control.SubmitStep | js/controller.js:150-155 | every submit, whether it updates or adds, emits a banner first |
| Control.SubmitRouting | js/controller.js:150-161 | a submit with a truthy id keeps the number of events and the selection; one without keeps every existing event in place and adds at most one at the end |
| Control.ParticipantGuard | js/controller.js:194-213 | the store's delete is reached exactly when the request is confirmed and no event lists the id; the "in use" alert comes exactly when an event lists it |
| Control.TagGuard | js/controller.js:235-254 | the same for tags and the events' tag ids |
| Control.ParticipantGuardProtects | js/controller.js:194-213 | a referenced participant is never deleted and an unconfirmed request deletes nothing. A guarded delete keeps every participant id that an event lists resolvable |
| Control.TagGuardProtects | js/controller.js:235-254 | the same for tags |
| Control.Controller.constructor | js/controller.js:21-38 | the page is the event list, nothing is being edited, the banner is "", and all three stores are wired |
| Control.Controller.Navigate | js/controller.js:85-91 | the page is the target, nothing is edited, the banner is "" |
| Control.Controller.Edit | js/controller.js:121-125 | the edited event is the store's selected event and the page is the form |
| Control.Controller.ConfirmDeleteEvent | js/controller.js:128-131 | the store deletes only when confirmed, and the banner text follows what it emits |
| Control.Controller.Submit | js/controller.js:150-161 | updates for a truthy id and adds otherwise. The banner text follows the store. Afterwards nothing is edited and the page is the list |
| Control.Controller.Cancel | js/controller.js:164-168 | nothing is edited and the page is the list |
| Control.Controller.DeleteParticipant | js/controller.js:193-214 | blocked with the "in use" alert when an event lists the id. Otherwise the store deletes only when confirmed, and the banner text follows it |
| Control.Controller.DeleteTag | js/controller.js:234-255 | the same for tags |
| EventsView.FormatDateTime | js/view/eventsView.js:359-377 | the shown text is "" exactly when the input is blank |
| EventsView.FormatBlank | js/view/eventsView.js:360-361 | blank input is shown as "" |
| EventsView.FormatWithoutOneT | js/view/eventsView.js:363-364 | input whose trimmed text does not hold exactly one "T" is shown trimmed and otherwise unchanged |
| EventsView.FormatBadDate | js/view/eventsView.js:366-370 | a date part without exactly two "-" leaves the trimmed text unchanged |
| EventsView.FormatShape | js/view/eventsView.js:372-376 | `y-m-dTt` becomes `d.m.y, t Uhr` |

## Left out

**Source outside the model**
- Network loading. `fetch`, its promises and `console.error` in the three `load` methods are not modelled. Each outcome is a method: `LoadSucceeded` takes the already parsed data, and `LoadFailed` covers the error path.
- Rendering. All DOM work is out: `Controller.render`, and every view except `formatDateTime`. js/main.js only wires objects together.
- Re-entrant calls from listeners. Render is only registered as a listener id, so the selection move made by the `getFilteredEvents` call inside render is not part of the controller's transitions. That call is modelled on its own as `EventModel.GetFilteredEvents`.
- Operations that only delegate to one store call are not repeated in the controller: changing a filter, selecting an event, and adding a participant or a tag. The store methods model them.
- The event list view's "save participants" callback (`onUpdateParticipants`, a parameter of `bindEventsView` in js/view/eventsView.js) is never passed by the controller. It has no store operation behind it, and it is not modelled.

**Operations the stores do not have.** js/model/eventModel.js has no operation that replaces only an event's participant ids, and js/model/tagModel.js has no operation that relabels a tag. The model has neither.

**JavaScript value semantics**
- Number coercion abstracts `Number` to `Option<int>`. These quirks are not modelled:
  - `Number("")` is 0;
  - `Number(null)` is 0;
  - hex, exponent and fractional forms;
  - rounding to double precision (see the id lines below);
  - `[NaN].includes(NaN)` being true.
- Loaded records are assumed to hold numeric id lists.
- The participant and tag `_normalize` also read `data.id`. `addParticipant` and `addTag` overwrite that id at once, so the inputs carry no id.
- Strings: `toLowerCase` is ASCII-only and `trim` uses a fixed code-point set. There is no other Unicode behaviour.
- A filter-patch value that is truthy but not a string is not modelled.
- Records.NextKey: ids are exact integers in the model, so max + 1 is always a new id. In the source ids are IEEE doubles, and `maxId + 1` rounds once the largest id is 2^53 or more, so `_nextId` can return an id a record already holds (js/model/eventModel.js:243, js/model/participantModel.js:116, js/model/tagModel.js:118). That rounding is not captured.
- EventStore.EventModel.NextId: proved equal to `Records.NextKey`, so the double rounding of max + 1 at and above 2^53 is not captured.
- ParticipantStore.ParticipantModel.NextId: proved equal to `Records.NextKey`, so the double rounding of max + 1 at and above 2^53 is not captured.
- TagStore.TagModel.NextId: proved equal to `Records.NextKey`, so the double rounding of max + 1 at and above 2^53 is not captured.
- EventStore.AddEventAppends: "the new id is held by no event" and "unique ids stay unique" hold for exact integers only. With ids of 2^53 or more the source can repeat an existing id.
- ParticipantStore.AddParticipantAppends: the same freshness and uniqueness conclusions hold for exact integers only, not for ids of 2^53 or more in the source.
- TagStore.AddTagAppends: the same freshness and uniqueness conclusions hold for exact integers only, not for ids of 2^53 or more in the source.
- Text.ParseInt: the value is the exact integer. The source's `Number` rounds decimal text beyond 2^53 to the nearest double (for example "9007199254740993" reads as 9007199254740992), so filter ids that large are compared after rounding there and exactly here.
- EventStore.SelectedEvent: a null selection matches no event. The source's `Number(null)` is 0, so a null selection would match an event whose id `Number` reads as 0 (null, "", 0). That can only happen when loaded data holds such an event. The null selection then arises through load, getFilteredEvents or deleteEvent, whenever such an event becomes the first one.
- ParticipantStore.ParticipantModel.GetAll, TagStore.TagModel.GetAll: the copy holds values. The source's `slice()` is a shallow copy whose record objects stay shared with the store; that sharing is not modelled.

- EventStore.EventModel.AddListener, ParticipantStore.ParticipantModel.AddListener, TagStore.TagModel.AddListener: the TypeError for an inherited key is returned as the `TypeError` outcome; that the exception then leaves the calling code is not modelled.

**Dialogs.** `confirm` and `alert` are not modelled. The answer is a parameter and the alert is an outcome value.
