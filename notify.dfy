/** The listener registry each store keeps (`addListener` / `_emit`),
    modelled as a value: the listeners registered per notification kind, in
    registration order, plus a trace of every notification emitted and of
    every listener call made for it. */
module Notify {

  /** Identifies a registered callback; listeners are not modelled as
      function values. */
  type ListenerId = nat

  /** The three notification kinds; a banner carries its text. */
  datatype Notice = Loaded | Changed | Banner(text: string)

  /** One call of a listener with a notification. */
  datatype Call = Call(listener: ListenerId, notice: Notice)

  datatype Channel = Channel(
    loaded: seq<ListenerId>,
    changed: seq<ListenerId>,
    banner: seq<ListenerId>,
    emitted: seq<Notice>,
    calls: seq<Call>)

  /** The outcome of a store operation as a value: the new state and the
      notifications it emits, in order. */
  datatype Step<S> = Step(state: S, notices: seq<Notice>)

  /** A store's registry right after construction. */
  const Empty: Channel := Channel([], [], [], [], [])

  /** The kinds the registry object is created with. */
  const Kinds: set<string> := {"loaded", "changed", "banner"}

  /** The keys every plain object inherits from `Object.prototype`. The
      registry is a plain object, so looking one of these up yields a
      function or an object, which is truthy and has no `push`. */
  const InheritedKeys: set<string> := {
    "constructor", "__proto__", "hasOwnProperty", "isPrototypeOf",
    "propertyIsEnumerable", "toLocaleString", "toString", "valueOf",
    "__defineGetter__", "__defineSetter__", "__lookupGetter__", "__lookupSetter__"}

  /** How a call of `addListener(type, fn)` ends: the listener is appended,
      the kind is ignored, or the `push` throws a TypeError. */
  datatype Registration = Registered | Ignored | TypeError

  /** The outcome of `addListener` for `kind`: a known kind registers, an
      inherited key throws, and any other kind is ignored. */
  function RegistrationOf(kind: string): (r: Registration)
    ensures r == Registered <==> kind in Kinds
    ensures r == TypeError <==> kind in InheritedKeys
    ensures r == Ignored <==> kind !in Kinds && kind !in InheritedKeys
  {
    if kind == "loaded" || kind == "changed" || kind == "banner" then Registered
    else if kind in InheritedKeys then TypeError
    else Ignored
  }

  /** The registry after `addListener(type, fn)`: `fn` is appended to the
      list of a known kind; for any other kind the registry is unchanged,
      whether the call returns early or throws before the `push`. */
  function AddListener(ch: Channel, kind: string, fn: ListenerId): (r: Channel)
    ensures r.emitted == ch.emitted && r.calls == ch.calls
    ensures |ch.loaded| <= |r.loaded| && |ch.changed| <= |r.changed| && |ch.banner| <= |r.banner|
    ensures |r.loaded| + |r.changed| + |r.banner| <= |ch.loaded| + |ch.changed| + |ch.banner| + 1
  {
    if kind == "loaded" then ch.(loaded := ch.loaded + [fn])
    else if kind == "changed" then ch.(changed := ch.changed + [fn])
    else if kind == "banner" then ch.(banner := ch.banner + [fn])
    else ch
  }

  /** The registry changes exactly when the kind is registered, and then
      only the list of that kind grows, by `fn` at its end. */
  lemma AddListenerOutcome(ch: Channel, kind: string, fn: ListenerId)
    ensures AddListener(ch, kind, fn) == ch <==> RegistrationOf(kind) != Registered
    ensures RegistrationOf(kind) == Registered ==>
              var r := AddListener(ch, kind, fn);
              && r.emitted == ch.emitted && r.calls == ch.calls
              && |r.loaded| + |r.changed| + |r.banner| == |ch.loaded| + |ch.changed| + |ch.banner| + 1
              && (kind == "loaded" ==> r.loaded == ch.loaded + [fn])
              && (kind == "changed" ==> r.changed == ch.changed + [fn])
              && (kind == "banner" ==> r.banner == ch.banner + [fn])
  {
  }

  /** The listeners registered for the kind of `n`. */
  function ListenersFor(ch: Channel, n: Notice): seq<ListenerId>
  {
    match n
    case Loaded => ch.loaded
    case Changed => ch.changed
    case Banner(_) => ch.banner
  }

  /** The calls made for `n`: one per listener, in registration order. */
  function Deliver(ls: seq<ListenerId>, n: Notice): (r: seq<Call>)
    ensures |r| == |ls|
    ensures forall i :: 0 <= i < |ls| ==> r[i] == Call(ls[i], n)
    decreases |ls|
  {
    if |ls| == 0 then [] else [Call(ls[0], n)] + Deliver(ls[1..], n)
  }

  /** `_emit`: records `n` and calls its listeners. */
  function Emit(ch: Channel, n: Notice): (r: Channel)
    ensures r.loaded == ch.loaded && r.changed == ch.changed && r.banner == ch.banner
    ensures |r.emitted| == |ch.emitted| + 1 && r.emitted[|ch.emitted|] == n
    ensures |r.calls| == |ch.calls| + |ListenersFor(ch, n)| && r.calls[..|ch.calls|] == ch.calls
  {
    ch.(emitted := ch.emitted + [n], calls := ch.calls + Deliver(ListenersFor(ch, n), n))
  }

  /** Emitting several notifications in order. The registry is left alone,
      and the traces only grow. */
  function EmitAll(ch: Channel, ns: seq<Notice>): (r: Channel)
    ensures r.loaded == ch.loaded && r.changed == ch.changed && r.banner == ch.banner
    ensures r.emitted == ch.emitted + ns
    ensures |ch.calls| <= |r.calls| && r.calls[..|ch.calls|] == ch.calls
    decreases |ns|
  {
    if |ns| == 0 then ch else EmitAll(Emit(ch, ns[0]), ns[1..])
  }

  /** A sequence that starts with `a + d` continues after `a` with `d`. */
  lemma SliceAfterPrefix<T>(full: seq<T>, a: seq<T>, d: seq<T>)
    requires |a| + |d| <= |full| && full[..|a| + |d|] == a + d
    ensures full[|a|..] == d + full[|a| + |d|..]
  {
    var lhs := full[|a|..];
    var rhs := d + full[|a| + |d|..];
    assert |lhs| == |rhs|;
    forall k | 0 <= k < |lhs| ensures lhs[k] == rhs[k] {
      if k < |d| {
        assert full[|a| + k] == full[..|a| + |d|][|a| + k];
      }
    }
  }

  /** The calls an emission adds: those of its first notification, then
      those of the rest. */
  lemma EmitAllNewCalls(ch: Channel, ns: seq<Notice>)
    requires |ns| > 0
    ensures var ch1 := Emit(ch, ns[0]);
            EmitAll(ch, ns).calls[|ch.calls|..]
            == Deliver(ListenersFor(ch, ns[0]), ns[0]) + EmitAll(ch1, ns[1..]).calls[|ch1.calls|..]
  {
    var ch1 := Emit(ch, ns[0]);
    var d := Deliver(ListenersFor(ch, ns[0]), ns[0]);
    var full := EmitAll(ch1, ns[1..]).calls;
    assert full == EmitAll(ch, ns).calls;
    SliceAfterPrefix(full, ch.calls, d);
  }

  /** Emitting `a` and then `b` is emitting `a + b`. */
  lemma {:induction false} EmitAllAppend(ch: Channel, a: seq<Notice>, b: seq<Notice>)
    ensures EmitAll(EmitAll(ch, a), b) == EmitAll(ch, a + b)
    decreases |a|
  {
    if |a| > 0 {
      assert (a + b)[0] == a[0] && (a + b)[1..] == a[1..] + b;
      EmitAllAppend(Emit(ch, a[0]), a[1..], b);
    } else {
      assert a + b == b;
    }
  }

  /** Two listeners registered for the same known kind are called in the
      order they were registered, and an unknown kind registers nothing. */
  lemma RegistrationOrder(ch: Channel, kind: string, f: ListenerId, g: ListenerId, n: Notice)
    requires ListenersFor(ch, n) == []
    requires kind == (match n case Loaded => "loaded" case Changed => "changed" case Banner(_) => "banner")
    ensures Emit(AddListener(AddListener(ch, kind, f), kind, g), n).calls == ch.calls + [Call(f, n), Call(g, n)]
    ensures AddListener(ch, "update", f) == ch
  {
    var ch2 := AddListener(AddListener(ch, kind, f), kind, g);
    assert ListenersFor(ch2, n) == [f, g];
  }
}
