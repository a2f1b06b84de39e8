/**
 * The stateful half of the settings context: the provider, which holds the
 * effective settings and the drawer flag, publishes the context value, and
 * reports updates and resets through the host's `onUpdate` and `onReset`
 * callbacks. The callbacks are external; the model records each call.
 */
module SettingsProvider {
  import opened Wrappers
  import opened SettingsStore

  /** The drawer starts closed. */
  const InitialOpenDrawer: bool := false

  /** The keys the published value sets after spreading the settings; a settings key of the same name is shadowed. */
  const PublishedKeys: set<string> :=
    {"openDrawer", "handleDrawerClose", "handleDrawerOpen", "handleReset", "handleUpdate", "isCustom"}

  /**
   * The data part of the published context value: the settings spread first,
   * then the drawer state and the customisation flag. The four handles are
   * the operations of `Provider`.
   */
  datatype ContextValue = ContextValue(
    known: Settings,
    extra: map<string, Value>,
    openDrawer: bool,
    isCustom: bool)

  /** The value a provider publishes for its effective settings and drawer state. */
  function Publish(settings: SettingsObject, openDrawer: bool): (r: ContextValue)
    ensures r.known == settings.known && r.openDrawer == openDrawer
    ensures r.isCustom <==> exists f :: Get(settings.known, f) != Get(DefaultSettings, f)
    ensures forall k :: k in r.extra <==> k in settings.extra && k !in PublishedKeys
    ensures forall k :: k in r.extra ==> r.extra[k] == settings.extra[k]
  {
    IsCustomIff(settings);
    ContextValue(settings.known, settings.extra - PublishedKeys, openDrawer, IsCustom(settings))
  }

  /** The value a consumer sees when no provider is above it. */
  function DefaultContextValue(): ContextValue {
    ContextValue(DefaultSettings, map[], InitialOpenDrawer, false)
  }

  /** The fallback value advertises the defaults, a closed drawer and no customisation: what a fresh provider without settings publishes. */
  lemma DefaultContextIsFreshProvider()
    ensures DefaultContextValue() == Publish(Merge(None), InitialOpenDrawer)
    ensures !DefaultContextValue().isCustom && !DefaultContextValue().openDrawer
  {
  }

  /** Everything the provider holds, including the record of callback calls. */
  datatype ProviderState = ProviderState(
    settings: SettingsObject,
    openDrawer: bool,
    updates: seq<SettingsObject>,
    resets: nat)

  /** What can happen to a provider: a consumer calls one of the four handles, or the host re-renders it with a settings object. */
  datatype Event =
    | DrawerOpen
    | DrawerClose
    | Update(newSettings: PartialSettings)
    | Reset
    | Rerender(initial: Option<PartialSettings>)

  function Start(initial: Option<PartialSettings>): ProviderState {
    ProviderState(Merge(initial), InitialOpenDrawer, [], 0)
  }

  function Step(st: ProviderState, e: Event): ProviderState {
    match e
    case DrawerOpen => st.(openDrawer := true)
    case DrawerClose => st.(openDrawer := false)
    case Update(p) => st.(updates := st.updates + [UpdatePayload(st.settings, p)])
    case Reset => st.(resets := st.resets + 1)
    case Rerender(initial) => st.(settings := Merge(initial))
  }

  function Run(st: ProviderState, evs: seq<Event>): ProviderState
    decreases |evs|
  {
    if evs == [] then st else Run(Step(st, evs[0]), evs[1..])
  }

  class Provider {
    var settings: SettingsObject
    var openDrawer: bool
    /** The objects passed to `onUpdate`, in call order. */
    ghost var updates: seq<SettingsObject>
    /** The number of calls to `onReset`. */
    ghost var resets: nat

    ghost function State(): ProviderState
      reads this
    {
      ProviderState(settings, openDrawer, updates, resets)
    }

    /** Mount with the host's settings object (absent when the host passes none). */
    constructor (initial: Option<PartialSettings>)
      ensures settings == Merge(initial) && !openDrawer
      ensures updates == [] && resets == 0
      ensures State() == Start(initial)
    {
      settings := Merge(initial);
      openDrawer := InitialOpenDrawer;
      updates := [];
      resets := 0;
    }

    /** The host renders the provider again with a settings object: the effective settings are recomputed, the drawer state is kept. */
    method Rerender(initial: Option<PartialSettings>)
      modifies this`settings
      ensures settings == Merge(initial)
      ensures openDrawer == old(openDrawer) && updates == old(updates) && resets == old(resets)
      ensures State() == Step(old(State()), Event.Rerender(initial))
    {
      settings := Merge(initial);
    }

    /** `handleUpdate`: one call to `onUpdate` with the current settings overlaid by `newSettings`; the provider's own state is untouched. */
    method HandleUpdate(newSettings: PartialSettings)
      modifies this`updates
      ensures updates == old(updates) + [UpdatePayload(settings, newSettings)]
      ensures settings == old(settings) && openDrawer == old(openDrawer) && resets == old(resets)
      ensures State() == Step(old(State()), Update(newSettings))
    {
      updates := updates + [UpdatePayload(settings, newSettings)];
    }

    /** `handleDrawerOpen`: the drawer is open afterwards, whatever it was before. */
    method HandleDrawerOpen()
      modifies this`openDrawer
      ensures openDrawer
      ensures settings == old(settings) && updates == old(updates) && resets == old(resets)
      ensures State() == Step(old(State()), DrawerOpen)
    {
      openDrawer := true;
    }

    /** `handleDrawerClose`: the drawer is closed afterwards, whatever it was before. */
    method HandleDrawerClose()
      modifies this`openDrawer
      ensures !openDrawer
      ensures settings == old(settings) && updates == old(updates) && resets == old(resets)
      ensures State() == Step(old(State()), DrawerClose)
    {
      openDrawer := false;
    }

    /** `handleReset`, which is `onReset` itself: one call to `onReset`, no local change. */
    method HandleReset()
      modifies this`resets
      ensures resets == old(resets) + 1
      ensures settings == old(settings) && openDrawer == old(openDrawer) && updates == old(updates)
      ensures State() == Step(old(State()), Reset)
    {
      resets := resets + 1;
    }

    /** The published context value. */
    function Value(): (r: ContextValue)
      reads this
      ensures r.known == settings.known && r.openDrawer == openDrawer
      ensures r.isCustom == IsCustom(settings)
    {
      Publish(settings, openDrawer)
    }
  }

  /** Opening and closing the drawer are idempotent and the last one wins. */
  lemma DrawerStepsIdempotent(st: ProviderState)
    ensures Step(Step(st, DrawerOpen), DrawerOpen) == Step(st, DrawerOpen)
    ensures Step(Step(st, DrawerClose), DrawerClose) == Step(st, DrawerClose)
    ensures !Step(Step(st, DrawerOpen), DrawerClose).openDrawer
    ensures Step(Step(st, DrawerClose), DrawerOpen).openDrawer
  {
  }

  /** Running two sequences of events one after the other is running their concatenation. */
  lemma {:induction false} RunAppend(st: ProviderState, a: seq<Event>, b: seq<Event>)
    ensures Run(st, a + b) == Run(Run(st, a), b)
    decreases |a|
  {
    if a == [] {
      assert a + b == b;
    } else {
      assert (a + b)[0] == a[0];
      assert (a + b)[1..] == a[1..] + b;
      RunAppend(Step(st, a[0]), a[1..], b);
    }
  }

  /** The drawer state after a sequence of events: set by the last open or close, and as it was when there is none. */
  function DrawerAfter(evs: seq<Event>, openDrawer: bool): bool
    decreases |evs|
  {
    if evs == [] then openDrawer
    else match evs[|evs| - 1]
      case DrawerOpen => true
      case DrawerClose => false
      case _ => DrawerAfter(evs[..|evs| - 1], openDrawer)
  }

  /** One more event after a run is one more step. */
  lemma RunSnoc(st: ProviderState, evs: seq<Event>, e: Event)
    ensures Run(st, evs + [e]) == Step(Run(st, evs), e)
  {
    RunAppend(st, evs, [e]);
    assert Run(Run(st, evs), [e]) == Run(Step(Run(st, evs), e), []);
  }

  /** Only the drawer handles move the drawer flag: updates, resets and re-renders leave it where the last open or close put it. */
  lemma {:induction false} RunDrawer(st: ProviderState, evs: seq<Event>)
    ensures Run(st, evs).openDrawer == DrawerAfter(evs, st.openDrawer)
    decreases |evs|
  {
    if evs != [] {
      var init, last := evs[..|evs| - 1], evs[|evs| - 1];
      assert evs == init + [last];
      RunSnoc(st, init, last);
      RunDrawer(st, init);
    }
  }

  predicate NoRerender(evs: seq<Event>) {
    forall i :: 0 <= i < |evs| ==> !evs[i].Rerender?
  }

  /** The objects sent to `onUpdate` by the updates among `evs`, each built on `settings`. */
  function Payloads(settings: SettingsObject, evs: seq<Event>): seq<SettingsObject>
    decreases |evs|
  {
    if evs == [] then []
    else if evs[0].Update? then [UpdatePayload(settings, evs[0].newSettings)] + Payloads(settings, evs[1..])
    else Payloads(settings, evs[1..])
  }

  /**
   * Unidirectional data flow: as long as the host does not re-render the
   * provider, its settings never change, and every update reports to
   * `onUpdate` the same held settings overlaid by that update's keys.
   */
  lemma {:induction false} RunWithoutRerender(st: ProviderState, evs: seq<Event>)
    requires NoRerender(evs)
    ensures Run(st, evs).settings == st.settings
    ensures Run(st, evs).updates == st.updates + Payloads(st.settings, evs)
    decreases |evs|
  {
    if evs != [] {
      assert !evs[0].Rerender?;
      assert NoRerender(evs[1..]) by {
        forall i | 0 <= i < |evs[1..]| ensures !evs[1..][i].Rerender? {
          assert evs[1..][i] == evs[i + 1];
        }
      }
      RunWithoutRerender(Step(st, evs[0]), evs[1..]);
    }
  }

  function ResetCount(evs: seq<Event>): nat
    decreases |evs|
  {
    if evs == [] then 0 else (if evs[0].Reset? then 1 else 0) + ResetCount(evs[1..])
  }

  /** `onReset` is called exactly once per reset, and never otherwise. */
  lemma {:induction false} RunResets(st: ProviderState, evs: seq<Event>)
    ensures Run(st, evs).resets == st.resets + ResetCount(evs)
    decreases |evs|
  {
    if evs != [] {
      RunResets(Step(st, evs[0]), evs[1..]);
    }
  }
}
